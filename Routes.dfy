/** routes.py, `invoice_form` on POST: the items are gathered from the
    posted form fields, the six-key request is assembled around them, the
    request is validated and then rendered. Every exception on the way,
    a ValueError from validation or from parsing a number as much as a
    missing field, is answered with a 400 that carries the exception.

    The form is the sequence `request.form.items()` yields: each key once,
    with its first value, in the order posted. The business table is a
    parameter: `Business.query.get(id)` is a lookup that may find nothing. */
module Routes {
  import opened PyValues
  import opened Decimal
  import opened Pdf
  import opened InvoiceGenerator
  import Utils

  type Form = seq<(string, string)>

  /** A stored business: both columns are non-null strings. */
  datatype Business = Business(name: string, address: string)

  /** The answer to the POST. */
  datatype Reply = Sent(doc: Document) | BadRequest(error: Error)

  /** The first value posted under `key`, if any. */
  function Lookup(form: Form, key: string): (r: Option<string>)
    ensures r.Some? <==> exists i :: 0 <= i < |form| && form[i].0 == key
    ensures r.Some? ==> exists i :: 0 <= i < |form| && form[i] == (key, r.value)
  {
    if form == [] then None
    else if form[0].0 == key then Some(form[0].1)
    else
      var r := Lookup(form[1..], key);
      assert forall i :: 1 <= i < |form| ==> form[i] == form[1..][i - 1];
      r
  }

  /** `request.form[key]`. */
  function Field(form: Form, key: string): Result<string>
  {
    match Lookup(form, key)
    case None => Err(KeyError(key))
    case Some(v) => Ok(v)
  }

  /** `int(request.form.get(key, 0))`: the default is already an int. */
  function IntField(form: Form, key: string): (r: Result<int>)
    ensures Lookup(form, key) == None ==> r == Ok(0)
    ensures r.Err? ==> Lookup(form, key).Some? && ParseInt(Lookup(form, key).value).None? && r.error.ValueError?
    ensures Lookup(form, key).Some? && |Lookup(form, key).value| > 0 && AllDigits(Lookup(form, key).value) ==>
              r == Ok(ParseDigits(Lookup(form, key).value))
  {
    match Lookup(form, key)
    case None => Ok(0)
    case Some(text) =>
      match ParseInt(text)
      case None => Err(ValueError("invalid literal for int() with base 10: '" + text + "'"))
      case Some(n) => Ok(n)
  }

  /** `float(text)` on a posted string. */
  function ToFloat(text: string): (r: Result<real>)
    ensures r.Ok? <==> ParseFloat(text).Some?
    ensures r.Err? ==> r.error.ValueError?
  {
    match ParseFloat(text)
    case None => Err(ValueError("could not convert string to float: '" + text + "'"))
    case Some(x) => Ok(x)
  }

  /** `float(request.form.get(key, 0.0))`. */
  function FloatField(form: Form, key: string): (r: Result<real>)
    ensures Lookup(form, key) == None ==> r == Ok(0.0)
    ensures r.Err? ==> Lookup(form, key).Some? && ParseFloat(Lookup(form, key).value).None? && r.error.ValueError?
    ensures Lookup(form, key).Some? && ParseFloat(Lookup(form, key).value).Some? ==>
              r == Ok(ParseFloat(Lookup(form, key).value).value)
  {
    match Lookup(form, key)
    case None => Ok(0.0)
    case Some(text) => ToFloat(text)
  }

  /** The test that selects a key: `key.startswith('item') and '_desc' in key`. */
  predicate IsItemKey(key: string)
  {
    StartsWith(key, "item") && Contains(key, "_desc")
  }

  /** A selected key is `item` followed, somewhere after it, by `_desc`:
      the two cannot overlap, since `item` holds no underscore. */
  lemma ItemKeyShape(key: string)
    ensures IsItemKey(key) <==> StartsWith(key, "item") && exists i: nat :: 4 <= i && Occurs(key, "_desc", i)
    ensures IsItemKey(key) ==> |key| >= 9
  {
    ContainsOccurs(key, "_desc");
    if IsItemKey(key) {
      var i: nat :| Occurs(key, "_desc", i);
      assert key[i] == '_';
      assert key[..4] == "item";
    }
  }

  /** `s.split('_')[0]`: everything before the first underscore. */
  function BeforeUnderscore(s: string): (r: string)
    ensures |r| <= |s| && r == s[..|r|] && '_' !in r
    ensures |r| < |s| ==> s[|r|] == '_'
  {
    if s == [] || s[0] == '_' then [] else [s[0]] + BeforeUnderscore(s[1..])
  }

  /** `key.split('_')[0][4:]`. */
  function ItemIndex(key: string): string
  {
    var head := BeforeUnderscore(key);
    if |head| <= 4 then [] else head[4..]
  }

  /** For a key that starts with `item`, the index is what follows it up
      to the first underscore or the end: the one string with no
      underscore that `IndexOfKey` reads back. */
  lemma ItemIndexShape(key: string)
    requires StartsWith(key, "item")
    ensures var r := ItemIndex(key);
            && '_' !in r && 4 + |r| <= |key| && key[..4 + |r|] == "item" + r
            && (4 + |r| == |key| || key[4 + |r|] == '_')
  {
  }

  /** The dict appended for index `index`: its description, quantity and
      unit price are read in that order. */
  function ItemFor(form: Form, index: string): Result<Value>
  {
    var description :- Field(form, "item" + index + "_desc");
    var quantity :- IntField(form, "item" + index + "_qty");
    var unitPrice :- FloatField(form, "item" + index + "_price");
    Ok(Dict(map["description" := Str(description), "quantity" := Int(quantity), "unit_price" := Float(unitPrice)]))
  }

  /** The item is built exactly when its description is posted and its
      quantity and price parse; a missing description is a KeyError for its
      field; the dict holds the three item keys and nothing else. */
  lemma ItemForReads(form: Form, index: string)
    ensures ItemFor(form, index).Ok? <==> && Lookup(form, "item" + index + "_desc").Some?
                                          && IntField(form, "item" + index + "_qty").Ok?
                                          && FloatField(form, "item" + index + "_price").Ok?
    ensures Lookup(form, "item" + index + "_desc") == None ==>
              ItemFor(form, index) == Err(KeyError("item" + index + "_desc"))
    ensures ItemFor(form, index).Ok? ==>
              var item := ItemFor(form, index).value;
              && item.Dict? && item.fields.Keys == {"description", "quantity", "unit_price"}
              && item.fields["description"] == Str(Lookup(form, "item" + index + "_desc").value)
              && item.fields["quantity"] == Int(IntField(form, "item" + index + "_qty").value)
              && item.fields["unit_price"] == Float(FloatField(form, "item" + index + "_price").value)
  {
  }

  /** The items list after the loop has visited `pairs`, a prefix of the
      form, or the exception it raised. */
  function CollectedItems(form: Form, pairs: Form): Result<seq<Value>>
  {
    if pairs == [] then Ok([])
    else
      var items :- CollectedItems(form, pairs[..|pairs| - 1]);
      var key := pairs[|pairs| - 1].0;
      if IsItemKey(key) then
        var item :- ItemFor(form, ItemIndex(key));
        Ok(items + [item])
      else
        Ok(items)
  }

  /** The selected keys among `pairs`, in order. */
  function Matches(pairs: Form): (keys: seq<string>)
    ensures |keys| <= |pairs|
    ensures forall k :: k in keys ==> IsItemKey(k)
    ensures forall i :: 0 <= i < |pairs| && IsItemKey(pairs[i].0) ==> pairs[i].0 in keys
  {
    if pairs == [] then []
    else
      var front := Matches(pairs[..|pairs| - 1]);
      assert forall i :: 0 <= i < |pairs| - 1 ==> pairs[..|pairs| - 1][i] == pairs[i];
      if IsItemKey(pairs[|pairs| - 1].0) then front + [pairs[|pairs| - 1].0] else front
  }

  /** The loop of lines 55-62: the items list grows by one dict per
      selected key, in form order; the first exception ends the loop. */
  method CollectItems(form: Form) returns (r: Result<seq<Value>>)
    ensures r == CollectedItems(form, form)
  {
    var items: seq<Value> := [];
    var i := 0;
    while i < |form|
      invariant 0 <= i <= |form|
      invariant CollectedItems(form, form[..i]) == Ok(items)
    {
      var key := form[i].0;
      assert form[..i + 1][..i] == form[..i];
      if IsItemKey(key) {
        var item := ItemFor(form, ItemIndex(key));
        if item.Err? {
          CollectedFailsAtPrefix(form, form, i + 1);
          return Err(item.error);
        }
        items := items + [item.value];
      }
      i := i + 1;
    }
    assert form[..i] == form;
    return Ok(items);
  }

  /** The loop's step on one more field. */
  lemma CollectedNext(form: Form, pairs: Form, field: (string, string))
    ensures CollectedItems(form, pairs + [field]) ==
              if CollectedItems(form, pairs).Err? then CollectedItems(form, pairs)
              else if !IsItemKey(field.0) then CollectedItems(form, pairs)
              else if ItemFor(form, ItemIndex(field.0)).Err? then Err(ItemFor(form, ItemIndex(field.0)).error)
              else Ok(CollectedItems(form, pairs).value + [ItemFor(form, ItemIndex(field.0)).value])
  {
    assert (pairs + [field])[..|pairs|] == pairs;
  }

  /** Once the loop has raised, later fields change nothing. */
  lemma {:induction false} CollectedFailsAtPrefix(form: Form, pairs: Form, n: nat)
    requires n <= |pairs| && CollectedItems(form, pairs[..n]).Err?
    ensures CollectedItems(form, pairs) == CollectedItems(form, pairs[..n])
    decreases |pairs|
  {
    if n < |pairs| {
      var front := pairs[..|pairs| - 1];
      assert front[..n] == pairs[..n];
      CollectedFailsAtPrefix(form, front, n);
    } else {
      assert pairs[..n] == pairs;
    }
  }

  /** One item per selected key, in form order, each built from the index
      that key yields; the loop succeeds exactly when every one of them can
      be built. */
  lemma {:induction false} CollectedMatches(form: Form, pairs: Form)
    ensures CollectedItems(form, pairs).Ok? <==>
              forall i :: 0 <= i < |Matches(pairs)| ==> ItemFor(form, ItemIndex(Matches(pairs)[i])).Ok?
    ensures CollectedItems(form, pairs).Ok? ==>
              |CollectedItems(form, pairs).value| == |Matches(pairs)|
              && forall i :: 0 <= i < |Matches(pairs)| ==>
                   CollectedItems(form, pairs).value[i] == ItemFor(form, ItemIndex(Matches(pairs)[i])).value
    decreases |pairs|
  {
    if pairs != [] {
      var front := pairs[..|pairs| - 1];
      CollectedMatches(form, front);
      var key := pairs[|pairs| - 1].0;
      if IsItemKey(key) {
        var before := Matches(front);
        assert Matches(pairs) == before + [key];
        assert forall i :: 0 <= i < |before| ==> Matches(pairs)[i] == before[i];
        if CollectedItems(form, front).Ok? && ItemFor(form, ItemIndex(key)).Ok? {
          var items := CollectedItems(form, front).value;
          assert CollectedItems(form, pairs) == Ok(items + [ItemFor(form, ItemIndex(key)).value]);
        } else if CollectedItems(form, front).Err? {
          var i :| 0 <= i < |before| && ItemFor(form, ItemIndex(before[i])).Err?;
          assert ItemFor(form, ItemIndex(Matches(pairs)[i])).Err?;
        } else {
          assert ItemFor(form, ItemIndex(Matches(pairs)[|before|])).Err?;
        }
      } else {
        assert Matches(pairs) == Matches(front);
      }
    }
  }

  /** The index is whatever follows `item` up to the first underscore:
      `item12_desc` gives `12`. */
  lemma IndexOfKey(index: string, rest: string)
    requires '_' !in index
    ensures ItemIndex("item" + index + "_" + rest) == index
  {
    var key := "item" + index + "_" + rest;
    assert key[..4 + |index|] == "item" + index;
    assert key[4 + |index|] == '_';
  }

  /** Missing quantity and price fields give quantity 0 and price 0.0. */
  lemma DefaultAmounts(form: Form, index: string, description: string)
    requires Lookup(form, "item" + index + "_desc") == Some(description)
    requires Lookup(form, "item" + index + "_qty") == None
    requires Lookup(form, "item" + index + "_price") == None
    ensures ItemFor(form, index) ==
              Ok(Dict(map["description" := Str(description), "quantity" := Int(0), "unit_price" := Float(0.0)]))
  {
  }

  /** Every key `item<index>_desc...` is selected, whatever follows
      `_desc`, and yields `index`. */
  lemma SelectedKey(index: string, rest: string)
    requires '_' !in index
    ensures IsItemKey("item" + index + "_desc" + rest)
    ensures ItemIndex("item" + index + "_desc" + rest) == index
  {
    var key := "item" + index + "_desc" + rest;
    assert key == "item" + index + "_" + ("desc" + rest);
    IndexOfKey(index, "desc" + rest);
    assert key[..4] == "item";
    assert key[4 + |index|..4 + |index| + 5] == "_desc";
    ContainsAt(key, "_desc", 4 + |index|);
  }

  /** In a form holding only the two description fields of one index, both
      keys are selected, both yield that index, and the item read for it has
      the first description and the default amounts. */
  lemma TwoDescriptions(index: string, rest: string, description: string, other: string)
    requires '_' !in index
    ensures var first := "item" + index + "_desc";
            var second := "item" + index + "_desc" + rest;
            var form := [(first, description), (second, other)];
            && IsItemKey(first) && ItemIndex(first) == index
            && IsItemKey(second) && ItemIndex(second) == index
            && ItemFor(form, index)
               == Ok(Dict(map["description" := Str(description), "quantity" := Int(0), "unit_price" := Float(0.0)]))
  {
    var first := "item" + index + "_desc";
    var second := "item" + index + "_desc" + rest;
    var form := [(first, description), (second, other)];
    SelectedKey(index, "");
    assert first + "" == first;
    SelectedKey(index, rest);
    var at := 5 + |index|;
    var qty := "item" + index + "_qty";
    var price := "item" + index + "_price";
    assert qty[at] == 'q' && price[at] == 'p' && first[at] == 'd' && second[at] == 'd';
    assert Lookup(form, qty) == None && Lookup(form, price) == None;
    DefaultAmounts(form, index, description);
  }

  /** A key such as `item1_desc2` is selected too and yields the same
      index as `item1_desc`: a form holding both gets the item built from
      the `item1_` fields twice. */
  lemma DuplicateItem(index: string, rest: string, description: string, other: string)
    requires '_' !in index
    ensures var form := [("item" + index + "_desc", description), ("item" + index + "_desc" + rest, other)];
            var item := Dict(map["description" := Str(description), "quantity" := Int(0), "unit_price" := Float(0.0)]);
            CollectedItems(form, form) == Ok([item, item])
  {
    var first := "item" + index + "_desc";
    var second := "item" + index + "_desc" + rest;
    var form := [(first, description), (second, other)];
    var item := Dict(map["description" := Str(description), "quantity" := Int(0), "unit_price" := Float(0.0)]);
    TwoDescriptions(index, rest, description, other);
    var none: Form := [];
    var noItems: seq<Value> := [];
    CollectedNext(form, none, (first, description));
    assert none + [(first, description)] == [(first, description)];
    assert noItems + [item] == [item];
    CollectedNext(form, [(first, description)], (second, other));
    assert [(first, description)] + [(second, other)] == form;
    assert [item] + [item] == [item, item];
  }

  /** The request `invoice_form` assembles, or the exception raised while
      assembling it: the items first, then `business_id`, the business
      (a missing one is `None`, whose `.name` raises), the customer fields
      and the tax rate, in the order of lines 64-74. */
  function FormRequest(form: Form, businesses: map<string, Business>): (r: Result<Value>)
    ensures CollectedItems(form, form).Err? ==> r == Err(CollectedItems(form, form).error)
    ensures r.Ok? ==> && CollectedItems(form, form).Ok?
                      && Lookup(form, "business_id").Some? && Lookup(form, "business_id").value in businesses
                      && Lookup(form, "customer_name").Some? && Lookup(form, "customer_address").Some?
                      && Lookup(form, "tax_rate").Some? && ParseFloat(Lookup(form, "tax_rate").value).Some?
    ensures r.Ok? ==> r.value == Assembled(businesses[Lookup(form, "business_id").value],
                                           Lookup(form, "customer_name").value, Lookup(form, "customer_address").value,
                                           CollectedItems(form, form).value, ParseFloat(Lookup(form, "tax_rate").value).value)
  {
    var items :- CollectedItems(form, form);
    var businessId :- Field(form, "business_id");
    if businessId !in businesses then Err(AttributeError("name"))
    else
      var business := businesses[businessId];
      var customerName :- Field(form, "customer_name");
      var customerAddress :- Field(form, "customer_address");
      var rateText :- Field(form, "tax_rate");
      var taxRate :- ToFloat(rateText);
      Ok(Assembled(business, customerName, customerAddress, items, taxRate))
  }

  /** The `data` dict of lines 67-74: the six keys validation asks for. */
  function Assembled(business: Business, customerName: string, customerAddress: string,
                     items: seq<Value>, taxRate: real): (data: Value)
    ensures data.Dict? && ReadsPresent(data.fields) && Utils.HasRequired(data.fields)
    ensures data.fields["business_name"] == Str(business.name)
    ensures data.fields["business_address"] == Str(business.address)
    ensures data.fields["customer_name"] == Str(customerName)
    ensures data.fields["customer_address"] == Str(customerAddress)
    ensures data.fields["items"] == List(items) && data.fields["tax_rate"] == Float(taxRate)
  {
    var f := Utils.RequiredFields;
    assert f[0] == "business_name" && f[1] == "business_address" && f[2] == "customer_name";
    assert f[3] == "customer_address" && f[4] == "items" && f[5] == "tax_rate";
    Dict(map[
      "business_name" := Str(business.name),
      "business_address" := Str(business.address),
      "customer_name" := Str(customerName),
      "customer_address" := Str(customerAddress),
      "items" := List(items),
      "tax_rate" := Float(taxRate)])
  }

  /** The reply to the POST: validation comes before rendering, and any
      exception is a 400. */
  function FormReply(form: Form, businesses: map<string, Business>): (r: Reply)
    ensures r.Sent? ==> && FormRequest(form, businesses).Ok?
                        && Utils.Validate(FormRequest(form, businesses).value) == Pass
                        && Render(FormRequest(form, businesses).value) == Ok(r.doc)
    ensures FormRequest(form, businesses).Err? ==> r == BadRequest(FormRequest(form, businesses).error)
  {
    match FormRequest(form, businesses)
    case Err(e) => BadRequest(e)
    case Ok(data) =>
      match Utils.Validate(data)
      case Fail(e) => BadRequest(e)
      case Pass =>
        match Render(data)
        case Err(e) => BadRequest(e)
        case Ok(doc) => Sent(doc)
  }

  /** `invoice_form()` on POST, up to sending the rendered document. */
  method InvoiceForm(form: Form, businesses: map<string, Business>) returns (reply: Reply)
    ensures reply == FormReply(form, businesses)
  {
    var collected := CollectItems(form);
    if collected.Err? {
      return BadRequest(collected.error);
    }
    var data := FormRequest(form, businesses);
    if data.Err? {
      return BadRequest(data.error);
    }
    var checked := Utils.Validate(data.value);
    if checked.Fail? {
      return BadRequest(checked.error);
    }
    var pdf := GenerateInvoice(data.value);
    if pdf.Err? {
      return BadRequest(pdf.error);
    }
    return Sent(pdf.value);
  }

  /** Every collected item is a dict holding the three item keys, with a
      string description, an int quantity and a float price. */
  predicate FormItem(item: Value)
  {
    && item.Dict? && "description" in item.fields && "quantity" in item.fields && "unit_price" in item.fields
    && item.fields["description"].Str? && item.fields["quantity"].Int? && item.fields["unit_price"].Float?
  }

  lemma ItemForShape(form: Form, index: string)
    requires ItemFor(form, index).Ok?
    ensures FormItem(ItemFor(form, index).value)
  {
  }

  /** The assembled request always holds the six keys, and its items are
      one per selected key and well formed. */
  lemma FormRequestShape(form: Form, businesses: map<string, Business>)
    requires FormRequest(form, businesses).Ok?
    ensures var data := FormRequest(form, businesses).value;
            && data.Dict? && Utils.HasRequired(data.fields)
            && data.fields["items"] == List(CollectedItems(form, form).value)
            && |data.fields["items"].elems| == |Matches(form)|
            && (forall j :: 0 <= j < |data.fields["items"].elems| ==> FormItem(data.fields["items"].elems[j]))
            && data.fields["tax_rate"].Float?
  {
    CollectedShape(form);
  }

  /** The gathered items: one per selected key, each a well-formed dict. */
  lemma CollectedShape(form: Form)
    requires CollectedItems(form, form).Ok?
    ensures |CollectedItems(form, form).value| == |Matches(form)|
    ensures forall j :: 0 <= j < |CollectedItems(form, form).value| ==> FormItem(CollectedItems(form, form).value[j])
  {
    CollectedMatches(form, form);
    var items := CollectedItems(form, form).value;
    forall j | 0 <= j < |items|
      ensures FormItem(items[j])
    {
      ItemForShape(form, ItemIndex(Matches(form)[j]));
    }
  }

  /** Validation of an assembled request can fail only on the items: it
      passes exactly when some key was selected, and otherwise reports the
      empty list. */
  lemma FormValidation(form: Form, businesses: map<string, Business>)
    requires FormRequest(form, businesses).Ok?
    ensures Utils.Validate(FormRequest(form, businesses).value) == Pass <==> Matches(form) != []
    ensures Matches(form) == [] ==>
              Utils.Validate(FormRequest(form, businesses).value) == Fail(ValueError(Utils.ItemsMessage))
  {
    var data := FormRequest(form, businesses).value;
    FormRequestShape(form, businesses);
    Utils.ValidateAccepts(data);
    var items := data.fields["items"].elems;
    forall j | 0 <= j < |items|
      ensures Utils.Complete(items[j])
    {
      CompleteFormItem(items[j]);
    }
    if Matches(form) == [] {
      Utils.ItemsNotNonEmptyList(data.fields);
    }
  }

  lemma CompleteFormItem(item: Value)
    requires FormItem(item)
    ensures Utils.Complete(item)
  {
    var k := Utils.ItemKeys;
    assert k[0] == "description" && k[1] == "quantity" && k[2] == "unit_price";
  }

  /** A validated form request always renders: the items and tax rate the
      form yields are numbers the engine accepts. */
  lemma FormRenders(form: Form, businesses: map<string, Business>)
    requires FormRequest(form, businesses).Ok?
    ensures Render(FormRequest(form, businesses).value).Ok?
  {
    var data := FormRequest(form, businesses).value;
    FormRequestShape(form, businesses);
    var items := data.fields["items"].elems;
    assert TableRows(data.fields["items"]).Ok? by {
      FormItemsShown(items);
    }
    RenderAccepts(data);
  }

  /** Items of the form's shape can always be shown in the table. */
  lemma FormItemsShown(items: seq<Value>)
    requires forall j :: 0 <= j < |items| ==> FormItem(items[j])
    ensures TableRows(List(items)).Ok?
  {
    ParseItemsRows(items);
  }

  /** The reply is the document exactly when the request can be assembled
      and some key was selected; otherwise it is a 400 carrying the first
      exception: an assembly error (a ValueError from `int()` or `float()`
      among them) before anything is rendered, else the empty-items
      message. */
  lemma FormOutcomes(form: Form, businesses: map<string, Business>)
    ensures FormReply(form, businesses).Sent? <==> FormRequest(form, businesses).Ok? && Matches(form) != []
    ensures FormRequest(form, businesses).Err? ==>
              FormReply(form, businesses) == BadRequest(FormRequest(form, businesses).error)
    ensures FormRequest(form, businesses).Ok? && Matches(form) == [] ==>
              FormReply(form, businesses) == BadRequest(ValueError(Utils.ItemsMessage))
    ensures FormReply(form, businesses).Sent? ==>
              FormReply(form, businesses).doc == Render(FormRequest(form, businesses).value).value
  {
    if FormRequest(form, businesses).Ok? {
      FormValidation(form, businesses);
      FormRenders(form, businesses);
    }
  }

  /** Fields are read in order: once the items are gathered, a form with
      no `business_id` is answered with a 400 for that KeyError, whatever
      else it lacks, and an unknown id with one for the AttributeError of
      reading `.name` from `None`. */
  lemma MissingBusiness(form: Form, businesses: map<string, Business>)
    requires CollectedItems(form, form).Ok?
    ensures Lookup(form, "business_id") == None ==>
              FormReply(form, businesses) == BadRequest(KeyError("business_id"))
    ensures Lookup(form, "business_id").Some? && Lookup(form, "business_id").value !in businesses ==>
              FormReply(form, businesses) == BadRequest(AttributeError("name"))
  {
  }
}
