/** utils.py, `validate_invoice_data`: presence checks on a request before
    it is rendered. Six keys must be present, in a fixed order; `items` must
    be a non-empty list; every item must hold the three item keys. The
    first failed check raises a `ValueError` with a fixed message. Nothing
    else is looked at: not the types of the values, not extra keys. The
    membership tests are Python's `in`, so a list or string request or item
    is searched by element or by substring, and any other value raises a
    TypeError. */
module Utils {
  import opened PyValues

  /** The keys every request must hold, in the order they are checked. */
  const RequiredFields: seq<string> :=
    ["business_name", "business_address", "customer_name", "customer_address", "items", "tax_rate"]

  /** The keys every item must hold. */
  const ItemKeys: seq<string> := ["description", "quantity", "unit_price"]

  function MissingField(field: string): string
  {
    "Missing required field: " + field
  }

  const ItemsMessage: string := "Items must be a non-empty list"
  const ItemMessage: string := "Each item must contain 'description', 'quantity', and 'unit_price'"

  /** The request holds every required key. */
  predicate HasRequired(m: map<string, Value>)
    ensures HasRequired(m) ==> "items" in m && "tax_rate" in m
  {
    assert RequiredFields[4] == "items" && RequiredFields[5] == "tax_rate";
    forall i :: 0 <= i < |RequiredFields| ==> RequiredFields[i] in m
  }

  /** The first loop: each field in turn must be `in` the request. */
  function CheckFields(data: Value, fields: seq<string>): (o: Outcome)
    ensures o == Pass <==> forall i :: 0 <= i < |fields| ==> In(fields[i], data) == Ok(true)
    ensures o.Fail? ==> o.error.ValueError? || o.error == TypeError
  {
    if fields == [] then Pass
    else
      match In(fields[0], data)
      case Err(e) => Fail(e)
      case Ok(present) =>
        if !present then Fail(ValueError(MissingField(fields[0])))
        else
          var rest := CheckFields(data, fields[1..]);
          assert (forall i :: 0 <= i < |fields| ==> In(fields[i], data) == Ok(true))
                 <==> (forall i :: 0 <= i < |fields[1..]| ==> In(fields[1..][i], data) == Ok(true)) by {
            assert forall i :: 0 <= i < |fields[1..]| ==> fields[1..][i] == fields[i + 1];
          }
          rest
  }

  /** `all(key in item for key in [...])`: stops at the first key that is
      missing; `in` on an item that is not a dict, list or string raises. */
  function AllKeysIn(item: Value, keys: seq<string>): (r: Result<bool>)
    ensures r.Err? ==> r.error == TypeError
  {
    if keys == [] then Ok(true)
    else
      var present :- In(keys[0], item);
      if !present then Ok(false) else AllKeysIn(item, keys[1..])
  }

  /** An item that passes the per-item check. */
  predicate Complete(item: Value)
  {
    forall k :: 0 <= k < |ItemKeys| ==> In(ItemKeys[k], item) == Ok(true)
  }

  /** The second loop: every item in turn must hold the item keys. */
  function CheckItems(items: seq<Value>): (o: Outcome)
    ensures o.Fail? ==> o.error == TypeError || o.error == ValueError(ItemMessage)
  {
    if items == [] then Pass
    else
      match AllKeysIn(items[0], ItemKeys)
      case Err(e) => Fail(e)
      case Ok(complete) => if !complete then Fail(ValueError(ItemMessage)) else CheckItems(items[1..])
  }

  /** `validate_invoice_data(data)`: `Pass` is returning normally. */
  function Validate(data: Value): (o: Outcome)
    ensures o == Pass ==> data.Dict? && HasRequired(data.fields)
                          && data.fields["items"].List? && data.fields["items"].elems != []
    ensures o.Fail? ==> o.error.ValueError? || o.error == TypeError
  {
    var fields := CheckFields(data, RequiredFields);
    if fields.Fail? then fields
    else
      assert In(RequiredFields[4], data) == Ok(true);
      match Subscript(data, "items")
      case Err(e) => Fail(e)
      case Ok(items) =>
        if !items.List? || items.elems == [] then Fail(ValueError(ItemsMessage))
        else CheckItems(items.elems)
  }

  /** All item keys are present exactly when `all(...)` is true; it raises
      only for an item `in` cannot search. */
  lemma AllKeysInComplete(item: Value)
    ensures AllKeysIn(item, ItemKeys) == Ok(true) <==> Complete(item)
    ensures AllKeysIn(item, ItemKeys).Err? <==> !(item.Dict? || item.List? || item.Str?)
  {
    AllKeysInEach(item, ItemKeys);
  }

  lemma {:induction false} AllKeysInEach(item: Value, keys: seq<string>)
    ensures AllKeysIn(item, keys) == Ok(true) <==> forall k :: 0 <= k < |keys| ==> In(keys[k], item) == Ok(true)
    ensures AllKeysIn(item, keys).Err? <==> keys != [] && !(item.Dict? || item.List? || item.Str?)
    decreases |keys|
  {
    if keys != [] {
      AllKeysInEach(item, keys[1..]);
      assert forall k :: 1 <= k < |keys| ==> keys[1..][k - 1] == keys[k];
      if keys[1..] == [] {
        assert |keys| == 1;
      }
    }
  }

  lemma {:induction false} CheckItemsPass(items: seq<Value>)
    ensures CheckItems(items) == Pass <==> forall i :: 0 <= i < |items| ==> Complete(items[i])
    decreases |items|
  {
    if items != [] {
      AllKeysInComplete(items[0]);
      CheckItemsPass(items[1..]);
      assert forall i :: 1 <= i < |items| ==> items[1..][i - 1] == items[i];
    }
  }

  /** A request is accepted exactly when it is a dict holding the six keys,
      its `items` is a non-empty list, and every item holds the three item
      keys. */
  lemma ValidateAccepts(data: Value)
    ensures Validate(data) == Pass <==>
              data.Dict? && HasRequired(data.fields)
              && data.fields["items"].List? && data.fields["items"].elems != []
              && forall j :: 0 <= j < |data.fields["items"].elems| ==> Complete(data.fields["items"].elems[j])
  {
    if Validate(data) == Pass {
      assert In("items", data) == Ok(true);
      assert data.Dict?;
    }
    if data.Dict? && "items" in data.fields && data.fields["items"].List? {
      CheckItemsPass(data.fields["items"].elems);
    }
  }

  /** The error names the first required key that is missing, whatever
      else is wrong with the request. */
  lemma FirstMissingField(m: map<string, Value>, k: nat)
    requires k < |RequiredFields| && RequiredFields[k] !in m
    requires forall i :: 0 <= i < k ==> RequiredFields[i] in m
    ensures Validate(Dict(m)) == Fail(ValueError(MissingField(RequiredFields[k])))
  {
    FieldsFailAt(Dict(m), RequiredFields, k);
  }

  lemma {:induction false} FieldsFailAt(data: Value, fields: seq<string>, k: nat)
    requires data.Dict? && k < |fields| && fields[k] !in data.fields
    requires forall i :: 0 <= i < k ==> fields[i] in data.fields
    ensures CheckFields(data, fields) == Fail(ValueError(MissingField(fields[k])))
    decreases k
  {
    if k > 0 {
      assert fields[0] in data.fields;
      FieldsFailAt(data, fields[1..], k - 1);
    }
  }

  /** The presence checks come first: a request with no `tax_rate` is
      reported as missing it even when its item list is empty. */
  lemma MissingTaxRateBeforeItems(m: map<string, Value>)
    requires forall i :: 0 <= i < 5 ==> RequiredFields[i] in m
    requires "tax_rate" !in m && "items" in m && m["items"] == List([])
    ensures Validate(Dict(m)) == Fail(ValueError(MissingField("tax_rate")))
  {
    assert RequiredFields[5] == "tax_rate";
    FirstMissingField(m, 5);
  }

  /** A non-list `items` and an empty list get the same message. */
  lemma ItemsNotNonEmptyList(m: map<string, Value>)
    requires HasRequired(m)
    requires !m["items"].List? || m["items"].elems == []
    ensures Validate(Dict(m)) == Fail(ValueError(ItemsMessage))
  {
    FieldsPass(Dict(m));
  }

  lemma FieldsPass(data: Value)
    requires data.Dict? && HasRequired(data.fields)
    ensures CheckFields(data, RequiredFields) == Pass
  {
  }

  /** Any incomplete item among dict items gets the one generic message,
      which names neither the item nor the key. */
  lemma IncompleteItem(m: map<string, Value>, j: nat)
    requires HasRequired(m)
    requires m["items"].List? && j < |m["items"].elems|
    requires forall i :: 0 <= i < |m["items"].elems| ==> m["items"].elems[i].Dict?
    requires !Complete(m["items"].elems[j])
    ensures Validate(Dict(m)) == Fail(ValueError(ItemMessage))
  {
    FieldsPass(Dict(m));
    DictItemsFail(m["items"].elems, j);
  }

  lemma {:induction false} DictItemsFail(items: seq<Value>, j: nat)
    requires j < |items| && !Complete(items[j])
    requires forall i :: 0 <= i < |items| ==> items[i].Dict?
    ensures CheckItems(items) == Fail(ValueError(ItemMessage))
    decreases |items|
  {
    AllKeysInComplete(items[0]);
    if Complete(items[0]) {
      assert j > 0;
      assert items[1..][j - 1] == items[j];
      DictItemsFail(items[1..], j - 1);
    }
  }

  /** Only presence is checked: in an accepted request any key but `items`
      may be given any value, or added, and it is still accepted. */
  lemma OnlyPresenceChecked(m: map<string, Value>, key: string, v: Value)
    requires Validate(Dict(m)) == Pass && key != "items"
    ensures Validate(Dict(m[key := v])) == Pass
  {
    ValidateAccepts(Dict(m));
    ValidateAccepts(Dict(m[key := v]));
  }
}
