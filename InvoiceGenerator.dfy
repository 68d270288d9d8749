/** invoice_generator.py: the totals computation and the invoice layout.
    `generate_invoice` opens one page and calls four section writers, each
    of which sets fonts and writes cells on the shared document. Here every
    writer is a method on `Pdf.Doc` whose calls are pinned down by a function
    of the calls made before it (`BusinessCalls`, `CustomerCalls`,
    `HeaderCalls` and `RowCalls`, `TotalsCalls`); `Render` is the whole
    document as a function of the request, and `GenerateInvoice` is proved
    to produce it. The functions that read the request (`CalculateTotals`,
    `ParseItems`, `ReadInvoice`) come with lemmas on what they accept and
    what they compute. */
module InvoiceGenerator {
  import opened PyValues
  import opened Pdf

  /** One line of the item table, as read from one request item. */
  datatype Row = Row(description: Value, quantity: Value, unitPrice: real, lineTotal: real)

  datatype Totals = Totals(subtotal: real, tax: real, total: real)

  /** The request fields the layout shows, read in the order the code reads them. */
  datatype Invoice = Invoice(
    businessName: Value, businessAddress: Value,
    customerName: Value, customerAddress: Value,
    rows: seq<Row>, totals: Totals)

  const Arial: string := "Arial"
  const InvoiceTo: Text := Label("Invoice To:")
  const DescriptionTitle: Text := Label("Description")
  const QuantityTitle: Text := Label("Quantity")
  const UnitPriceTitle: Text := Label("Unit Price")
  const TotalTitle: Text := Label("Total")
  const SubtotalLabel: Text := Label("Subtotal:")
  const TaxLabel: Text := Label("Tax:")
  const TotalLabel: Text := Label("Total:")

  /** `item['quantity'] * item['unit_price']`: one term of the subtotal.
      Multiplying anything but numbers fails (a TypeError, or a string or
      list repetition that the sum then rejects). */
  function LineTotal(item: Value): (r: Result<real>)
    ensures r.Ok? <==> item.Dict? && "quantity" in item.fields && "unit_price" in item.fields
                       && IsNumber(item.fields["quantity"]) && IsNumber(item.fields["unit_price"])
    ensures r.Ok? ==> r.value == ToReal(item.fields["quantity"]) * ToReal(item.fields["unit_price"])
    ensures item.Dict? && "quantity" !in item.fields ==> r == Err(KeyError("quantity"))
  {
    var quantity :- Subscript(item, "quantity");
    var unitPrice :- Subscript(item, "unit_price");
    if IsNumber(quantity) && IsNumber(unitPrice) then Ok(ToReal(quantity) * ToReal(unitPrice))
    else Err(TypeError)
  }

  /** `sum(item['quantity'] * item['unit_price'] for item in items)`: left to
      right from 0, stopping at the first item that fails. */
  function SumLineTotals(items: seq<Value>): Result<real>
  {
    if items == [] then Ok(0.0)
    else
      var partial :- SumLineTotals(items[..|items| - 1]);
      var term :- LineTotal(items[|items| - 1]);
      Ok(partial + term)
  }

  /** The sum, left to right from 0, of the items' terms, when every term
      is defined. */
  function SumTerms(xs: seq<Value>): real
    requires forall i :: 0 <= i < |xs| ==> LineTotal(xs[i]).Ok?
  {
    if xs == [] then 0.0
    else
      assert forall i :: 0 <= i < |xs| - 1 ==> xs[..|xs| - 1][i] == xs[i];
      SumTerms(xs[..|xs| - 1]) + LineTotal(xs[|xs| - 1]).value
  }

  /** The sum is defined exactly when every term is, and is then their sum. */
  lemma {:induction false} SumLineTotalsOk(xs: seq<Value>)
    ensures SumLineTotals(xs).Ok? <==> forall i :: 0 <= i < |xs| ==> LineTotal(xs[i]).Ok?
    ensures SumLineTotals(xs).Ok? ==> SumLineTotals(xs).value == SumTerms(xs)
    decreases |xs|
  {
    if xs != [] {
      var front := xs[..|xs| - 1];
      SumLineTotalsOk(front);
      assert forall i :: 0 <= i < |front| ==> front[i] == xs[i];
    }
  }

  /** `calculate_totals(items, tax_rate)` (invoice_generator.py:4-8, and its
      copy at create_invoice.py:6-10). Descriptions are not read. */
  function CalculateTotals(items: Value, taxRate: Value): (r: Result<Totals>)
    ensures r.Ok? <==>
              && Iterate(items).Ok?
              && (forall i :: 0 <= i < |Iterate(items).value| ==> LineTotal(Iterate(items).value[i]).Ok?)
              && IsNumber(taxRate)
    ensures r.Ok? ==> r.value == Taxed(SumTerms(Iterate(items).value), ToReal(taxRate))
    ensures Iterate(items).Err? ==> r == Err(Iterate(items).error)
  {
    match Iterate(items)
    case Err(e) => Err(e)
    case Ok(xs) =>
      SumLineTotalsOk(xs);
      match SumLineTotals(xs)
      case Err(e) => Err(e)
      case Ok(subtotal) =>
        if IsNumber(taxRate) then Ok(Taxed(subtotal, ToReal(taxRate)))
        else Err(TypeError)
  }

  /** The three lines, from the subtotal and the rate. */
  function Taxed(subtotal: real, rate: real): (t: Totals)
    ensures t.subtotal == subtotal && t.total - t.subtotal == t.tax
  {
    var tax := subtotal * rate;
    Totals(subtotal, tax, subtotal + tax)
  }

  /** The reads one iteration of the table loop makes: description,
      quantity, unit price, then their product. */
  function ParseItem(item: Value): (r: Result<Row>)
    ensures r.Ok? <==> item.Dict? && "description" in item.fields && LineTotal(item).Ok?
    ensures r.Ok? ==> (r.value.description == item.fields["description"]
                       && r.value.quantity == item.fields["quantity"]
                       && r.value.unitPrice == ToReal(item.fields["unit_price"])
                       && r.value.lineTotal == LineTotal(item).value)
    ensures item.Dict? && "description" !in item.fields ==> r == Err(KeyError("description"))
    ensures item.Dict? && "description" in item.fields && r.Err? ==> r == Err(LineTotal(item).error)
  {
    var description :- Subscript(item, "description");
    var quantity :- Subscript(item, "quantity");
    var unitPrice :- Subscript(item, "unit_price");
    if IsNumber(quantity) && IsNumber(unitPrice) then
      Ok(Row(description, quantity, ToReal(unitPrice), ToReal(quantity) * ToReal(unitPrice)))
    else
      Err(TypeError)
  }

  /** The rows of the item table, or the first item's failure. */
  function ParseItems(items: seq<Value>): Result<seq<Row>>
  {
    if items == [] then Ok([])
    else
      var rows :- ParseItems(items[..|items| - 1]);
      var row :- ParseItem(items[|items| - 1]);
      Ok(rows + [row])
  }

  function TableRows(items: Value): Result<seq<Row>>
  {
    var xs :- Iterate(items);
    ParseItems(xs)
  }

  /** Everything `generate_invoice` reads from the request, in its order:
      the six fields (lines 14-16), the table rows (in `_add_items_table`),
      then the totals (in `_add_totals`). */
  function ReadInvoice(data: Value): (r: Result<Invoice>)
    ensures r.Ok? ==> data.Dict? && ReadsPresent(data.fields) && IsNumber(data.fields["tax_rate"])
    ensures r.Ok? ==> && r.value.businessName == data.fields["business_name"]
                      && r.value.businessAddress == data.fields["business_address"]
                      && r.value.customerName == data.fields["customer_name"]
                      && r.value.customerAddress == data.fields["customer_address"]
    ensures r.Ok? ==> && Iterate(data.fields["items"]).Ok?
                      && |r.value.rows| == |Iterate(data.fields["items"]).value|
                      && (forall i :: 0 <= i < |r.value.rows| ==>
                            ParseItem(Iterate(data.fields["items"]).value[i]) == Ok(r.value.rows[i]))
                      && r.value.totals == Taxed(SumRows(r.value.rows), ToReal(data.fields["tax_rate"]))
    ensures !data.Dict? ==> r == Err(TypeError)
    ensures data.Dict? && "business_name" !in data.fields ==> r == Err(KeyError("business_name"))
  {
    var businessName :- Subscript(data, "business_name");
    var businessAddress :- Subscript(data, "business_address");
    var customerName :- Subscript(data, "customer_name");
    var customerAddress :- Subscript(data, "customer_address");
    var items :- Subscript(data, "items");
    var taxRate :- Subscript(data, "tax_rate");
    var rows :- TableRows(items);
    ParseItemsRows(Iterate(items).value);
    SubtotalOfRows(Iterate(items).value);
    var totals :- CalculateTotals(items, taxRate);
    Ok(Invoice(businessName, businessAddress, customerName, customerAddress, rows, totals))
  }

  /** The calls `_add_business_info` makes after calls `c`. */
  function BusinessCalls(c: Calls, name: Value, address: Value): Calls
  {
    c.Then(SetFont(Arial, Bold, 16))
     .Then(CellOp(0, 10, Shown(name), false, true, Left))
     .Then(SetFont(Arial, Regular, 12))
     .Then(CellOp(0, 10, Shown(address), false, true, Left))
     .Then(Ln(10))
  }

  /** The calls `_add_customer_info` makes after calls `c`. */
  function CustomerCalls(c: Calls, name: Value, address: Value): Calls
  {
    c.Then(SetFont(Arial, Bold, 14))
     .Then(CellOp(0, 10, InvoiceTo, false, true, Left))
     .Then(SetFont(Arial, Regular, 12))
     .Then(CellOp(0, 10, Shown(name), false, true, Left))
     .Then(CellOp(0, 10, Shown(address), false, true, Left))
     .Then(Ln(10))
  }

  /** The calls `_add_items_table` makes before its loop. */
  function HeaderCalls(c: Calls): Calls
  {
    c.Then(SetFont(Arial, Bold, 12))
     .Then(CellOp(80, 10, DescriptionTitle, true, false, Left))
     .Then(CellOp(30, 10, QuantityTitle, true, false, Center))
     .Then(CellOp(40, 10, UnitPriceTitle, true, false, Center))
     .Then(CellOp(40, 10, TotalTitle, true, false, Center))
     .Then(Ln(10))
     .Then(SetFont(Arial, Regular, 12))
  }

  /** The calls one iteration of the table loop makes. */
  function RowCalls(c: Calls, row: Row): Calls
  {
    c.Then(CellOp(80, 10, Shown(row.description), true, false, Left))
     .Then(CellOp(30, 10, Shown(row.quantity), true, false, Center))
     .Then(CellOp(40, 10, Money(row.unitPrice), true, false, Center))
     .Then(CellOp(40, 10, Money(row.lineTotal), true, false, Center))
     .Then(Ln(10))
  }

  function RowsCalls(c: Calls, rows: seq<Row>): Calls
  {
    if rows == [] then c else RowCalls(RowsCalls(c, rows[..|rows| - 1]), rows[|rows| - 1])
  }

  lemma RowsCallsNext(c: Calls, rows: seq<Row>, row: Row)
    ensures RowsCalls(c, rows + [row]) == RowCalls(RowsCalls(c, rows), row)
  {
    assert (rows + [row])[..|rows|] == rows;
  }

  /** Writing two runs of rows is writing their concatenation. */
  lemma {:induction false} RowsCallsAppend(c: Calls, rows: seq<Row>, more: seq<Row>)
    ensures RowsCalls(c, rows + more) == RowsCalls(RowsCalls(c, rows), more)
    decreases |more|
  {
    if more != [] {
      var front := more[..|more| - 1];
      var last := more[|more| - 1];
      assert rows + more == (rows + front) + [last];
      assert more == front + [last];
      RowsCallsNext(c, rows + front, last);
      RowsCallsAppend(c, rows, front);
      RowsCallsNext(RowsCalls(c, rows), front, last);
    } else {
      assert rows + more == rows;
    }
  }

  /** One line of the totals block: a right-aligned caption and an amount. */
  function TotalLine(c: Calls, caption: Text, amount: real): Calls
  {
    c.Then(CellOp(150, 10, caption, false, false, Right))
     .Then(CellOp(40, 10, Money(amount), false, false, Center))
  }

  /** The calls `_add_totals` makes after computing the totals. */
  function TotalsCalls(c: Calls, t: Totals): Calls
  {
    var subtotal := TotalLine(c.Then(Ln(5)).Then(SetFont(Arial, Bold, 12)), SubtotalLabel, t.subtotal);
    var tax := TotalLine(subtotal.Then(Ln(10)), TaxLabel, t.tax);
    TotalLine(tax.Then(Ln(10)), TotalLabel, t.total)
  }

  /** Every call `generate_invoice` makes on a new document, in order. */
  function InvoiceCalls(inv: Invoice): Calls
  {
    var first := Start.Then(AddPage);
    var business := BusinessCalls(first, inv.businessName, inv.businessAddress);
    var customer := CustomerCalls(business, inv.customerName, inv.customerAddress);
    TotalsCalls(RowsCalls(HeaderCalls(customer), inv.rows), inv.totals)
  }

  function Layout(inv: Invoice): PageState
  {
    Replay(InvoiceCalls(inv))
  }

  /** The document `generate_invoice(data)` produces, or the exception it
      raises; on an exception no document is returned. */
  function Render(data: Value): (r: Result<Document>)
    ensures r.Ok? <==> ReadInvoice(data).Ok?
    ensures r.Err? ==> r.error == ReadInvoice(data).error
  {
    var inv :- ReadInvoice(data);
    var s := Layout(inv);
    Ok(Document(s.page, s.cells))
  }

  /** The six request keys `generate_invoice` reads. */
  predicate ReadsPresent(m: map<string, Value>)
  {
    && "business_name" in m && "business_address" in m
    && "customer_name" in m && "customer_address" in m
    && "items" in m && "tax_rate" in m
  }

  /** What rendering accepts: a dict holding the six keys whose items can
      all be shown and whose tax rate is a number. The business and
      customer values may be anything, and so may any further keys. */
  lemma RenderAccepts(data: Value)
    ensures Render(data).Ok? <==>
              data.Dict? && ReadsPresent(data.fields)
              && TableRows(data.fields["items"]).Ok? && IsNumber(data.fields["tax_rate"])
  {
    if data.Dict? && ReadsPresent(data.fields) && TableRows(data.fields["items"]).Ok?
       && IsNumber(data.fields["tax_rate"]) {
      TotalsOfTable(data.fields["items"], data.fields["tax_rate"]);
    }
  }

  /** The table loop's step: one more item is one more row, or its error. */
  lemma ParseItemsNext(items: seq<Value>, i: nat)
    requires i < |items| && ParseItems(items[..i]).Ok?
    ensures ParseItems(items[..i + 1])
            == if ParseItem(items[i]).Ok? then Ok(ParseItems(items[..i]).value + [ParseItem(items[i]).value])
               else Err(ParseItem(items[i]).error)
  {
    assert items[..i + 1][..i] == items[..i];
  }

  /** Once an item fails, the items after it are not looked at: the whole
      table fails with that item's error. */
  lemma {:induction false} ParseItemsFailsAtPrefix(items: seq<Value>, n: nat)
    requires n <= |items| && ParseItems(items[..n]).Err?
    ensures ParseItems(items) == ParseItems(items[..n])
    decreases |items|
  {
    if n < |items| {
      var front := items[..|items| - 1];
      assert front[..n] == items[..n];
      ParseItemsFailsAtPrefix(front, n);
    } else {
      assert items[..n] == items;
    }
  }

  /** A table is shown exactly when every item can be shown, and then it
      has one row per item, in item order. */
  lemma {:induction false} ParseItemsRows(items: seq<Value>)
    ensures ParseItems(items).Ok? <==> forall i :: 0 <= i < |items| ==> ParseItem(items[i]).Ok?
    ensures ParseItems(items).Ok? ==>
              |ParseItems(items).value| == |items|
              && forall i :: 0 <= i < |items| ==> ParseItems(items).value[i] == ParseItem(items[i]).value
    decreases |items|
  {
    if items != [] {
      var front := items[..|items| - 1];
      ParseItemsRows(front);
      assert forall i :: 0 <= i < |front| ==> front[i] == items[i];
    }
  }

  /** The table's error is the error of the first item that cannot be shown. */
  lemma FirstBadItem(items: seq<Value>, k: nat)
    requires k < |items| && ParseItem(items[k]).Err?
    requires forall i :: 0 <= i < k ==> ParseItem(items[i]).Ok?
    ensures ParseItems(items) == Err(ParseItem(items[k]).error)
  {
    ParseItemsRows(items[..k]);
    ParseItemsNext(items, k);
    ParseItemsFailsAtPrefix(items, k + 1);
  }

  /** The sum of the line totals of some rows, left to right. */
  function SumRows(rows: seq<Row>): real
  {
    if rows == [] then 0.0 else SumRows(rows[..|rows| - 1]) + rows[|rows| - 1].lineTotal
  }

  /** The subtotal `calculate_totals` computes is the sum of the line totals
      the table shows. */
  lemma {:induction false} SubtotalOfRows(items: seq<Value>)
    requires ParseItems(items).Ok?
    ensures SumLineTotals(items) == Ok(SumRows(ParseItems(items).value))
    decreases |items|
  {
    if items != [] {
      var front := items[..|items| - 1];
      SubtotalOfRows(front);
      var rows := ParseItems(items).value;
      assert rows[..|rows| - 1] == ParseItems(front).value;
    }
  }

  /** Whenever the table can be shown and the tax rate is a number, the
      totals are defined: the subtotal is the sum of the line totals the
      table shows, and the tax and total follow from it and the rate, with
      no rounding on the way. */
  lemma TotalsOfTable(items: Value, taxRate: Value)
    requires TableRows(items).Ok? && IsNumber(taxRate)
    ensures CalculateTotals(items, taxRate) == Ok(Taxed(SumRows(TableRows(items).value), ToReal(taxRate)))
  {
    var xs := Iterate(items).value;
    assert TableRows(items) == ParseItems(xs);
    SubtotalOfRows(xs);
  }

  /** No items: every total is zero, whatever the rate. */
  lemma EmptyTotals(taxRate: Value)
    requires IsNumber(taxRate)
    ensures CalculateTotals(List([]), taxRate) == Ok(Totals(0.0, 0.0, 0.0))
  {
  }

  /** `_add_business_info(pdf, business_name, business_address)` */
  method AddBusinessInfo(doc: Doc, name: Value, address: Value)
    requires doc.Valid()
    modifies doc
    ensures doc.Valid() && doc.calls == BusinessCalls(old(doc.calls), name, address)
  {
    doc.SetFont(Arial, Bold, 16);
    doc.WriteCell(0, 10, Shown(name), false, true, Left);
    doc.SetFont(Arial, Regular, 12);
    doc.WriteCell(0, 10, Shown(address), false, true, Left);
    doc.Ln(10);
  }

  /** `_add_customer_info(pdf, customer_name, customer_address)` */
  method AddCustomerInfo(doc: Doc, name: Value, address: Value)
    requires doc.Valid()
    modifies doc
    ensures doc.Valid() && doc.calls == CustomerCalls(old(doc.calls), name, address)
  {
    doc.SetFont(Arial, Bold, 14);
    doc.WriteCell(0, 10, InvoiceTo, false, true, Left);
    doc.SetFont(Arial, Regular, 12);
    doc.WriteCell(0, 10, Shown(name), false, true, Left);
    doc.WriteCell(0, 10, Shown(address), false, true, Left);
    doc.Ln(10);
  }

  /** The writes of `_add_items_table` before its loop: the bold column
      titles, then the regular font for the rows. */
  method AddTableHeader(doc: Doc)
    requires doc.Valid()
    modifies doc
    ensures doc.Valid() && doc.calls == HeaderCalls(old(doc.calls))
  {
    doc.SetFont(Arial, Bold, 12);
    doc.WriteCell(80, 10, DescriptionTitle, true, false, Left);
    doc.WriteCell(30, 10, QuantityTitle, true, false, Center);
    doc.WriteCell(40, 10, UnitPriceTitle, true, false, Center);
    doc.WriteCell(40, 10, TotalTitle, true, false, Center);
    doc.Ln(10);
    doc.SetFont(Arial, Regular, 12);
  }

  /** The writes of one iteration of the table loop. */
  method AddRow(doc: Doc, r: Row)
    requires doc.Valid()
    modifies doc
    ensures doc.Valid() && doc.calls == RowCalls(old(doc.calls), r)
  {
    doc.WriteCell(80, 10, Shown(r.description), true, false, Left);
    doc.WriteCell(30, 10, Shown(r.quantity), true, false, Center);
    doc.WriteCell(40, 10, Money(r.unitPrice), true, false, Center);
    doc.WriteCell(40, 10, Money(r.lineTotal), true, false, Center);
    doc.Ln(10);
  }

  /** `_add_items_table(pdf, items, tax_rate)`: the header, then one row per
      item in order; it raises at the first item that cannot be shown,
      leaving the rows before it written. */
  method AddItemsTable(doc: Doc, items: Value, taxRate: Value) returns (o: Outcome)
    requires doc.Valid()
    modifies doc
    ensures doc.Valid()
    ensures TableRows(items).Ok? ==>
              o == Pass && doc.calls == RowsCalls(HeaderCalls(old(doc.calls)), TableRows(items).value)
    ensures TableRows(items).Err? ==>
              o == Fail(TableRows(items).error)
  {
    AddTableHeader(doc);
    var elements := Iterate(items);
    if elements.Err? {
      return Fail(elements.error);
    }
    o := AddRows(doc, elements.value);
  }

  /** The loop of `_add_items_table`: `for item in items`, one row each. */
  method AddRows(doc: Doc, xs: seq<Value>) returns (o: Outcome)
    requires doc.Valid()
    modifies doc
    ensures doc.Valid()
    ensures ParseItems(xs).Ok? ==> o == Pass && doc.calls == RowsCalls(old(doc.calls), ParseItems(xs).value)
    ensures ParseItems(xs).Err? ==> o == Fail(ParseItems(xs).error)
  {
    ghost var start := doc.calls;
    ghost var rows: seq<Row> := [];
    var i := 0;
    while i < |xs|
      invariant 0 <= i <= |xs|
      invariant doc.Valid()
      invariant ParseItems(xs[..i]) == Ok(rows)
      invariant doc.calls == RowsCalls(start, rows)
    {
      var row := ParseItem(xs[i]);
      ParseItemsNext(xs, i);
      if row.Err? {
        ParseItemsFailsAtPrefix(xs, i + 1);
        return Fail(row.error);
      }
      var r := row.value;
      AddRow(doc, r);
      RowsCallsNext(start, rows, r);
      rows := rows + [r];
      i := i + 1;
    }
    assert xs[..i] == xs;
    return Pass;
  }

  /** `_add_totals(pdf, items, tax_rate)`: the totals are computed first, so
      a failure there writes nothing. */
  method AddTotals(doc: Doc, items: Value, taxRate: Value) returns (o: Outcome)
    requires doc.Valid()
    modifies doc
    ensures doc.Valid()
    ensures CalculateTotals(items, taxRate).Ok? ==>
              o == Pass && doc.calls == TotalsCalls(old(doc.calls), CalculateTotals(items, taxRate).value)
    ensures CalculateTotals(items, taxRate).Err? ==>
              o == Fail(CalculateTotals(items, taxRate).error) && doc.calls == old(doc.calls)
  {
    var totals := CalculateTotals(items, taxRate);
    if totals.Err? {
      return Fail(totals.error);
    }
    var t := totals.value;
    doc.Ln(5);
    doc.SetFont(Arial, Bold, 12);
    doc.WriteCell(150, 10, SubtotalLabel, false, false, Right);
    doc.WriteCell(40, 10, Money(t.subtotal), false, false, Center);
    doc.Ln(10);
    doc.WriteCell(150, 10, TaxLabel, false, false, Right);
    doc.WriteCell(40, 10, Money(t.tax), false, false, Center);
    doc.Ln(10);
    doc.WriteCell(150, 10, TotalLabel, false, false, Right);
    doc.WriteCell(40, 10, Money(t.total), false, false, Center);
    return Pass;
  }

  /** `generate_invoice(data)`: one page, the four sections in order, and the
      finished document; any exception is re-raised and no document is
      returned. */
  method GenerateInvoice(data: Value) returns (r: Result<Document>)
    ensures r == Render(data)
  {
    var doc := new Doc();
    doc.AddPage();
    var businessName :- Subscript(data, "business_name");
    var businessAddress :- Subscript(data, "business_address");
    AddBusinessInfo(doc, businessName, businessAddress);
    var customerName :- Subscript(data, "customer_name");
    var customerAddress :- Subscript(data, "customer_address");
    AddCustomerInfo(doc, customerName, customerAddress);
    var items :- Subscript(data, "items");
    var taxRate :- Subscript(data, "tax_rate");
    var table := AddItemsTable(doc, items, taxRate);
    if table.Fail? {
      return Err(table.error);
    }
    var totals := AddTotals(doc, items, taxRate);
    if totals.Fail? {
      return Err(totals.error);
    }
    return Ok(Document(doc.page, doc.cells));
  }
}
