/** create_invoice.py: a stand-alone JSON endpoint in front of a copy of the
    invoice engine. Its `calculate_totals`, `generate_invoice` and section
    writers make the same reads and the same FPDF calls as
    invoice_generator.py's (the copy lacks only the `try`/`except` that
    prints and re-raises, which changes no outcome), so they are modelled by
    the same members of `InvoiceGenerator`. This module adds the endpoint:
    an empty body is refused before anything is rendered, every exception
    becomes a 500, and nothing is validated first. */
module CreateInvoice {
  import opened PyValues
  import opened Pdf
  import opened InvoiceGenerator
  import Utils
  import Money
  import InvoiceLayout
  import Decimal

  /** What the endpoint sends back. */
  datatype Response =
    | JsonError(status: nat, message: string)            // `jsonify({"error": message}), status`
    | RaisedError(status: nat, raised: Error)            // `jsonify({"error": str(e)}), status`
    | Attachment(doc: Document, mimetype: string, downloadName: string)

  const NoData: string := "No data provided"

  /** The response to a POST whose JSON body decodes to `data`. */
  function Respond(data: Value): (r: Response)
    ensures r.JsonError? <==> !Truthy(data)
    ensures r.Attachment? <==> Truthy(data) && Render(data).Ok?
    ensures r.RaisedError? ==> r.status == 500 && Render(data).Err?
  {
    if !Truthy(data) then JsonError(400, NoData)
    else
      match Render(data)
      case Err(e) => RaisedError(500, e)
      case Ok(doc) => Attachment(doc, "application/pdf", "invoice.pdf")
  }

  /** `generate_invoice_endpoint()`, given the decoded body. */
  method GenerateInvoiceEndpoint(data: Value) returns (resp: Response)
    ensures resp == Respond(data)
  {
    if !Truthy(data) {
      return JsonError(400, NoData);
    }
    var pdf := GenerateInvoice(data);
    if pdf.Err? {
      return RaisedError(500, pdf.error);
    }
    return Attachment(pdf.value, "application/pdf", "invoice.pdf");
  }

  /** The 400 is sent exactly for a falsy body; for any other body the
      outcome is the rendering's: its document, or its exception as a 500. */
  lemma RespondOutcomes(data: Value)
    ensures Respond(data) == JsonError(400, NoData) <==> !Truthy(data)
    ensures Respond(data).JsonError? ==> Respond(data).status == 400
    ensures Truthy(data) ==> (Respond(data).Attachment? <==> Render(data).Ok?)
    ensures Truthy(data) && Render(data).Ok? ==>
              Respond(data) == Attachment(Render(data).value, "application/pdf", "invoice.pdf")
    ensures Truthy(data) && Render(data).Err? ==> Respond(data) == RaisedError(500, Render(data).error)
  {
  }

  /** `json={}` is refused with 400 "No data provided". */
  lemma EmptyBodyRefused()
    ensures Respond(Dict(map[])) == JsonError(400, NoData)
  {
  }

  /** `generate_invoice` reads the six fields in the validator's order, so a
      dict request missing some of them raises a KeyError naming the first
      one missing, just as validation would report it. */
  lemma RenderFirstMissing(m: map<string, Value>, k: nat)
    requires k < |Utils.RequiredFields| && Utils.RequiredFields[k] !in m
    requires forall i :: 0 <= i < k ==> Utils.RequiredFields[i] in m
    ensures Render(Dict(m)) == Err(KeyError(Utils.RequiredFields[k]))
    ensures Utils.Validate(Dict(m)) == Fail(ValueError(Utils.MissingField(Utils.RequiredFields[k])))
  {
    Utils.FirstMissingField(m, k);
    var f := Utils.RequiredFields;
    assert f[0] == "business_name" && f[1] == "business_address" && f[2] == "customer_name";
    assert f[3] == "customer_address" && f[4] == "items" && f[5] == "tax_rate";
  }

  /** The six keys the validator requires are the six `generate_invoice` reads. */
  lemma RequiredKeys(m: map<string, Value>)
    ensures Utils.HasRequired(m) <==> ReadsPresent(m)
  {
    var f := Utils.RequiredFields;
    assert f[0] == "business_name" && f[1] == "business_address" && f[2] == "customer_name";
    assert f[3] == "customer_address" && f[4] == "items" && f[5] == "tax_rate";
  }

  /** The endpoint does not validate: a request with an empty item list,
      which validation refuses, is rendered and sent. */
  lemma EmptyItemsRendered(m: map<string, Value>)
    requires Utils.HasRequired(m) && m["items"] == List([]) && IsNumber(m["tax_rate"])
    ensures Utils.Validate(Dict(m)) == Fail(ValueError(Utils.ItemsMessage))
    ensures Respond(Dict(m)).Attachment?
  {
    Utils.ItemsNotNonEmptyList(m);
    RequiredKeys(m);
    RenderAccepts(Dict(m));
  }

  /** Validation does not make rendering safe: a request that passes it but
      has a string tax rate gets a 500. */
  lemma ValidatedStillFails(m: map<string, Value>, rate: string)
    requires Utils.Validate(Dict(m)) == Pass
    ensures Utils.Validate(Dict(m["tax_rate" := Str(rate)])) == Pass
    ensures Respond(Dict(m["tax_rate" := Str(rate)])).RaisedError?
  {
    Utils.OnlyPresenceChecked(m, "tax_rate", Str(rate));
    var m' := m["tax_rate" := Str(rate)];
    Utils.ValidateAccepts(Dict(m'));
    RequiredKeys(m');
    RenderAccepts(Dict(m'));
  }

  /** The request the API test posts. */
  const FirstItem: Value :=
    Dict(map["description" := Str("Item 1"), "quantity" := Int(2), "unit_price" := Float(10.0)])
  const SecondItem: Value :=
    Dict(map["description" := Str("Item 2"), "quantity" := Int(1), "unit_price" := Float(20.0)])
  const TestRequest: Value := Dict(map[
    "business_name" := Str("Test Business"),
    "business_address" := Str("123 Test St"),
    "customer_name" := Str("John Doe"),
    "customer_address" := Str("456 Customer Rd"),
    "items" := List([FirstItem, SecondItem]),
    "tax_rate" := Float(0.1)])

  const TestRows: seq<Row> := [Row(Str("Item 1"), Int(2), 10.0, 20.0), Row(Str("Item 2"), Int(1), 20.0, 20.0)]

  /** The test request's table: two rows whose totals are 2 x 10 and 1 x 20. */
  lemma TestTable()
    ensures TableRows(List([FirstItem, SecondItem])) == Ok(TestRows)
  {
    var items := [FirstItem, SecondItem];
    assert ParseItem(FirstItem) == Ok(TestRows[0]);
    assert ParseItem(SecondItem) == Ok(TestRows[1]);
    ParseItemsRows(items);
    assert ParseItems(items).value == TestRows;
  }

  /** The test request's totals: 40, 4 and 44. */
  lemma TestTotals()
    ensures CalculateTotals(List([FirstItem, SecondItem]), Float(0.1)) == Ok(Totals(40.0, 4.0, 44.0))
  {
    TestTable();
    TotalsOfTable(List([FirstItem, SecondItem]), Float(0.1));
    assert TestRows[..1][..0] == [];
    assert SumRows(TestRows) == 40.0;
  }

  /** In exact arithmetic the test request has two rows whose totals are
      20 each and totals 40, 4 and 44. */
  lemma TestRequestInvoice()
    ensures ReadInvoice(TestRequest) == Ok(Invoice(
              Str("Test Business"), Str("123 Test St"), Str("John Doe"), Str("456 Customer Rd"),
              TestRows, Totals(40.0, 4.0, 44.0)))
  {
    TestTable();
    TestTotals();
    var m := TestRequest.fields;
    assert m["business_name"] == Str("Test Business") && m["business_address"] == Str("123 Test St");
    assert m["customer_name"] == Str("John Doe") && m["customer_address"] == Str("456 Customer Rd");
    assert m["items"] == List([FirstItem, SecondItem]) && m["tax_rate"] == Float(0.1);
  }

  /** The test rows' quantity cells print "2" and "1". */
  lemma TestQuantitiesShown()
    ensures InvoiceLayout.TextOf(InvoiceLayout.RowBoxes(TestRows[0])[1].text) == Some("2")
    ensures InvoiceLayout.TextOf(InvoiceLayout.RowBoxes(TestRows[1])[1].text) == Some("1")
  {
    assert Decimal.NatToString(2) == "2" && Decimal.NatToString(1) == "1";
  }

  /** The test rows' money cells print "$10.00" and "$20.00": the first
      row's price and total, the second row's price and total. */
  lemma TestAmountsShown()
    ensures InvoiceLayout.TextOf(InvoiceLayout.RowBoxes(TestRows[0])[2].text) == Some("$10.00")
    ensures InvoiceLayout.TextOf(InvoiceLayout.RowBoxes(TestRows[0])[3].text) == Some("$20.00")
    ensures InvoiceLayout.TextOf(InvoiceLayout.RowBoxes(TestRows[1])[2].text) == Some("$20.00")
    ensures InvoiceLayout.TextOf(InvoiceLayout.RowBoxes(TestRows[1])[3].text) == Some("$20.00")
  {
    Money.TwentyDollars();
    Money.TenDollars();
  }

  /** The test request is answered with the PDF. */
  lemma TestRequestSent()
    ensures Respond(TestRequest).Attachment?
  {
    TestRequestInvoice();
    assert Render(TestRequest).Ok?;
  }
}
