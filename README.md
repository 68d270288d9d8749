# Invoice generator: a Dafny model

A small Flask application turns invoice requests into PDF documents.
A request is a dictionary with six keys: business name and address, customer
name and address, a list of items (description, quantity, unit price) and a
tax rate. Three pieces of the application are modelled here.

- **The validator** `validate_invoice_data` (utils.py) checks, in a fixed
  order, that the six keys are present. It then checks that `items` is a
  non-empty list and that every item holds the three item keys. It raises a
  `ValueError` at the first failure.
- **The invoice engine** (invoice_generator.py) has two parts.
  - `calculate_totals` sums `quantity * unit_price` and adds the tax.
  - `generate_invoice` opens one page and runs four section writers, each a
    fixed sequence of FPDF `set_font`, `cell` and `ln` calls: business
    block, customer block, item table, totals. create_invoice.py holds a
    copy of the engine behind a JSON endpoint. That endpoint refuses an
    empty body with a 400 and turns any other exception into a 500.
- **The form route** `invoice_form` (routes.py) handles a POST. It scans the
  posted fields for keys that start with `item` and contain `_desc`, and
  builds one item per such key. It assembles the six-key request, validates
  it and renders it. Every exception is answered with a 400.

## How the model is built

| module | what it holds |
|---|---|
| `PyValues` | Python values (`Value`), exceptions (`Error`), `Result`, `Outcome`, and `d[k]`, `in` and iteration with Python's error behaviour. |
| `Decimal` | Digit strings, `str(int)`, and the `int()` / `float()` parsing of form fields. |
| `Money` | `f"${amount:.2f}"`, with cents rounded half to even. |
| `Pdf` | An FPDF document as a `Doc` class whose methods record each call. Pure views: `Replay` (pages and cells), `FlowReplay` (horizontal: x, font, cell boxes) and `ColumnReplay` (vertical: page, y, cell positions). |
| `InvoiceGenerator` | Totals, reading the request, the calls each section writer makes, the section writers as methods on `Doc`, and `GenerateInvoice`. |
| `InvoiceLayout` | Where every cell lands: the boxes of each section, the vertical advance of each section, the one-page layout and the page break. |
| `Utils` | The validator and its acceptance theorem. |
| `CreateInvoice` | The JSON endpoint and how it relates to the validator. |
| `Routes` | The form scan (a `while` loop proved against a recursive specification), the request assembly and the reply. |

Modelling choices:

- **Numbers are exact reals.** Money is rounded to cents only when it is
  shown. Python's floats are not modelled.
- **Each section writer is a method on a `Doc`.** Its `ensures` fixes the
  calls it adds to the document. Where the cells land is a pure function of
  those calls.
- **Page geometry is a modelling choice.** The source has no pagination
  code; these numbers are FPDF's defaults.
  - The page is A4, 210 x 297 mm, with 10 mm margins.
  - The automatic page break fires when a cell would pass 297 - 20 =
    277 mm. The cell then moves to the top of a new page and keeps its x.
  - A cell of width 0 reaches the right margin.
- **The database is a parameter.** The business table is a map from the
  posted `business_id` string to a `Business` record. A missing entry
  stands for `Business.query.get` returning `None`.
- **The form is a sequence of pairs.** It is `request.form.items()`: each
  key once, with its first value, in posted order.
- **Exceptions are values.** Each raised exception is an `Error` value
  (`KeyError(key)`, `TypeError`, `ValueError(message)`,
  `AttributeError(name)`), carried through `Result`.

## Model

| member | source | states |
|---|---|---|
| PyValues.Subscript | invoice_generator.py:14-16 | `data[key]` succeeds exactly on a dict holding the key and returns its value; a missing key raises `KeyError(key)`, a non-dict a TypeError |
| PyValues.In | utils.py:6 | `key in data` on a dict is key membership; it raises, and only a TypeError, exactly when the container is not a dict, list or string |
| PyValues.ContainsOccurs | routes.py:56 | `part in s` on strings holds exactly when `part` occurs in `s` at some position |
| PyValues.Iterate | invoice_generator.py:52 | iterating a list yields its elements in order; any value other than a list or a string yields nothing or raises |
| Utils.HasRequired | utils.py:4 | holding every required key implies holding `items` and `tax_rate` |
| Utils.CheckFields | utils.py:5-7 | the presence loop passes exactly when every listed key tests `in` the request; it fails only with a ValueError or a TypeError |
| Utils.AllKeysIn | utils.py:11 | `all(key in item ...)` raises only a TypeError |
| Utils.CheckItems | utils.py:10-12 | the item loop fails only with the generic item message or a TypeError |
| Utils.Validate | utils.py:3-12 | a request that passes is a dict with the six keys whose `items` is a non-empty list; a failure is a ValueError or the TypeError of `in` or `[]` |
| Utils.AllKeysInEach | utils.py:11 | `all(key in item ...)` is true exactly when every key is in the item, and raises exactly when the item cannot be searched |
| Utils.AllKeysInComplete | utils.py:10-11 | the per-item test is true exactly for a complete item, and raises only for an item that is not a dict, list or string |
| Utils.CheckItemsPass | utils.py:10-12 | the item loop passes exactly when every item is complete |
| Utils.ValidateAccepts | utils.py:3-12 | validation passes exactly when the request is a dict with the six keys, `items` is a non-empty list, and every item is complete |
| Utils.FieldsFailAt | utils.py:5-7 | the presence loop fails with the message naming the first missing key |
| Utils.FirstMissingField | utils.py:4-7 | the error names the first missing required key in the fixed order, whatever else is wrong |
| Utils.MissingTaxRateBeforeItems | utils.py:5-9 | a request without `tax_rate` and with an empty item list is reported as missing `tax_rate` |
| Utils.FieldsPass | utils.py:4-7 | a dict with the six keys passes the presence loop |
| Utils.ItemsNotNonEmptyList | utils.py:8-9 | a non-list `items` and an empty list get the same message |
| Utils.DictItemsFail | utils.py:10-12 | among dict items, any incomplete one makes the item loop fail with the generic message |
| Utils.IncompleteItem | utils.py:10-12 | any incomplete dict item makes validation fail with the generic message, which names no item or key |
| Utils.OnlyPresenceChecked | utils.py:3-12 | in an accepted request, replacing or adding any key other than `items` keeps it accepted: value types are not checked |
| InvoiceGenerator.LineTotal | invoice_generator.py:5 | an item's term is defined exactly when the item is a dict with numeric quantity and unit price, and then it is their product; a missing quantity raises `KeyError('quantity')` |
| InvoiceGenerator.Taxed | invoice_generator.py:6-8 | the subtotal is kept, and total minus subtotal is the tax |
| InvoiceGenerator.SumLineTotalsOk | invoice_generator.py:5 | `sum(...)` is defined exactly when every item's term is, and is then the left-to-right sum of the terms |
| InvoiceGenerator.CalculateTotals | invoice_generator.py:4-8 | totals are computed exactly when the items can be iterated, every item's term is defined and the tax rate is a number; they are then the sum of the terms, that sum times the rate, and the two added; items that cannot be iterated raise iteration's error; descriptions are not read |
| InvoiceGenerator.SubtotalOfRows | invoice_generator.py:5 | the subtotal is the sum, in list order, of the line totals of the table rows |
| InvoiceGenerator.TotalsOfTable | invoice_generator.py:4-8 | for a readable table and a numeric rate, the totals are the row sum, that sum times the rate, and their sum |
| InvoiceGenerator.EmptyTotals | invoice_generator.py:4-8 | an empty item list gives subtotal, tax and total 0 |
| InvoiceGenerator.ParseItem | invoice_generator.py:53-56 | a row is read exactly from a dict with a description and a computable line total; it keeps the description and quantity, the unit price and the product; a missing description raises `KeyError('description')` first |
| InvoiceGenerator.ParseItemsNext | invoice_generator.py:52-56 | reading one more item appends its row, or fails with that item's error |
| InvoiceGenerator.ParseItemsFailsAtPrefix | invoice_generator.py:52-56 | once a prefix of the items fails, the whole list fails with the same error |
| InvoiceGenerator.ParseItemsRows | invoice_generator.py:52-56 | the table is read exactly when every item is readable, and then row i is item i's row, one per item, in input order |
| InvoiceGenerator.FirstBadItem | invoice_generator.py:52-56 | the table fails with the error of the first unreadable item |
| InvoiceGenerator.RowsCallsNext | invoice_generator.py:52-62 | one more row appends exactly that row's calls |
| InvoiceGenerator.RowsCallsAppend | invoice_generator.py:52-62 | the calls for two runs of rows are the calls for the first run followed by those for the second |
| InvoiceGenerator.ReadInvoice | invoice_generator.py:14-17 | reading succeeds only for a dict with the six keys and a numeric tax rate; the invoice carries the four text fields as given, one row per item read by `ParseItem`, and totals from the rows' sum; a non-dict raises TypeError and a missing `business_name` raises its KeyError |
| InvoiceGenerator.Render | invoice_generator.py:10-26 | a document is produced exactly when the request can be read; laying it out never raises, so a failure is the reading's exception |
| InvoiceGenerator.RenderAccepts | invoice_generator.py:10-26 | a document is produced exactly when the request is a dict with the six keys read, a readable item table and a numeric tax rate |
| InvoiceGenerator.AddBusinessInfo | invoice_generator.py:28-33 | the document gains exactly the business block's calls |
| InvoiceGenerator.AddCustomerInfo | invoice_generator.py:35-41 | the document gains exactly the customer block's calls |
| InvoiceGenerator.AddTableHeader | invoice_generator.py:44-51 | the document gains the bold header row of four bordered cells, the 10 mm line feed and the switch to regular type |
| InvoiceGenerator.AddRow | invoice_generator.py:53-62 | the document gains one row's four bordered cells and a 10 mm line feed |
| InvoiceGenerator.AddRows | invoice_generator.py:52-62 | the loop writes one row per item in input order, or stops with the first unreadable item's error |
| InvoiceGenerator.AddItemsTable | invoice_generator.py:43-62 | a readable table gives the header then one row per item; otherwise the error of the first unreadable item |
| InvoiceGenerator.AddTotals | invoice_generator.py:64-76 | with totals computed from the same items and rate, the document gains the three totals lines; if they cannot be computed nothing is written and the error is raised |
| InvoiceGenerator.GenerateInvoice | invoice_generator.py:10-26 | running the four writers on a new one-page document yields the rendered document, or the first exception unchanged and no document |
| InvoiceLayout.TextOf | invoice_generator.py:59-62 | a label prints as written; `str(quantity)` of an int reads back with `int()` as that int; a money cell reads back as the amount's rounded signed cents |
| InvoiceLayout.RowsBoxes | invoice_generator.py:52-62 | the table body has four boxes per row |
| InvoiceLayout.InvoiceBoxes | invoice_generator.py:10-76 | an invoice has 15 fixed boxes plus four per item |
| InvoiceLayout.BusinessFlow | invoice_generator.py:28-33 | the business block is a bold-16 full-width name line and a regular-12 full-width address line, ending at the left margin in regular 12 |
| InvoiceLayout.CustomerFlow | invoice_generator.py:35-41 | the customer block is a bold-14 "Invoice To:" line, then regular-12 name and address lines |
| InvoiceLayout.TableLineFlow | invoice_generator.py:45-48 | four bordered cells of widths 80/30/40/40 sit at x = 10, 90, 120, 160, left, centred, centred, centred |
| InvoiceLayout.HeaderFlow | invoice_generator.py:44-51 | the header row shows Description, Quantity, Unit Price and Total in bold 12, and the table body is written in regular 12 |
| InvoiceLayout.RowFlow | invoice_generator.py:58-62 | a row shows the description, the quantity, the unit price and quantity times unit price as money, in the header's columns |
| InvoiceLayout.RowsFlow | invoice_generator.py:52-62 | the rows' boxes are one row's boxes per item, in input order |
| InvoiceLayout.TotalLineFlow | invoice_generator.py:69-70 | a totals line is a right-aligned 150 mm caption and a centred 40 mm amount |
| InvoiceLayout.TotalsFlow | invoice_generator.py:64-76 | the totals block shows Subtotal, Tax and Total with the computed amounts |
| InvoiceLayout.LayoutBoxes | invoice_generator.py:10-17 | the document's boxes are the business, customer, header, row and totals boxes in that order |
| InvoiceLayout.RowsBoxesAt | invoice_generator.py:52-62 | box 4k+j of the table body is cell j of row k |
| InvoiceLayout.RowsSpotsAt | invoice_generator.py:52-62 | rows that fit stack 10 mm apart: row k sits at y + 10k |
| InvoiceLayout.TwoLinesDown | invoice_generator.py:28-33 | two full-width lines and a 10 mm gap move the cursor down 30 mm |
| InvoiceLayout.ThreeLinesDown | invoice_generator.py:35-41 | three full-width lines and a 10 mm gap move the cursor down 40 mm |
| InvoiceLayout.BusinessColumn | invoice_generator.py:28-33 | the business block's lines sit at y and y + 10, and the cursor moves down 30 mm |
| InvoiceLayout.CustomerColumn | invoice_generator.py:35-41 | the customer block's lines sit at y, y + 10 and y + 20, and the cursor moves down 40 mm |
| InvoiceLayout.HeaderColumn | invoice_generator.py:44-49 | the header's four cells share one line, and the cursor moves down 10 mm |
| InvoiceLayout.RowColumn | invoice_generator.py:58-62 | a row's four cells land together, on a new page if the row does not fit, and the cursor moves 10 mm below them |
| InvoiceLayout.RowsColumn | invoice_generator.py:52-62 | rows that fit move the cursor down 10 mm per row |
| InvoiceLayout.RowsKeep | invoice_generator.py:52-62 | rows only add four cells each and never move back a page |
| InvoiceLayout.TotalLineColumn | invoice_generator.py:69-70 | both cells of a totals line land together |
| InvoiceLayout.GapLineColumn | invoice_generator.py:71-73 | a 10 mm gap and a totals line land 10 mm lower |
| InvoiceLayout.LineFits | invoice_generator.py:69-70 | a totals line that fits stays at the cursor |
| InvoiceLayout.GapLineFits | invoice_generator.py:71-73 | a gap and a totals line that fit stay on the page, 10 mm lower |
| InvoiceLayout.ThreeTotalLines | invoice_generator.py:69-76 | the three totals lines sit 10 mm apart |
| InvoiceLayout.TotalsColumn | invoice_generator.py:64-76 | totals that fit start 5 mm below the table, 10 mm apart, and end 25 mm lower |
| InvoiceLayout.TotalLineGrows | invoice_generator.py:69-70 | a totals line adds two cells and never moves back a page |
| InvoiceLayout.TotalsKeep | invoice_generator.py:64-76 | the totals block adds six cells and never moves back a page |
| InvoiceLayout.HeadColumn | invoice_generator.py:12-16 | on a new page the business block starts at 10 mm, the customer block at 40 mm and the table header at 80 mm |
| InvoiceLayout.OnePageSpots | invoice_generator.py:10-76 | a one-page invoice has a position for each of its 15 + 4n cells |
| InvoiceLayout.OnePageLayout | invoice_generator.py:10-76 | with at most 15 items the invoice is one page, every cell at its one-page position with its box |
| InvoiceLayout.OnePageSpot | invoice_generator.py:52-62 | on one page, item k's cells sit at 90 + 10k mm |
| InvoiceLayout.InvoiceRowBox | invoice_generator.py:52-62 | box 9 + 4k + j of the invoice is cell j of row k |
| InvoiceLayout.OnePageRow | invoice_generator.py:52-62 | on a one-page invoice, cell 9 + 4k + j is row k's cell j, on page 1 at 90 + 10k mm |
| InvoiceLayout.BreakColumn | invoice_generator.py:52-62 | with 19 or more items, the run keeps page 1 through row 17 and starts row 18 at the top of page 2 |
| InvoiceLayout.BreakSpot | invoice_generator.py:52-62 | rows 0 to 17 sit at 90 + 10k mm on page 1 and row 18 at 10 mm on page 2 |
| InvoiceLayout.PageBreak | invoice_generator.py:52-62 | with 19 or more items the document has at least two pages; row 18's cells open page 2 at its top margin, and earlier rows stay on page 1 |
| Pdf.Doc.constructor | invoice_generator.py:12 | a new document has recorded no calls |
| Pdf.Doc.AddPage | invoice_generator.py:13 | `add_page()` is recorded after the earlier calls |
| Pdf.Doc.SetFont | invoice_generator.py:29 | `set_font(...)` is recorded after the earlier calls |
| Pdf.Doc.WriteCell | invoice_generator.py:30 | `cell(...)` is recorded after the earlier calls |
| Pdf.Doc.Ln | invoice_generator.py:33 | `ln(h)` is recorded after the earlier calls |
| Pdf.Step | invoice_generator.py:30 | a call adds one cell exactly when it is a `cell` call, keeps the earlier cells and never moves back a page |
| Pdf.ReplayFlow | invoice_generator.py:28-76 | the horizontal view agrees with the document |
| Pdf.ReplayColumn | invoice_generator.py:28-76 | the vertical view agrees with the document |
| Pdf.CellsFromViews | invoice_generator.py:28-76 | every cell is its position from the vertical view with its box from the horizontal view |
| Pdf.LineDown | invoice_generator.py:30 | a full-width line that fits is written at the cursor, and the cursor moves down 10 mm |
| Pdf.FontKeeps | invoice_generator.py:29 | a font change moves nothing |
| Pdf.TwoAcross | invoice_generator.py:69-70 | two cells on one line land together where the line starts |
| Pdf.FourAcross | invoice_generator.py:45-48 | four cells on one line land together where the line starts |
| Money.TwoDigits | invoice_generator.py:60 | the cents are always two digits that read back as the cents |
| Money.FormatMoney | invoice_generator.py:60 | a money text is "$", the whole units, a point and two digits |
| Money.Cents | invoice_generator.py:60 | rounding to cents moves an amount by at most half a cent, and an exact half goes to the even cent |
| Money.ParseMoney | invoice_generator.py:60-61 | only a text of at least five characters starting with "$" and with a point before two final characters reads as an amount; a negative amount needs the "-" after the "$" |
| Money.CentsOfWholeCents | invoice_generator.py:60 | an amount that is a whole number of cents is shown exactly |
| Money.ParseMoneyParts | invoice_generator.py:60-61 | a money text reads back as the sign, units and cents it was built from |
| Money.ParseMoneyCents | invoice_generator.py:60-61 | a money text built from a cent count reads back as that count |
| Money.FormatMoneyRoundTrip | invoice_generator.py:60-61 | reading back a displayed amount gives its rounded signed cents: the text loses nothing |
| Money.DisplayWithinHalfCent | invoice_generator.py:60-61 | the displayed amount is within half a cent of the exact amount |
| Money.TenDollars | invoice_generator.py:60 | 10 is shown as "$10.00" |
| Money.TwentyDollars | invoice_generator.py:61 | 20 is shown as "$20.00" |
| CreateInvoice.Respond | create_invoice.py:78-87 | a 400 is sent exactly for a falsy body; the PDF is sent exactly for a truthy body that renders; a raised exception is a 500 and comes only from rendering |
| CreateInvoice.GenerateInvoiceEndpoint | create_invoice.py:78-87 | the endpoint's reply is `Respond`: 400 for a falsy body, otherwise the document as `invoice.pdf` or the exception as a 500 |
| CreateInvoice.RespondOutcomes | create_invoice.py:80-87 | a 400 "No data provided" is sent exactly for a falsy body; for any other body the attachment is sent exactly when rendering succeeds, and a rendering exception becomes a 500 |
| CreateInvoice.EmptyBodyRefused | test_app.py:26-29 | create_invoice.py's endpoint, given the empty-body test's `{}`, refuses it with 400 "No data provided" |
| CreateInvoice.RenderFirstMissing | create_invoice.py:12-18 | a request missing keys raises a KeyError naming the first missing key, the same key validation would report |
| CreateInvoice.RequiredKeys | create_invoice.py:15-18 | the six keys validation requires are the six keys rendering reads |
| CreateInvoice.EmptyItemsRendered | create_invoice.py:84 | the endpoint does not validate: an empty item list, which validation refuses, is rendered and sent |
| CreateInvoice.ValidatedStillFails | create_invoice.py:84-87 | a request that passes validation but has a string tax rate gets a 500 |
| CreateInvoice.TestTable | test_app.py:16-19 | create_invoice.py's engine reads the API test body's two items as rows with line totals 20 and 20 |
| CreateInvoice.TestTotals | test_app.py:16-20 | create_invoice.py's engine gives the API test body's items and 10% rate the totals 40, 4 and 44 |
| CreateInvoice.TestQuantitiesShown | test_app.py:17-18 | the API test body's rows print their quantities as "2" and "1" |
| CreateInvoice.TestAmountsShown | test_app.py:17-18 | the API test body's rows print their prices and totals as "$10.00", "$20.00", "$20.00" and "$20.00" |
| CreateInvoice.TestRequestInvoice | test_app.py:11-21 | create_invoice.py's engine reads the API test body as its four text fields, two rows and totals 40, 4, 44 |
| CreateInvoice.TestRequestSent | test_app.py:22-24 | create_invoice.py's endpoint answers the API test body with the PDF |
| Decimal.DigitChar | routes.py:60 | a digit character reads back as its digit |
| Decimal.NatToString | routes.py:60 | a numeral is non-empty digits with no leading zero |
| Decimal.ParseNatToString | routes.py:60 | reading back a numeral gives the number |
| Decimal.IntRoundTrip | routes.py:60 | `int()` reads back any integer's text as that integer |
| Decimal.ParseInt | routes.py:60 | `int()` reads a string of digits as their value and `-` followed by digits as its negation; it refuses the empty string and a leading '.' |
| Decimal.DotIndex | routes.py:61 | the index is that of the first '.', or the length when there is none |
| Decimal.Fraction | routes.py:61 | the digits after a point are worth at least 0 and less than 1 |
| Decimal.ParseFloat | routes.py:61 | `float()` reads a string of digits as their value; it refuses the empty string and a bare point |
| Decimal.Magnitude | routes.py:61 | an unsigned string of digits is read as their value; the empty string is refused |
| Decimal.MagnitudeOfDecimal | routes.py:61 | unsigned `w.d` is read as the digits `w` plus the fraction `d` |
| Decimal.FloatOfDecimal | routes.py:61 | `float()` reads `w.d`, for digits `w` (leading zeros allowed), as `w` plus the fraction `d`, also when `d` is empty |
| Decimal.ParseDigitsFront | routes.py:61 | a numeral's first digit is worth ten to the power of the number of digits after it |
| Decimal.FractionShifted | routes.py:61 | the fraction `d` with its point moved right by as many places as `d` has digits is `d` read as a whole number |
| Decimal.ShiftedIsScaling | routes.py:61 | moving the point `n` places right multiplies by `10^n`; with `FractionShifted`, the fraction `d` of `k` digits is `d / 10^k` |
| Decimal.FloatOfInteger | routes.py:61 | `float()` reads an integer's text as that integer |
| Decimal.FormQuantity | test_app.py:43 | the form test's quantity "2" is read by `int()` as 2 |
| Decimal.FormPrice | test_app.py:44 | the form test's price "10.0" is read by `float()` as 10 |
| Decimal.FormTaxRate | test_app.py:45 | the form test's tax rate "0.1" is read by `float()` as 0.1 |
| Routes.Lookup | routes.py:59-61 | a field is found exactly when some pair has that key, and the value found is posted under it |
| Routes.IntField | routes.py:60 | an absent field gives 0; a field of digits gives their value; a failure is a ValueError for a posted field `int()` cannot read |
| Routes.ToFloat | routes.py:73 | `float()` succeeds exactly on what it can read, and otherwise raises a ValueError |
| Routes.FloatField | routes.py:61 | an absent field gives 0.0; a readable field gives its value; a failure is a ValueError for a posted field `float()` cannot read |
| Routes.ItemKeyShape | routes.py:56 | a key is selected exactly when it starts with `item` and `_desc` occurs after those four characters; a selected key has at least nine characters |
| Routes.BeforeUnderscore | routes.py:57 | the result is the longest prefix without '_', followed by '_' or the end of the key |
| Routes.Matches | routes.py:55-56 | the selected keys are item keys, and every item key of the form is among them |
| Routes.CollectItems | routes.py:54-62 | the loop builds exactly the specified items list, or stops with the first exception |
| Routes.CollectedNext | routes.py:55-62 | one more field appends one item if its key is selected, leaves the list alone otherwise, and stops at the first exception |
| Routes.CollectedFailsAtPrefix | routes.py:55-62 | once a prefix of the form fails, the whole loop fails with the same exception |
| Routes.CollectedMatches | routes.py:55-62 | the loop succeeds exactly when every selected key's item can be built, and then item i is the one built for the i-th selected key |
| Routes.ItemIndexShape | routes.py:57 | for a key starting with `item`, the index is what follows `item` up to the first underscore or the end, and holds no underscore |
| Routes.ItemForReads | routes.py:58-62 | an item is built exactly when its description is posted and its quantity and price parse; a missing description raises its KeyError; the dict holds exactly the three item keys with the posted description, the parsed quantity and the parsed price |
| Routes.IndexOfKey | routes.py:57 | the index of `item<index>_<rest>` is `<index>` when the index has no underscore |
| Routes.SelectedKey | routes.py:56-57 | `item<index>_desc<rest>` is selected and yields `<index>` |
| Routes.DefaultAmounts | routes.py:59-61 | with no quantity or price fields, the item has quantity 0 and price 0.0 |
| Routes.TwoDescriptions | routes.py:56-61 | `item1_desc` and `item1_desc2` are both selected, both yield index 1, and the item read has the `item1_desc` description |
| Routes.DuplicateItem | routes.py:56-62 | a form holding `item<i>_desc` and `item<i>_desc<rest>` gets the same item twice |
| Routes.FormRequest | routes.py:54-74 | a gathering exception is raised before anything else is read; a request is assembled only when the items are gathered, the posted `business_id` names a stored business, the customer fields are posted and the tax rate parses, and it is then the six-key dict built from them |
| Routes.FormReply | routes.py:53-94 | the PDF is sent only for an assembled request that passes validation, and it is that request's rendering; an assembly exception is a 400 carrying it |
| Routes.Assembled | routes.py:67-74 | the assembled request holds the six required keys with the business's name and address, the customer fields, the items and the float tax rate |
| Routes.InvoiceForm | routes.py:53-94 | the reply is `FormReply`: assembly, then validation, then rendering, with the first exception as a 400 |
| Routes.ItemForShape | routes.py:58-62 | every collected item is a dict with a string description, an int quantity and a float price |
| Routes.FormRequestShape | routes.py:54-74 | the assembled request holds the six keys, one well-formed item per selected key and a float tax rate |
| Routes.CollectedShape | routes.py:54-62 | one well-formed item per selected key |
| Routes.FormValidation | routes.py:76 | validation of an assembled request passes exactly when some key was selected; with none, it fails with the empty-items message |
| Routes.CompleteFormItem | routes.py:58-62 | a collected item passes the per-item check |
| Routes.FormItemsShown | routes.py:78 | collected items always make a readable table |
| Routes.FormRenders | routes.py:78 | an assembled request always renders |
| Routes.FormOutcomes | routes.py:53-94 | the PDF is sent exactly when assembly succeeds and some key was selected; an assembly exception is a 400 carrying it; no selected key is a 400 with the empty-items message; the PDF sent is the rendering of the request |
| Routes.MissingBusiness | routes.py:64-68 | a form without `business_id` gets a 400 `KeyError('business_id')`; an unknown id gets a 400 `AttributeError('name')` |

Most of these come in pairs. `CalculateTotals` is stated against
`SumTerms`, the left-to-right sum of the items' terms, and
`SumLineTotalsOk` ties the recursive sum to it. `Validate` is described exactly by
`ValidateAccepts`. `Render` is described by `RenderAccepts` and the layout
lemmas, and `GenerateInvoice` is proved equal to it. `CollectItems` is
proved equal to `CollectedItems`, which is described by `CollectedMatches`.
`FormatMoney` is the inverse of `ParseMoney` up to rounding
(`FormatMoneyRoundTrip`, `DisplayWithinHalfCent`).

create_invoice.py's `calculate_totals` (6-10), section writers (25-73) and
`generate_invoice` (12-23) make the same reads and the same FPDF calls as
invoice_generator.py's. They are modelled by the same `InvoiceGenerator`
members. The copy has no `try`/`except`; the original's `except` only
prints and re-raises, so the outcome is the same.

## Left out

- **PDF bytes.** `pdf.output`, the latin-1 encoding and the `BytesIO`
  buffer are not modelled. A document is its page count and its cells.
- **Other FPDF internals.** Fonts, glyph widths and text overflow in a cell
  are not modelled. A cell's text is kept as a label, a request value
  (`Shown`) or a money amount.
- **Floating point.** Python floats are modelled as exact reals, so float
  rounding in sums and products is not modelled. Money rounds the exact
  amount to the nearest cent, ties to even.
- **Text of non-string values.** FPDF's conversion of a non-string value to
  cell text is not modelled; the value is kept as is. A value FPDF would
  refuse is not refused here.
- **Iterating a dict.** Iterating a non-empty dict is modelled as raising
  a TypeError at once. In Python it yields the keys, and the first use of a
  key as an item (`item['description']`, `item['quantity']`) raises a
  TypeError, so the outcome is the same.
- **Exception classes.** They are collapsed to the four `Error` cases.
  Multiplying values that are not numbers is modelled as an immediate
  TypeError. Python may first build a repeated string or list, which `sum`,
  the `+` of the total or the `:.2f` format then rejects. Python can then
  raise a different class, and in the table after more of the row's cells
  are written. In every such case an exception is raised and no document is
  returned.
- **`int()` and `float()` parsing.** Only a sign, digits and one decimal
  point are modelled. Surrounding whitespace, `_` separators, exponents,
  `inf` and `nan` are not. Error messages quote the text without Python's
  escaping.
- **The print in `except`.** The `print` in `generate_invoice`'s `except`
  (invoice_generator.py:24-26) and the logger calls in `invoice_form` are
  output only.
- **Flask.** Routing, `request.json` decoding, `jsonify`, `send_file`,
  `str(e)` and HTTP headers are not modelled. A reply is a datatype carrying
  the status, the exception or the document. A body that is not valid JSON
  is not modelled.
- **After rendering.** `invoice_form`'s work after rendering is not
  modelled: the UUID file name, `save_pdf_to_file`, the database insert and
  the `send_file` of the saved path (routes.py:79-88).
- **The rest of the app.** Login, registration, the GET branch and the
  other routes (routes.py) are outside this model, and so are the home
  route of create_invoice.py.
- **Form fields.** The form is a sequence of pairs with each key once,
  with its first value. Repeated keys of a multi-valued form are not
  modelled.
- **The business table.** A stored business is taken to have a non-null
  name and address.
- **`tax_rate` in `_add_items_table`.** AddItemsTable takes the parameter
  and, like the source, does not read it.
- **Partial writes.** AddItemsTable and AddRows: when `items` cannot be
  iterated, or an item cannot be read, the contract gives the error but
  does not state which cells were written before it. Such a document is
  never returned.
- **Totals below a page break.** InvoiceLayout.TotalsColumn requires the
  totals to fit below the cursor. Where totals are split across a page
  break, only `TotalsKeep` is stated: six cells are added and the page
  never goes back.
- **Page geometry.** The FPDF defaults above are a modelling choice. The
  source fixes none of them.
- **Validation leaves the request unchanged.** Validation is a function, so
  that it never modifies the request holds by construction and is not
  stated separately.
- **The form test.** test_app.py's form test posts no `business_id`. It is
  covered by `Routes.MissingBusiness` in general, and its numbers by
  `Decimal.FormQuantity`, `FormPrice` and `FormTaxRate`; the whole form is
  not written out as a concrete form.
- **The test client.** test_app.py builds its client from app.py's `app`
  (test_app.py:3), which registers only routes.py's routes (app.py:24-26)
  and no `/generate_invoice`. The `CreateInvoice.Test...` lemmas run
  create_invoice.py's endpoint and engine on the API tests' request
  bodies; what app.py's `app` answers to those posts is not modelled.
