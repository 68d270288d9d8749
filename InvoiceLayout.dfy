/** Where everything lands on an invoice. Horizontally (the `Flow` view) the
    layout is the same for every request: full-width lines for the two
    addresses, a 80/30/40/40 mm table, and a 150/40 mm totals block.
    Vertically (the `Column` view) every line is 10 mm high; an invoice with
    at most 15 items fits on its one page, and with 19 or more the table
    runs onto a second page at row 18. */
module InvoiceLayout {
  import opened PyValues
  import opened Pdf
  import opened InvoiceGenerator
  import Money
  import Decimal

  const Bold16: Option<Font> := Some(Font(Arial, Bold, 16))
  const Bold14: Option<Font> := Some(Font(Arial, Bold, 14))
  const Bold12: Option<Font> := Some(Font(Arial, Bold, 12))
  const Regular12: Option<Font> := Some(Font(Arial, Regular, 12))

  /** The two full-width lines of the business block. */
  function BusinessBoxes(name: Value, address: Value): seq<Box>
  {
    [ Box(Margin, FullWidth, 10, Shown(name), false, Left, Bold16),
      Box(Margin, FullWidth, 10, Shown(address), false, Left, Regular12) ]
  }

  /** The three full-width lines of the customer block. */
  function CustomerBoxes(name: Value, address: Value): seq<Box>
  {
    [ Box(Margin, FullWidth, 10, InvoiceTo, false, Left, Bold14),
      Box(Margin, FullWidth, 10, Shown(name), false, Left, Regular12),
      Box(Margin, FullWidth, 10, Shown(address), false, Left, Regular12) ]
  }

  /** The table's columns start at 10, 90, 120 and 160 mm. */
  const HeaderBoxes: seq<Box> :=
    [ Box(10, 80, 10, DescriptionTitle, true, Left, Bold12),
      Box(90, 30, 10, QuantityTitle, true, Center, Bold12),
      Box(120, 40, 10, UnitPriceTitle, true, Center, Bold12),
      Box(160, 40, 10, TotalTitle, true, Center, Bold12) ]

  /** The characters a cell prints, where the model fixes them: a label as
      written, a string value as it is, an int as `str()` prints it, which
      `int()` reads back, and an amount as `Money.FormatMoney` prints it,
      which reads back as the amount's rounded cents. How other request
      values print is not modelled. */
  function TextOf(t: Text): (r: Option<string>)
    ensures t.Label? ==> r == Some(t.s)
    ensures t.Shown? && t.v.Int? ==> r.Some? && Decimal.ParseInt(r.value) == Some(t.v.i)
    ensures t.Money? ==> r.Some? && Money.ParseMoney(r.value) == Some(Money.SignedCents(t.amount))
  {
    match t
    case Label(s) => Some(s)
    case Shown(v) =>
      if v.Str? then Some(v.s)
      else if v.Int? then Decimal.IntRoundTrip(v.i); Some(Decimal.IntToString(v.i))
      else None
    case Money(amount) =>
      Money.FormatMoneyRoundTrip(amount);
      Some(Money.FormatMoney(amount))
  }

  function RowBoxes(row: Row): seq<Box>
  {
    [ Box(10, 80, 10, Shown(row.description), true, Left, Regular12),
      Box(90, 30, 10, Shown(row.quantity), true, Center, Regular12),
      Box(120, 40, 10, Money(row.unitPrice), true, Center, Regular12),
      Box(160, 40, 10, Money(row.lineTotal), true, Center, Regular12) ]
  }

  function RowsBoxes(rows: seq<Row>): (bs: seq<Box>)
    ensures |bs| == 4 * |rows|
  {
    if rows == [] then [] else RowsBoxes(rows[..|rows| - 1]) + RowBoxes(rows[|rows| - 1])
  }

  /** Three lines of a right-aligned caption and a centred amount. */
  function TotalsBoxes(t: Totals): seq<Box>
  {
    [ Box(10, 150, 10, SubtotalLabel, false, Right, Bold12),
      Box(160, 40, 10, Money(t.subtotal), false, Center, Bold12),
      Box(10, 150, 10, TaxLabel, false, Right, Bold12),
      Box(160, 40, 10, Money(t.tax), false, Center, Bold12),
      Box(10, 150, 10, TotalLabel, false, Right, Bold12),
      Box(160, 40, 10, Money(t.total), false, Center, Bold12) ]
  }

  /** Every box of an invoice, in writing order. */
  function InvoiceBoxes(inv: Invoice): (bs: seq<Box>)
    ensures |bs| == 15 + 4 * |inv.rows|
  {
    BusinessBoxes(inv.businessName, inv.businessAddress)
    + CustomerBoxes(inv.customerName, inv.customerAddress)
    + HeaderBoxes + RowsBoxes(inv.rows) + TotalsBoxes(inv.totals)
  }

  /** The business block, seen horizontally: two full-width lines. */
  lemma BusinessFlow(c: Calls, name: Value, address: Value)
    requires FlowReplay(c).x == Margin
    ensures FlowReplay(BusinessCalls(c, name, address))
            == Flow(Margin, Regular12, FlowReplay(c).boxes + BusinessBoxes(name, address))
  {
    var f := FlowReplay(c);
    var bs := BusinessBoxes(name, address);
    var c1 := c.Then(SetFont(Arial, Bold, 16));
    var c2 := c1.Then(CellOp(0, 10, Shown(name), false, true, Left));
    var c3 := c2.Then(SetFont(Arial, Regular, 12));
    var c4 := c3.Then(CellOp(0, 10, Shown(address), false, true, Left));
    assert FlowReplay(c1) == Flow(Margin, Bold16, f.boxes);
    assert FlowReplay(c2) == Flow(Margin, Bold16, f.boxes + [bs[0]]);
    assert FlowReplay(c3) == Flow(Margin, Regular12, f.boxes + [bs[0]]);
    assert FlowReplay(c4) == Flow(Margin, Regular12, f.boxes + [bs[0]] + [bs[1]]);
    assert f.boxes + [bs[0]] + [bs[1]] == f.boxes + bs;
  }

  /** The customer block, seen horizontally: three full-width lines. */
  lemma CustomerFlow(c: Calls, name: Value, address: Value)
    requires FlowReplay(c).x == Margin
    ensures FlowReplay(CustomerCalls(c, name, address))
            == Flow(Margin, Regular12, FlowReplay(c).boxes + CustomerBoxes(name, address))
  {
    var f := FlowReplay(c);
    var bs := CustomerBoxes(name, address);
    var c1 := c.Then(SetFont(Arial, Bold, 14));
    var c2 := c1.Then(CellOp(0, 10, InvoiceTo, false, true, Left));
    var c3 := c2.Then(SetFont(Arial, Regular, 12));
    var c4 := c3.Then(CellOp(0, 10, Shown(name), false, true, Left));
    var c5 := c4.Then(CellOp(0, 10, Shown(address), false, true, Left));
    assert FlowReplay(c1) == Flow(Margin, Bold14, f.boxes);
    assert FlowReplay(c2) == Flow(Margin, Bold14, f.boxes + [bs[0]]);
    assert FlowReplay(c3) == Flow(Margin, Regular12, f.boxes + [bs[0]]);
    assert FlowReplay(c4) == Flow(Margin, Regular12, f.boxes + [bs[0]] + [bs[1]]);
    assert FlowReplay(c5) == Flow(Margin, Regular12, f.boxes + [bs[0]] + [bs[1]] + [bs[2]]);
    assert f.boxes + [bs[0]] + [bs[1]] + [bs[2]] == f.boxes + bs;
  }

  /** The four bordered cells of a table line, 80, 30, 40 and 40 wide,
      written left to right from the margin in the current font. */
  lemma TableLineFlow(c: Calls, t0: Text, t1: Text, t2: Text, t3: Text)
    requires FlowReplay(c).x == Margin
    ensures var f := FlowReplay(c);
            FlowReplay(c.Then(CellOp(80, 10, t0, true, false, Left))
                        .Then(CellOp(30, 10, t1, true, false, Center))
                        .Then(CellOp(40, 10, t2, true, false, Center))
                        .Then(CellOp(40, 10, t3, true, false, Center)))
            == Flow(200, f.font, f.boxes + [Box(10, 80, 10, t0, true, Left, f.font),
                                             Box(90, 30, 10, t1, true, Center, f.font),
                                             Box(120, 40, 10, t2, true, Center, f.font),
                                             Box(160, 40, 10, t3, true, Center, f.font)])
  {
    var f := FlowReplay(c);
    var c1 := c.Then(CellOp(80, 10, t0, true, false, Left));
    var c2 := c1.Then(CellOp(30, 10, t1, true, false, Center));
    var c3 := c2.Then(CellOp(40, 10, t2, true, false, Center));
    var b0, b1 := Box(10, 80, 10, t0, true, Left, f.font), Box(90, 30, 10, t1, true, Center, f.font);
    var b2, b3 := Box(120, 40, 10, t2, true, Center, f.font), Box(160, 40, 10, t3, true, Center, f.font);
    FlowThen(c, CellOp(80, 10, t0, true, false, Left));
    FlowThen(c1, CellOp(30, 10, t1, true, false, Center));
    FlowThen(c2, CellOp(40, 10, t2, true, false, Center));
    FlowThen(c3, CellOp(40, 10, t3, true, false, Center));
    assert f.boxes + [b0] + [b1] + [b2] + [b3] == f.boxes + [b0, b1, b2, b3];
  }

  /** The table header, seen horizontally: four bold titles. */
  lemma HeaderFlow(c: Calls)
    requires FlowReplay(c).x == Margin
    ensures FlowReplay(HeaderCalls(c)) == Flow(Margin, Regular12, FlowReplay(c).boxes + HeaderBoxes)
  {
    var c1 := c.Then(SetFont(Arial, Bold, 12));
    FlowThen(c, SetFont(Arial, Bold, 12));
    TableLineFlow(c1, DescriptionTitle, QuantityTitle, UnitPriceTitle, TotalTitle);
  }

  /** One table row, seen horizontally: the four columns of the header. */
  lemma RowFlow(c: Calls, row: Row)
    requires FlowReplay(c).x == Margin && FlowReplay(c).font == Regular12
    ensures FlowReplay(RowCalls(c, row)) == Flow(Margin, Regular12, FlowReplay(c).boxes + RowBoxes(row))
  {
    TableLineFlow(c, Shown(row.description), Shown(row.quantity), Money(row.unitPrice), Money(row.lineTotal));
  }

  lemma {:induction false} RowsFlow(c: Calls, rows: seq<Row>)
    requires FlowReplay(c).x == Margin && FlowReplay(c).font == Regular12
    ensures FlowReplay(RowsCalls(c, rows)) == Flow(Margin, Regular12, FlowReplay(c).boxes + RowsBoxes(rows))
    decreases |rows|
  {
    if rows != [] {
      var front := rows[..|rows| - 1];
      RowsFlow(c, front);
      RowFlow(RowsCalls(c, front), rows[|rows| - 1]);
      assert FlowReplay(c).boxes + RowsBoxes(front) + RowBoxes(rows[|rows| - 1])
             == FlowReplay(c).boxes + RowsBoxes(rows);
    }
  }

  /** The two boxes of one totals line. */
  function TotalLineBoxes(caption: Text, amount: real): seq<Box>
  {
    [Box(10, 150, 10, caption, false, Right, Bold12), Box(160, 40, 10, Money(amount), false, Center, Bold12)]
  }

  lemma TotalLineFlow(c: Calls, caption: Text, amount: real)
    requires FlowReplay(c) == Flow(Margin, Bold12, FlowReplay(c).boxes)
    ensures FlowReplay(TotalLine(c, caption, amount))
            == Flow(200, Bold12, FlowReplay(c).boxes + TotalLineBoxes(caption, amount))
  {
    var f := FlowReplay(c);
    var bs := TotalLineBoxes(caption, amount);
    var c1 := c.Then(CellOp(150, 10, caption, false, false, Right));
    assert FlowReplay(c1) == Flow(160, Bold12, f.boxes + [bs[0]]);
    assert f.boxes + [bs[0]] + [bs[1]] == f.boxes + bs;
  }

  /** The totals block, seen horizontally: three caption-and-amount lines. */
  lemma TotalsFlow(c: Calls, t: Totals)
    requires FlowReplay(c).x == Margin
    ensures FlowReplay(TotalsCalls(c, t)).boxes == FlowReplay(c).boxes + TotalsBoxes(t)
  {
    var f := FlowReplay(c);
    var c2 := c.Then(Ln(5)).Then(SetFont(Arial, Bold, 12));
    var sub := TotalLine(c2, SubtotalLabel, t.subtotal);
    var tax := TotalLine(sub.Then(Ln(10)), TaxLabel, t.tax);
    assert FlowReplay(c2) == Flow(Margin, Bold12, f.boxes);
    TotalLineFlow(c2, SubtotalLabel, t.subtotal);
    var b1 := f.boxes + TotalLineBoxes(SubtotalLabel, t.subtotal);
    assert FlowReplay(sub.Then(Ln(10))) == Flow(Margin, Bold12, b1);
    TotalLineFlow(sub.Then(Ln(10)), TaxLabel, t.tax);
    var b2 := b1 + TotalLineBoxes(TaxLabel, t.tax);
    assert FlowReplay(tax.Then(Ln(10))) == Flow(Margin, Bold12, b2);
    TotalLineFlow(tax.Then(Ln(10)), TotalLabel, t.total);
    assert b2 + TotalLineBoxes(TotalLabel, t.total) == f.boxes + TotalsBoxes(t);
  }

  /** The calls up to the end of the table header. */
  function HeaderDone(inv: Invoice): Calls
  {
    var first := Start.Then(AddPage);
    var business := BusinessCalls(first, inv.businessName, inv.businessAddress);
    HeaderCalls(CustomerCalls(business, inv.customerName, inv.customerAddress))
  }

  /** Whatever the request and however many pages the table takes, the
      invoice's cells carry exactly `InvoiceBoxes`, in order. */
  lemma LayoutBoxes(inv: Invoice)
    ensures BoxesOf(Layout(inv).cells) == InvoiceBoxes(inv)
    ensures |Layout(inv).cells| == 15 + 4 * |inv.rows|
  {
    var first := Start.Then(AddPage);
    var business := BusinessCalls(first, inv.businessName, inv.businessAddress);
    var customer := CustomerCalls(business, inv.customerName, inv.customerAddress);
    var header := HeaderDone(inv);
    var rows := RowsCalls(header, inv.rows);
    assert FlowReplay(first) == Flow(Margin, None, []);
    BusinessFlow(first, inv.businessName, inv.businessAddress);
    CustomerFlow(business, inv.customerName, inv.customerAddress);
    HeaderFlow(customer);
    RowsFlow(header, inv.rows);
    TotalsFlow(rows, inv.totals);
    ReplayFlow(InvoiceCalls(inv));
  }

  /** A table line: four cells side by side at the same spot. */
  function Four(at: Spot): seq<Spot>
  {
    [at, at, at, at]
  }

  /** `n` table rows on one page, the first at `y`. */
  function RowsSpots(page: nat, y: int, n: nat): (ss: seq<Spot>)
    ensures |ss| == 4 * n
  {
    if n == 0 then [] else RowsSpots(page, y, n - 1) + Four(Spot(page, y + 10 * (n - 1)))
  }

  /** Column j of row k is entry 4k + j of the rows' boxes. */
  lemma {:induction false} RowsBoxesAt(rows: seq<Row>, k: nat, j: nat)
    requires k < |rows| && j < 4
    ensures RowsBoxes(rows)[4 * k + j] == RowBoxes(rows[k])[j]
    decreases |rows|
  {
    var front := rows[..|rows| - 1];
    if k < |front| {
      RowsBoxesAt(front, k, j);
      assert rows[k] == front[k];
    }
  }

  /** The four cells of row k lie 10k below the first row. */
  lemma {:induction false} RowsSpotsAt(page: nat, y: int, n: nat, k: nat, j: nat)
    requires k < n && j < 4
    ensures RowsSpots(page, y, n)[4 * k + j] == Spot(page, y + 10 * k)
    decreases n
  {
    if k < n - 1 {
      RowsSpotsAt(page, y, n - 1, k, j);
    }
  }

  /** The totals block below a table ending at `y`: a 5 mm gap, then three
      lines of two cells. */
  function TotalsSpots(page: nat, y: int): seq<Spot>
  {
    [ Spot(page, y + 5), Spot(page, y + 5),
      Spot(page, y + 15), Spot(page, y + 15),
      Spot(page, y + 25), Spot(page, y + 25) ]
  }

  /** Where the first nine cells go: the business block at 10 mm, the
      customer block at 40 mm, the table header at 80 mm. */
  const HeadSpots: seq<Spot> :=
    [Spot(1, 10), Spot(1, 20), Spot(1, 40), Spot(1, 50), Spot(1, 60)] + Four(Spot(1, 80))

  /** An invoice of `n` items on a single page: item k at 90 + 10k mm and
      the totals from 95 + 10n mm. */
  function OnePageSpots(n: nat): (ss: seq<Spot>)
    ensures |ss| == 15 + 4 * n
  {
    HeadSpots + RowsSpots(1, 90, n) + TotalsSpots(1, 90 + 10 * n)
  }

  /** Two full-width lines under font changes, then a 10 mm gap: the shape
      of the business block. */
  lemma TwoLinesDown(c: Calls, f1: Op, a: Op, f2: Op, b: Op)
    requires f1.SetFont? && f2.SetFont? && LineEnding(a, 10) && LineEnding(b, 10)
    requires ColumnReplay(c).y + 20 <= BreakTrigger
    ensures var v := ColumnReplay(c);
            ColumnReplay(c.Then(f1).Then(a).Then(f2).Then(b).Then(Ln(10)))
            == Column(v.page, v.y + 30, v.spots + [Spot(v.page, v.y), Spot(v.page, v.y + 10)])
  {
    var v := ColumnReplay(c);
    var c2 := c.Then(f1).Then(a);
    var c4 := c2.Then(f2).Then(b);
    var s1 := v.spots + [Spot(v.page, v.y)];
    assert ColumnReplay(c2) == Column(v.page, v.y + 10, s1) by {
      FontKeeps(c, f1);
      LineDown(c.Then(f1), a);
    }
    assert ColumnReplay(c4) == Column(v.page, v.y + 20, s1 + [Spot(v.page, v.y + 10)]) by {
      FontKeeps(c2, f2);
      LineDown(c2.Then(f2), b);
    }
    ColumnThen(c4, Ln(10));
    assert s1 + [Spot(v.page, v.y + 10)] == v.spots + [Spot(v.page, v.y), Spot(v.page, v.y + 10)];
  }

  /** Three full-width lines, the first two under font changes, then a 10 mm
      gap: the shape of the customer block. */
  lemma ThreeLinesDown(c: Calls, f1: Op, a: Op, f2: Op, b: Op, d: Op)
    requires f1.SetFont? && f2.SetFont? && LineEnding(a, 10) && LineEnding(b, 10) && LineEnding(d, 10)
    requires ColumnReplay(c).y + 30 <= BreakTrigger
    ensures var v := ColumnReplay(c);
            ColumnReplay(c.Then(f1).Then(a).Then(f2).Then(b).Then(d).Then(Ln(10)))
            == Column(v.page, v.y + 40, v.spots + [Spot(v.page, v.y), Spot(v.page, v.y + 10), Spot(v.page, v.y + 20)])
  {
    var v := ColumnReplay(c);
    var c2 := c.Then(f1).Then(a);
    var c4 := c2.Then(f2).Then(b);
    var c5 := c4.Then(d);
    var s1 := v.spots + [Spot(v.page, v.y)];
    var s2 := s1 + [Spot(v.page, v.y + 10)];
    assert ColumnReplay(c2) == Column(v.page, v.y + 10, s1) by {
      FontKeeps(c, f1);
      LineDown(c.Then(f1), a);
    }
    assert ColumnReplay(c4) == Column(v.page, v.y + 20, s2) by {
      FontKeeps(c2, f2);
      LineDown(c2.Then(f2), b);
    }
    assert ColumnReplay(c5) == Column(v.page, v.y + 30, s2 + [Spot(v.page, v.y + 20)]) by {
      LineDown(c4, d);
    }
    ColumnThen(c5, Ln(10));
    assert s2 + [Spot(v.page, v.y + 20)] == v.spots + [Spot(v.page, v.y), Spot(v.page, v.y + 10), Spot(v.page, v.y + 20)];
  }

  lemma BusinessColumn(c: Calls, name: Value, address: Value)
    requires ColumnReplay(c).y + 20 <= BreakTrigger
    ensures var v := ColumnReplay(c);
            ColumnReplay(BusinessCalls(c, name, address))
            == Column(v.page, v.y + 30, v.spots + [Spot(v.page, v.y), Spot(v.page, v.y + 10)])
  {
    TwoLinesDown(c, SetFont(Arial, Bold, 16), CellOp(0, 10, Shown(name), false, true, Left),
                 SetFont(Arial, Regular, 12), CellOp(0, 10, Shown(address), false, true, Left));
  }

  lemma CustomerColumn(c: Calls, name: Value, address: Value)
    requires ColumnReplay(c).y + 30 <= BreakTrigger
    ensures var v := ColumnReplay(c);
            ColumnReplay(CustomerCalls(c, name, address))
            == Column(v.page, v.y + 40, v.spots + [Spot(v.page, v.y), Spot(v.page, v.y + 10), Spot(v.page, v.y + 20)])
  {
    ThreeLinesDown(c, SetFont(Arial, Bold, 14), CellOp(0, 10, InvoiceTo, false, true, Left),
                   SetFont(Arial, Regular, 12), CellOp(0, 10, Shown(name), false, true, Left),
                   CellOp(0, 10, Shown(address), false, true, Left));
  }

  lemma HeaderColumn(c: Calls)
    requires ColumnReplay(c).y + 10 <= BreakTrigger
    ensures var v := ColumnReplay(c);
            ColumnReplay(HeaderCalls(c)) == Column(v.page, v.y + 10, v.spots + Four(Spot(v.page, v.y)))
  {
    var c1 := c.Then(SetFont(Arial, Bold, 12));
    ColumnThen(c, SetFont(Arial, Bold, 12));
    FourAcross(c1, CellOp(80, 10, DescriptionTitle, true, false, Left),
                   CellOp(30, 10, QuantityTitle, true, false, Center),
                   CellOp(40, 10, UnitPriceTitle, true, false, Center),
                   CellOp(40, 10, TotalTitle, true, false, Center));
  }

  /** A table row lands, whole, at `LineStart`: on the current page if it
      fits, otherwise at the top of the next one. */
  lemma RowColumn(c: Calls, row: Row)
    ensures var v := ColumnReplay(c);
            var at := LineStart(v.page, v.y, 10);
            ColumnReplay(RowCalls(c, row)) == Column(at.page, at.y + 10, v.spots + Four(at))
  {
    FourAcross(c, CellOp(80, 10, Shown(row.description), true, false, Left),
                  CellOp(30, 10, Shown(row.quantity), true, false, Center),
                  CellOp(40, 10, Money(row.unitPrice), true, false, Center),
                  CellOp(40, 10, Money(row.lineTotal), true, false, Center));
  }

  /** Rows that fit below the cursor stack 10 mm apart on its page. */
  lemma {:induction false} RowsColumn(c: Calls, rows: seq<Row>)
    requires ColumnReplay(c).y + 10 * |rows| <= BreakTrigger
    ensures var v := ColumnReplay(c);
            ColumnReplay(RowsCalls(c, rows))
            == Column(v.page, v.y + 10 * |rows|, v.spots + RowsSpots(v.page, v.y, |rows|))
    decreases |rows|
  {
    if rows != [] {
      var v := ColumnReplay(c);
      var front := rows[..|rows| - 1];
      RowsColumn(c, front);
      RowColumn(RowsCalls(c, front), rows[|rows| - 1]);
      assert v.spots + RowsSpots(v.page, v.y, |front|) + Four(Spot(v.page, v.y + 10 * |front|))
             == v.spots + RowsSpots(v.page, v.y, |rows|);
    }
  }

  /** Whether or not they fit, rows only add cells and never go back a page. */
  lemma {:induction false} RowsKeep(c: Calls, rows: seq<Row>)
    ensures Grows(ColumnReplay(c), ColumnReplay(RowsCalls(c, rows)), 4 * |rows|)
    decreases |rows|
  {
    if rows != [] {
      var front := rows[..|rows| - 1];
      RowsKeep(c, front);
      var m := RowsCalls(c, front);
      RowColumn(m, rows[|rows| - 1]);
      assert Grows(ColumnReplay(m), ColumnReplay(RowsCalls(c, rows)), 4);
      GrowsTrans(ColumnReplay(c), ColumnReplay(m), ColumnReplay(RowsCalls(c, rows)), 4 * |front|, 4);
    }
  }

  /** One totals line lands, both cells together, where the line fits. */
  lemma TotalLineColumn(c: Calls, caption: Text, amount: real)
    ensures var v := ColumnReplay(c);
            var at := LineStart(v.page, v.y, 10);
            ColumnReplay(TotalLine(c, caption, amount)) == Column(at.page, at.y, v.spots + [at, at])
  {
    TwoAcross(c, CellOp(150, 10, caption, false, false, Right), CellOp(40, 10, Money(amount), false, false, Center));
  }

  /** A 10 mm gap, then one totals line, landing where the line fits. */
  lemma GapLineColumn(c: Calls, caption: Text, amount: real)
    ensures var v := ColumnReplay(c);
            var at := LineStart(v.page, v.y + 10, 10);
            ColumnReplay(TotalLine(c.Then(Ln(10)), caption, amount)) == Column(at.page, at.y, v.spots + [at, at])
  {
    ColumnThen(c, Ln(10));
    TotalLineColumn(c.Then(Ln(10)), caption, amount);
  }

  lemma ThreePairs(ss: seq<Spot>, a: Spot, b: Spot, d: Spot)
    ensures ss + [a, a] + [b, b] + [d, d] == ss + [a, a, b, b, d, d]
  {
  }

  /** A totals line that fits stays at the cursor. */
  lemma LineFits(c: Calls, caption: Text, amount: real)
    requires ColumnReplay(c).y + 10 <= BreakTrigger
    ensures var v := ColumnReplay(c);
            var at := Spot(v.page, v.y);
            ColumnReplay(TotalLine(c, caption, amount)) == Column(v.page, v.y, v.spots + [at, at])
  {
    TotalLineColumn(c, caption, amount);
  }

  /** A 10 mm gap and a totals line that fit stay on the cursor's page. */
  lemma GapLineFits(c: Calls, caption: Text, amount: real)
    requires ColumnReplay(c).y + 20 <= BreakTrigger
    ensures var v := ColumnReplay(c);
            var at := Spot(v.page, v.y + 10);
            ColumnReplay(TotalLine(c.Then(Ln(10)), caption, amount)) == Column(v.page, v.y + 10, v.spots + [at, at])
  {
    GapLineColumn(c, caption, amount);
  }

  /** The three totals lines, 10 mm apart, from a cursor where they fit. */
  lemma ThreeTotalLines(c: Calls, t: Totals)
    requires ColumnReplay(c).y + 30 <= BreakTrigger
    ensures var v := ColumnReplay(c);
            var sub := TotalLine(c, SubtotalLabel, t.subtotal);
            var tax := TotalLine(sub.Then(Ln(10)), TaxLabel, t.tax);
            ColumnReplay(TotalLine(tax.Then(Ln(10)), TotalLabel, t.total))
            == Column(v.page, v.y + 20, v.spots + [Spot(v.page, v.y), Spot(v.page, v.y),
                                                   Spot(v.page, v.y + 10), Spot(v.page, v.y + 10),
                                                   Spot(v.page, v.y + 20), Spot(v.page, v.y + 20)])
  {
    var v := ColumnReplay(c);
    var a := Spot(v.page, v.y);
    var b := Spot(v.page, v.y + 10);
    var d := Spot(v.page, v.y + 20);
    var sub := TotalLine(c, SubtotalLabel, t.subtotal);
    var tax := TotalLine(sub.Then(Ln(10)), TaxLabel, t.tax);
    var total := TotalLine(tax.Then(Ln(10)), TotalLabel, t.total);
    assert ColumnReplay(sub) == Column(v.page, v.y, v.spots + [a, a]) by {
      LineFits(c, SubtotalLabel, t.subtotal);
    }
    assert ColumnReplay(tax) == Column(v.page, v.y + 10, v.spots + [a, a] + [b, b]) by {
      GapLineFits(sub, TaxLabel, t.tax);
    }
    assert ColumnReplay(total) == Column(v.page, v.y + 20, v.spots + [a, a] + [b, b] + [d, d]) by {
      GapLineFits(tax, TotalLabel, t.total);
    }
    ThreePairs(v.spots, a, b, d);
  }

  /** Totals that fit below the cursor stay on its page. */
  lemma TotalsColumn(c: Calls, t: Totals)
    requires ColumnReplay(c).y + 35 <= BreakTrigger
    ensures var v := ColumnReplay(c);
            ColumnReplay(TotalsCalls(c, t)) == Column(v.page, v.y + 25, v.spots + TotalsSpots(v.page, v.y))
  {
    var v := ColumnReplay(c);
    var c2 := c.Then(Ln(5)).Then(SetFont(Arial, Bold, 12));
    assert ColumnReplay(c2) == Column(v.page, v.y + 5, v.spots) by {
      ColumnThen(c, Ln(5));
      ColumnThen(c.Then(Ln(5)), SetFont(Arial, Bold, 12));
    }
    ThreeTotalLines(c2, t);
  }

  /** `w` is `v` moved on by `k` more cells, on the same page or a later one. */
  predicate Grows(v: Column, w: Column, k: nat)
  {
    w.page >= v.page && |w.spots| == |v.spots| + k && w.spots[..|v.spots|] == v.spots
  }

  lemma GrowsTrans(u: Column, v: Column, w: Column, j: nat, k: nat)
    requires Grows(u, v, j) && Grows(v, w, k)
    ensures Grows(u, w, j + k)
  {
    assert w.spots[..|u.spots|] == w.spots[..|v.spots|][..|u.spots|];
  }

  lemma TotalLineGrows(c: Calls, caption: Text, amount: real)
    ensures Grows(ColumnReplay(c), ColumnReplay(TotalLine(c, caption, amount)), 2)
  {
    TotalLineColumn(c, caption, amount);
  }

  /** Wherever it lands, the totals block adds six cells and never goes
      back a page. */
  lemma TotalsKeep(c: Calls, t: Totals)
    ensures Grows(ColumnReplay(c), ColumnReplay(TotalsCalls(c, t)), 6)
  {
    var c2 := c.Then(Ln(5)).Then(SetFont(Arial, Bold, 12));
    var sub := TotalLine(c2, SubtotalLabel, t.subtotal);
    var tax := TotalLine(sub.Then(Ln(10)), TaxLabel, t.tax);
    ColumnThen(c, Ln(5));
    ColumnThen(c.Then(Ln(5)), SetFont(Arial, Bold, 12));
    TotalLineGrows(c2, SubtotalLabel, t.subtotal);
    ColumnThen(sub, Ln(10));
    TotalLineGrows(sub.Then(Ln(10)), TaxLabel, t.tax);
    GrowsTrans(ColumnReplay(c), ColumnReplay(sub), ColumnReplay(tax), 2, 2);
    ColumnThen(tax, Ln(10));
    TotalLineGrows(tax.Then(Ln(10)), TotalLabel, t.total);
    GrowsTrans(ColumnReplay(c), ColumnReplay(tax), ColumnReplay(TotalsCalls(c, t)), 4, 2);
  }

  /** The page, the cursor and the spots after the table header. */
  lemma HeadColumn(inv: Invoice)
    ensures ColumnReplay(HeaderDone(inv)) == Column(1, 90, HeadSpots)
  {
    var first := Start.Then(AddPage);
    var business := BusinessCalls(first, inv.businessName, inv.businessAddress);
    var customer := CustomerCalls(business, inv.customerName, inv.customerAddress);
    assert ColumnReplay(first) == Column(1, Margin, []);
    BusinessColumn(first, inv.businessName, inv.businessAddress);
    CustomerColumn(business, inv.customerName, inv.customerAddress);
    HeaderColumn(customer);
  }

  /** An invoice of at most 15 items fits on one page, every cell where
      `OnePageSpots` says, carrying the box `InvoiceBoxes` says. */
  lemma OnePageLayout(inv: Invoice)
    requires |inv.rows| <= 15
    ensures Layout(inv).page == 1
    ensures Layout(inv).cells == Place(OnePageSpots(|inv.rows|), InvoiceBoxes(inv))
  {
    var n := |inv.rows|;
    var header := HeaderDone(inv);
    HeadColumn(inv);
    RowsColumn(header, inv.rows);
    TotalsColumn(RowsCalls(header, inv.rows), inv.totals);
    assert ColumnReplay(InvoiceCalls(inv)).spots == OnePageSpots(n);
    ReplayColumn(InvoiceCalls(inv));
    CellsFromViews(InvoiceCalls(inv));
    LayoutBoxes(inv);
    ReplayFlow(InvoiceCalls(inv));
  }

  /** Row k of a one-page invoice: its four cells at 90 + 10k mm on page 1,
      below the header, showing that row's description, quantity, unit
      price and line total. */
  lemma OnePageRow(inv: Invoice, k: nat, j: nat)
    requires |inv.rows| <= 15 && k < |inv.rows| && j < 4
    ensures |Layout(inv).cells| == 15 + 4 * |inv.rows|
    ensures Layout(inv).cells[9 + 4 * k + j] == Cell(1, 90 + 10 * k, RowBoxes(inv.rows[k])[j])
  {
    OnePageLayout(inv);
    OnePageSpot(|inv.rows|, k, j);
    InvoiceRowBox(inv, k, j);
  }

  /** The spots of the header and the first 18 rows, which fill page 1 down
      to 280 mm, and of row 18, the first on page 2. */
  function BreakSpots(): seq<Spot>
  {
    HeadSpots + RowsSpots(1, 90, 18) + Four(Spot(2, Margin))
  }

  /** With 19 rows or more, the run keeps `BreakSpots` as its first 85
      spots and ends on page 2 or later. */
  lemma BreakColumn(inv: Invoice)
    requires |inv.rows| >= 19
    ensures Grows(Column(2, 20, BreakSpots()), ColumnReplay(InvoiceCalls(inv)), 4 * (|inv.rows| - 19) + 6)
  {
    var rows := inv.rows;
    var header := HeaderDone(inv);
    var first := rows[..18];
    var rest := rows[19..];
    var m := RowsCalls(header, first);
    var m2 := RowCalls(m, rows[18]);
    var m3 := RowsCalls(m2, rest);
    assert RowsCalls(header, rows) == m3 by {
      assert rows == first + ([rows[18]] + rest);
      RowsCallsAppend(header, first, [rows[18]] + rest);
      RowsCallsAppend(m, [rows[18]], rest);
      RowsCallsNext(m, [], rows[18]);
      assert [] + [rows[18]] == [rows[18]];
    }
    assert ColumnReplay(m2) == Column(2, 20, BreakSpots()) by {
      HeadColumn(inv);
      RowsColumn(header, first);
      RowColumn(m, rows[18]);
    }
    RowsKeep(m2, rest);
    TotalsKeep(m3, inv.totals);
    assert InvoiceCalls(inv) == TotalsCalls(m3, inv.totals);
    GrowsTrans(ColumnReplay(m2), ColumnReplay(m3), ColumnReplay(InvoiceCalls(inv)), 4 * |rest|, 6);
  }

  /** Where the cells of rows 0 to 18 land when there are 19 rows or more. */
  lemma BreakSpot(inv: Invoice, k: nat, j: nat)
    requires |inv.rows| >= 19 && k <= 18 && j < 4
    ensures var v := ColumnReplay(InvoiceCalls(inv));
            v.page >= 2 && 9 + 4 * k + j < |v.spots|
            && v.spots[9 + 4 * k + j] == if k < 18 then Spot(1, 90 + 10 * k) else Spot(2, Margin)
  {
    var i := 9 + 4 * k + j;
    BreakColumn(inv);
    assert ColumnReplay(InvoiceCalls(inv)).spots[i] == BreakSpots()[i];
    if k < 18 {
      RowsSpotsAt(1, 90, 18, k, j);
      assert BreakSpots()[i] == RowsSpots(1, 90, 18)[4 * k + j];
    }
  }

  /** On a single page, the cells of item k sit at 90 + 10k mm. */
  lemma OnePageSpot(n: nat, k: nat, j: nat)
    requires k < n && j < 4
    ensures OnePageSpots(n)[9 + 4 * k + j] == Spot(1, 90 + 10 * k)
  {
    RowsSpotsAt(1, 90, n, k, j);
    assert OnePageSpots(n)[9 + 4 * k + j] == RowsSpots(1, 90, n)[4 * k + j];
  }

  /** Box 9 + 4k + j of an invoice is box j of row k. */
  lemma InvoiceRowBox(inv: Invoice, k: nat, j: nat)
    requires k < |inv.rows| && j < 4
    ensures InvoiceBoxes(inv)[9 + 4 * k + j] == RowBoxes(inv.rows[k])[j]
  {
    RowsBoxesAt(inv.rows, k, j);
    assert InvoiceBoxes(inv)[9 + 4 * k + j] == RowsBoxes(inv.rows)[4 * k + j];
  }

  /** With 19 rows or more the table runs onto a second page: rows 0 to 17
      stay on page 1 at 90 + 10k mm, and row 18, which would end at 280 mm,
      past the 277 mm trigger, opens page 2 at its top margin. */
  lemma PageBreak(inv: Invoice, k: nat, j: nat)
    requires |inv.rows| >= 19 && k <= 18 && j < 4
    ensures |Layout(inv).cells| == 15 + 4 * |inv.rows|
    ensures Layout(inv).page >= 2
    ensures Layout(inv).cells[9 + 4 * k + j]
            == if k < 18 then Cell(1, 90 + 10 * k, RowBoxes(inv.rows[k])[j])
               else Cell(2, Margin, RowBoxes(inv.rows[18])[j])
  {
    var c := InvoiceCalls(inv);
    LayoutBoxes(inv);
    ReplayFlow(c);
    ReplayColumn(c);
    CellAt(c, 9 + 4 * k + j);
    BreakSpot(inv, k, j);
    InvoiceRowBox(inv, k, j);
  }
}
