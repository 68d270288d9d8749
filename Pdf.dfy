/** The part of an FPDF document that the invoice code drives: a page
    counter, a cursor (x, y), the current font and the cells written so far.
    The code talks to it through four calls, `add_page`, `set_font`, `cell`
    and `ln`; here each call is an `Op`, its effect is `Step`, the calls made
    so far are `Calls`, and their effect is `Replay`. `Doc` is the mutable object itself.

    Geometry is FPDF's default for `FPDF()` with no arguments: an A4 page in
    portrait, millimetres, 10 mm margins, and an automatic page break when a
    cell would reach below 297 - 20 = 277 mm. */
module Pdf {
  import opened PyValues

  const PageWidth: int := 210
  const PageHeight: int := 297
  const Margin: int := 10
  /** A cell whose bottom edge would pass this line starts a new page. */
  const BreakTrigger: int := PageHeight - 2 * Margin

  /** Full width between the margins, what a cell of width 0 gets at the left margin. */
  const FullWidth: int := PageWidth - 2 * Margin

  datatype Style = Regular | Bold
  datatype Font = Font(family: string, style: Style, size: nat)
  datatype Align = Left | Center | Right

  /** What a cell prints: fixed text, a request value as `str()` shows it,
      or a money amount as `Money.FormatMoney` shows it. */
  datatype Text = Label(s: string) | Shown(v: Value) | Money(amount: real)

  /** What a cell looks like on its line: its left edge, its width and height,
      its text, border, alignment and font. Page breaks do not change it. */
  datatype Box = Box(x: int, w: int, h: int, text: Text, border: bool, align: Align, font: Option<Font>)

  /** A written cell: the page it is on, its top edge and its box. */
  datatype Cell = Cell(page: nat, y: int, box: Box)

  /** One call on the document. `newLine` is the `ln=True` argument of `cell`. */
  datatype Op =
    | AddPage
    | SetFont(family: string, style: Style, size: nat)
    | CellOp(w: int, h: int, text: Text, border: bool, newLine: bool, align: Align)
    | Ln(h: int)

  datatype PageState = PageState(page: nat, x: int, y: int, font: Option<Font>, cells: seq<Cell>)

  /** The finished document: its page count and its cells, in writing order. */
  datatype Document = Document(pages: nat, cells: seq<Cell>)

  /** A new document: no page, no font, nothing written. */
  const Blank: PageState := PageState(0, Margin, Margin, None, [])

  /** Where a line of height `h` starts: at the cursor if it fits,
      otherwise at the top of the next page. */
  function LineStart(page: nat, y: int, h: int): Spot
  {
    if y + h <= BreakTrigger then Spot(page, y) else Spot(page + 1, Margin)
  }

  /** The effect of one call. A cell of width 0 reaches the right margin. A
      cell that would pass `BreakTrigger` first moves to the top of a new
      page, keeping its x. After a cell the cursor moves right by its width,
      or, with `newLine`, to the left margin one cell-height lower. `ln(h)`
      moves to the left margin h lower. */
  function Step(s: PageState, op: Op): (t: PageState)
    ensures |t.cells| == |s.cells| + (if op.CellOp? then 1 else 0)
    ensures t.cells[..|s.cells|] == s.cells
    ensures t.page >= s.page
  {
    match op
    case AddPage => s.(page := s.page + 1, x := Margin, y := Margin)
    case SetFont(family, style, size) => s.(font := Some(Font(family, style, size)))
    case Ln(h) => s.(x := Margin, y := s.y + h)
    case CellOp(w, h, text, border, newLine, align) =>
      var at := LineStart(s.page, s.y, h);
      var width := if w == 0 then PageWidth - Margin - s.x else w;
      var cell := Cell(at.page, at.y, Box(s.x, width, h, text, border, align, s.font));
      if newLine then PageState(at.page, Margin, at.y + h, s.font, s.cells + [cell])
      else PageState(at.page, s.x + width, at.y, s.font, s.cells + [cell])
  }

  /** The calls made on a document so far, the latest last. `c.Then(op)` is
      `c` followed by one more call. */
  datatype Calls = Start | Snoc(before: Calls, last: Op) {
    function Then(op: Op): Calls
    {
      Snoc(this, op)
    }
  }

  /** The effect of a sequence of calls on a new document, made in order. */
  function Replay(c: Calls): PageState
  {
    match c
    case Start => Blank
    case Snoc(before, op) => Step(Replay(before), op)
  }

  /** The horizontal view of a run: the cursor's x, the font, and the boxes
      written. It needs no page or y, because a page break keeps x. */
  datatype Flow = Flow(x: int, font: Option<Font>, boxes: seq<Box>)

  function FlowStep(f: Flow, op: Op): Flow
  {
    match op
    case AddPage => f.(x := Margin)
    case SetFont(family, style, size) => f.(font := Some(Font(family, style, size)))
    case Ln(_) => f.(x := Margin)
    case CellOp(w, h, text, border, newLine, align) =>
      var width := if w == 0 then PageWidth - Margin - f.x else w;
      var box := Box(f.x, width, h, text, border, align, f.font);
      Flow(if newLine then Margin else f.x + width, f.font, f.boxes + [box])
  }

  function FlowReplay(c: Calls): Flow
  {
    match c
    case Start => Flow(Margin, None, [])
    case Snoc(before, op) => FlowStep(FlowReplay(before), op)
  }

  function BoxesOf(cells: seq<Cell>): (bs: seq<Box>)
    ensures |bs| == |cells|
    ensures forall i :: 0 <= i < |cells| ==> bs[i] == cells[i].box
  {
    seq(|cells|, i requires 0 <= i < |cells| => cells[i].box)
  }

  function FlowOf(s: PageState): Flow
  {
    Flow(s.x, s.font, BoxesOf(s.cells))
  }

  /** Whatever pages the cells land on, their boxes, the final x and the
      font are those of the horizontal view. */
  lemma {:induction false} ReplayFlow(c: Calls)
    ensures FlowOf(Replay(c)) == FlowReplay(c)
  {
    match c
    case Start =>
    case Snoc(before, op) =>
      ReplayFlow(before);
      if op.CellOp? {
        var m := Replay(before);
        var t := Step(m, op);
        assert BoxesOf(t.cells) == BoxesOf(m.cells) + [t.cells[|t.cells| - 1].box];
      }
  }

  /** Where a cell landed: its page and its top edge. */
  datatype Spot = Spot(page: nat, y: int)

  /** The vertical view of a run: the page, the cursor's y, and where each
      cell landed. It needs no x, text or font: only heights and line
      breaks decide where a cell goes down the page. */
  datatype Column = Column(page: nat, y: int, spots: seq<Spot>)

  function ColumnStep(v: Column, op: Op): Column
  {
    match op
    case AddPage => Column(v.page + 1, Margin, v.spots)
    case SetFont(_, _, _) => v
    case Ln(h) => v.(y := v.y + h)
    case CellOp(_, h, _, _, newLine, _) =>
      var at := LineStart(v.page, v.y, h);
      Column(at.page, if newLine then at.y + h else at.y, v.spots + [at])
  }

  function ColumnReplay(c: Calls): Column
  {
    match c
    case Start => Column(0, Margin, [])
    case Snoc(before, op) => ColumnStep(ColumnReplay(before), op)
  }

  /** A cell that stays on the line, `ln=False`, of height `h`. */
  predicate Inline(op: Op, h: int)
  {
    op.CellOp? && op.h == h && !op.newLine
  }

  /** Calls that neither write nor move: a font change. */
  lemma FontKeeps(c: Calls, f: Op)
    requires f.SetFont?
    ensures ColumnReplay(c.Then(f)) == ColumnReplay(c)
  {
  }

  /** A cell that ends its line, `ln=True`, of height `h`. */
  predicate LineEnding(op: Op, h: int)
  {
    op.CellOp? && op.h == h && op.newLine
  }

  /** One more call moves the horizontal view by one step. */
  lemma FlowThen(c: Calls, op: Op)
    ensures FlowReplay(c.Then(op)) == FlowStep(FlowReplay(c), op)
  {
  }

  lemma ColumnThen(c: Calls, op: Op)
    ensures ColumnReplay(c.Then(op)) == ColumnStep(ColumnReplay(c), op)
  {
  }

  /** A full-width line of height 10 that fits is written at the cursor,
      and the cursor moves 10 mm down. */
  lemma LineDown(c: Calls, op: Op)
    requires LineEnding(op, 10) && ColumnReplay(c).y + 10 <= BreakTrigger
    ensures var v := ColumnReplay(c);
            ColumnReplay(c.Then(op)) == Column(v.page, v.y + 10, v.spots + [Spot(v.page, v.y)])
  {
    ColumnThen(c, op);
  }

  /** Any one cell of a run, read off its two views. */
  lemma CellAt(c: Calls, i: nat)
    requires i < |Replay(c).cells|
    ensures |ColumnReplay(c).spots| == |FlowReplay(c).boxes| == |Replay(c).cells|
    ensures var at := ColumnReplay(c).spots[i];
            Replay(c).cells[i] == Cell(at.page, at.y, FlowReplay(c).boxes[i])
  {
    CellsFromViews(c);
  }

  /** Two cells side by side land together at `LineStart`. */
  lemma TwoAcross(c: Calls, a: Op, b: Op)
    requires Inline(a, 10) && Inline(b, 10)
    ensures var v := ColumnReplay(c);
            var at := LineStart(v.page, v.y, 10);
            ColumnReplay(c.Then(a).Then(b)) == Column(at.page, at.y, v.spots + [at, at])
  {
    var v := ColumnReplay(c);
    var at := LineStart(v.page, v.y, 10);
    ColumnThen(c, a);
    ColumnThen(c.Then(a), b);
    assert ColumnStep(v, a) == Column(at.page, at.y, v.spots + [at]);
    assert v.spots + [at] + [at] == v.spots + [at, at];
  }

  /** Four cells side by side land together at `LineStart`: the first
      one decides whether the line moves to a new page. */
  lemma FourAcross(c: Calls, a: Op, b: Op, d: Op, e: Op)
    requires Inline(a, 10) && Inline(b, 10) && Inline(d, 10) && Inline(e, 10)
    ensures var v := ColumnReplay(c);
            var at := LineStart(v.page, v.y, 10);
            ColumnReplay(c.Then(a).Then(b).Then(d).Then(e)) == Column(at.page, at.y, v.spots + [at, at, at, at])
  {
    var v := ColumnReplay(c);
    var at := LineStart(v.page, v.y, 10);
    TwoAcross(c, a, b);
    var c2 := c.Then(a).Then(b);
    TwoAcross(c2, d, e);
    assert LineStart(at.page, at.y, 10) == at;
    assert v.spots + [at, at] + [at, at] == v.spots + [at, at, at, at];
  }

  function SpotsOf(cells: seq<Cell>): (ss: seq<Spot>)
    ensures |ss| == |cells|
    ensures forall i :: 0 <= i < |cells| ==> ss[i] == Spot(cells[i].page, cells[i].y)
  {
    seq(|cells|, i requires 0 <= i < |cells| => Spot(cells[i].page, cells[i].y))
  }

  function ColumnOf(s: PageState): Column
  {
    Column(s.page, s.y, SpotsOf(s.cells))
  }

  /** Whatever the cells say and however wide they are, their pages and
      heights are those of the vertical view. */
  lemma {:induction false} ReplayColumn(c: Calls)
    ensures ColumnOf(Replay(c)) == ColumnReplay(c)
  {
    match c
    case Start =>
    case Snoc(before, op) =>
      ReplayColumn(before);
      var m := Replay(before);
      match op
      case CellOp(w, h, text, border, newLine, align) =>
        var t := Step(m, op);
        var last := t.cells[|m.cells|];
        assert t.cells == m.cells + [last];
        assert SpotsOf(t.cells) == SpotsOf(m.cells) + [Spot(last.page, last.y)];
      case _ =>
  }

  /** The cells laid out: the i-th cell has the i-th spot and the i-th box. */
  function Place(spots: seq<Spot>, boxes: seq<Box>): (cells: seq<Cell>)
    requires |spots| == |boxes|
    ensures |cells| == |boxes|
    ensures SpotsOf(cells) == spots && BoxesOf(cells) == boxes
  {
    seq(|boxes|, i requires 0 <= i < |boxes| => Cell(spots[i].page, spots[i].y, boxes[i]))
  }

  /** A run's cells are fixed by its two views. */
  lemma CellsFromViews(c: Calls)
    ensures |ColumnReplay(c).spots| == |FlowReplay(c).boxes| == |Replay(c).cells|
    ensures Replay(c).cells == Place(ColumnReplay(c).spots, FlowReplay(c).boxes)
  {
    ReplayColumn(c);
    ReplayFlow(c);
    var cells := Replay(c).cells;
    assert |SpotsOf(cells)| == |cells|;
    assert forall i :: 0 <= i < |cells| ==> Place(SpotsOf(cells), BoxesOf(cells))[i] == cells[i];
  }

  /** The document object the invoice code writes to. The ghost `calls`
      records every call made on it since construction. */
  class Doc {
    var page: nat
    var x: int
    var y: int
    var font: Option<Font>
    var cells: seq<Cell>
    ghost var calls: Calls

    function State(): PageState
      reads this
    {
      PageState(page, x, y, font, cells)
    }

    /** The fields are the effect of the recorded calls on a new document. */
    ghost predicate Valid()
      reads this
    {
      State() == Replay(calls)
    }

    /** `FPDF()` */
    constructor ()
      ensures Valid() && calls == Start
    {
      page, x, y, font, cells := 0, Margin, Margin, None, [];
      calls := Start;
    }

    /** `pdf.add_page()` */
    method AddPage()
      requires Valid()
      modifies this
      ensures Valid() && calls == old(calls).Then(Op.AddPage)
    {
      page, x, y := page + 1, Margin, Margin;
      calls := calls.Then(Op.AddPage);
    }

    /** `pdf.set_font(family, style, size)` */
    method SetFont(family: string, style: Style, size: nat)
      requires Valid()
      modifies this
      ensures Valid() && calls == old(calls).Then(Op.SetFont(family, style, size))
    {
      font := Some(Font(family, style, size));
      calls := calls.Then(Op.SetFont(family, style, size));
    }

    /** `pdf.cell(w, h, text, border, ln=newLine, align)` */
    method WriteCell(w: int, h: int, text: Text, border: bool, newLine: bool, align: Align)
      requires Valid()
      modifies this
      ensures Valid() && calls == old(calls).Then(CellOp(w, h, text, border, newLine, align))
    {
      ghost var next := Step(State(), CellOp(w, h, text, border, newLine, align));
      if y + h > BreakTrigger {
        page, y := page + 1, Margin;
      }
      var width := if w == 0 then PageWidth - Margin - x else w;
      cells := cells + [Cell(page, y, Box(x, width, h, text, border, align, font))];
      if newLine {
        x, y := Margin, y + h;
      } else {
        x := x + width;
      }
      calls := calls.Then(CellOp(w, h, text, border, newLine, align));
      assert State() == next;
    }

    /** `pdf.ln(h)` */
    method Ln(h: int)
      requires Valid()
      modifies this
      ensures Valid() && calls == old(calls).Then(Op.Ln(h))
    {
      x, y := Margin, y + h;
      calls := calls.Then(Op.Ln(h));
    }
  }
}
