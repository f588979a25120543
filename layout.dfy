/**
 * What the report draws and where it lands. The report code issues three
 * kinds of drawing calls on the PDF object: `add_page()`, `cell(...)` and
 * `ln(h)`. Their effect on the vertical position and the page count is a
 * small state machine; `cell` inherits the automatic page break switched on
 * in `LabReportPDF.__init__`.
 */
module Layout {

  /** The PDF library's default top margin, taken as a whole 10 millimetres. */
  const TopMargin: real := 10.0
  /** The height of an A4 page, the library's default format, taken as a whole 297 millimetres. */
  const PageHeight: real := 297.0
  /** The bottom margin `set_auto_page_break(auto=True, margin=60)` reserves for the footer. */
  const FooterMargin: real := 60.0
  /** `header()` advances by `ln(25)` and `ln(5)` around its rule. */
  const HeaderHeight: real := 25.0 + 5.0
  /** Where the body of every page starts once the header is drawn. */
  const BodyTop: real := TopMargin + HeaderHeight
  /** A cell whose bottom would pass this line starts a new page. */
  const BreakLine: real := PageHeight - FooterMargin

  /** One `cell(w, h, text, border, ln)` call, with the weight of the font it was drawn in. */
  datatype Cell = Cell(width: real, height: real, text: string, bold: bool, lineEnd: bool)

  /** A drawing call the report makes: `add_page()`, `cell(...)` or `ln(h)`. */
  datatype Op = NewPage | Put(cell: Cell) | Feed(height: real)

  /** The current vertical position and the number of pages started so far. */
  datatype Position = Position(y: real, page: nat)

  /** A freshly created document: no page yet, the cursor at the top margin. */
  const Start: Position := Position(TopMargin, 0)

  /** `add_page()`: a new page whose header has already been drawn. */
  function NextPage(p: Position): (q: Position)
    ensures q.page == p.page + 1 && q.y == BodyTop
  {
    Position(BodyTop, p.page + 1)
  }

  /** Where a cell is drawn: here, or at the top of a new page when its bottom would pass the break line. */
  function Placement(p: Position, c: Cell): (q: Position)
    ensures q.page == p.page <==> p.y + c.height <= BreakLine
    ensures q.page == p.page ==> q == p
    ensures q.page <= p.page + 1
  {
    if p.y + c.height > BreakLine then NextPage(p) else p
  }

  /** The position after one drawing call: only `add_page()` always starts a page, and no call starts more than one. */
  function Step(p: Position, op: Op): (q: Position)
    ensures p.page <= q.page <= p.page + 1
    ensures op.NewPage? ==> q.page == p.page + 1
    ensures op.Feed? ==> q.page == p.page
  {
    match op
    case NewPage => NextPage(p)
    case Feed(h) => Position(p.y + h, p.page)
    case Put(c) =>
      var at := Placement(p, c);
      if c.lineEnd then Position(at.y + c.height, at.page) else at
  }

  /** The position after a sequence of drawing calls. */
  function Run(p: Position, ops: seq<Op>): (q: Position)
    ensures q.page >= p.page
  {
    if ops == [] then p else Step(Run(p, ops[..|ops| - 1]), ops[|ops| - 1])
  }

  /** No call starts more than one page. */
  lemma {:induction false} RunPagesAtMostCalls(p: Position, ops: seq<Op>)
    ensures Run(p, ops).page <= p.page + |ops|
    decreases |ops|
  {
    if ops != [] {
      RunPagesAtMostCalls(p, ops[..|ops| - 1]);
    }
  }

  lemma RunSnoc(p: Position, ops: seq<Op>, op: Op)
    ensures Run(p, ops + [op]) == Step(Run(p, ops), op)
  {
    assert (ops + [op])[..|ops|] == ops;
  }

  /** Running two sequences of calls one after the other is running their concatenation. */
  lemma {:induction false} RunAppend(p: Position, a: seq<Op>, b: seq<Op>)
    ensures Run(p, a + b) == Run(Run(p, a), b)
    decreases |b|
  {
    if b == [] {
      assert a + b == a;
    } else {
      var init := b[..|b| - 1];
      assert a + b == (a + init) + [b[|b| - 1]];
      RunSnoc(p, a + init, b[|b| - 1]);
      RunAppend(p, a, init);
      RunSnoc(Run(p, a), init, b[|b| - 1]);
      assert init + [b[|b| - 1]] == b;
    }
  }

  /** Cells of height `h` that do not end the line, drawn where they fit, leave the cursor where it was. */
  lemma {:induction false} CellsInPlace(p: Position, ops: seq<Op>, h: real)
    requires forall i :: 0 <= i < |ops| ==> ops[i].Put? && ops[i].cell.height == h && !ops[i].cell.lineEnd
    requires p.y + h <= BreakLine
    ensures Run(p, ops) == p
    decreases |ops|
  {
    if ops != [] {
      var init := ops[..|ops| - 1];
      CellsInPlace(p, init, h);
      RunSnoc(p, init, ops[|ops| - 1]);
      assert ops == init + [ops[|ops| - 1]];
    }
  }

  /** A line of cells of height `h`, only the last ending the line, that fits above the break line moves the cursor down by `h`. */
  lemma OneLine(p: Position, ops: seq<Op>, h: real)
    requires ops != []
    requires forall i :: 0 <= i < |ops| ==>
      ops[i].Put? && ops[i].cell.height == h && (ops[i].cell.lineEnd <==> i == |ops| - 1)
    requires p.y + h <= BreakLine
    ensures Run(p, ops) == Position(p.y + h, p.page)
  {
    var init := ops[..|ops| - 1];
    CellsInPlace(p, init, h);
    RunSnoc(p, init, ops[|ops| - 1]);
    assert ops == init + [ops[|ops| - 1]];
  }

  /** The calls that draw a table of four columns: those of each row in turn, as `line` draws it. */
  function Lines<T>(rows: seq<T>, line: T -> seq<Op>): seq<Op>
  {
    if rows == [] then [] else Lines(rows[..|rows| - 1], line) + line(rows[|rows| - 1])
  }

  lemma LinesSnoc<T>(rows: seq<T>, line: T -> seq<Op>, r: T)
    ensures Lines(rows + [r], line) == Lines(rows, line) + line(r)
  {
    assert (rows + [r])[..|rows|] == rows;
  }

  /** Concatenation regroups freely. */
  lemma AppendAssoc(a: seq<Op>, b: seq<Op>, c: seq<Op>)
    ensures a + b + c == a + (b + c)
  {
  }

  /** Two calls appended one after the other are the pair appended at once. */
  lemma AppendTwo(a: seq<Op>, x: Op, y: Op)
    ensures a + [x] + [y] == a + [x, y]
  {
  }

  /** The lines of the first `n` rows are those of the first `n - 1` and then row `n - 1`'s. */
  lemma LinesTake<T>(rows: seq<T>, line: T -> seq<Op>, n: nat)
    requires 0 < n <= |rows|
    ensures Lines(rows[..n], line) == Lines(rows[..n - 1], line) + line(rows[n - 1])
  {
    assert rows[..n][..n - 1] == rows[..n - 1];
  }

  lemma {:induction false} LinesLength<T>(rows: seq<T>, line: T -> seq<Op>)
    requires forall r :: |line(r)| == 4
    ensures |Lines(rows, line)| == 4 * |rows|
    decreases |rows|
  {
    if rows != [] {
      LinesLength(rows[..|rows| - 1], line);
    }
  }

  /** Row `i` of a table is drawn by calls `4 * i` to `4 * i + 3`. */
  lemma {:induction false} LinesShape<T>(rows: seq<T>, line: T -> seq<Op>)
    requires forall r :: |line(r)| == 4
    ensures |Lines(rows, line)| == 4 * |rows|
    ensures forall i :: 0 <= i < |rows| ==> Lines(rows, line)[4 * i..4 * i + 4] == line(rows[i])
    decreases |rows|
  {
    LinesLength(rows, line);
    if rows != [] {
      var init := rows[..|rows| - 1];
      LinesShape(init, line);
      forall i | 0 <= i < |rows|
        ensures Lines(rows, line)[4 * i..4 * i + 4] == line(rows[i])
      {
        LinesLength(init, line);
        var a, b := Lines(init, line), line(rows[|rows| - 1]);
        if i < |rows| - 1 {
          assert rows[i] == init[i];
          assert a[4 * i..4 * i + 4] == line(rows[i]);
          PrefixSlice(a, b, 4 * i, 4 * i + 4);
        } else {
          SuffixSlice(a, b, |rows| - 1);
        }
      }
    }
  }

  lemma PrefixSlice(a: seq<Op>, b: seq<Op>, lo: nat, hi: nat)
    requires lo <= hi <= |a|
    ensures (a + b)[lo..hi] == a[lo..hi]
  {
  }

  lemma SuffixSlice(a: seq<Op>, b: seq<Op>, m: nat)
    requires |a| == 4 * m && |b| == 4
    ensures (a + b)[4 * m..4 * m + 4] == b
  {
    assert (a + b)[|a|..|a| + |b|] == b;
  }

  /** The number of explicit `add_page()` calls. */
  function CountNewPages(ops: seq<Op>): nat
  {
    if ops == [] then 0 else (if ops[0].NewPage? then 1 else 0) + CountNewPages(ops[1..])
  }

  lemma {:induction false} CountNewPagesAppend(a: seq<Op>, b: seq<Op>)
    ensures CountNewPages(a + b) == CountNewPages(a) + CountNewPages(b)
  {
    if a == [] {
      assert a + b == b;
    } else {
      assert (a + b)[1..] == a[1..] + b;
      CountNewPagesAppend(a[1..], b);
    }
  }

  /** Pages never go away: a sequence of calls ends with at least one more page per `add_page()`. */
  lemma {:induction false} PagesAtLeastNewPages(p: Position, ops: seq<Op>)
    ensures Run(p, ops).page >= p.page + CountNewPages(ops)
    decreases |ops|
  {
    if ops != [] {
      var init, last := ops[..|ops| - 1], ops[|ops| - 1];
      assert ops == init + [last];
      PagesAtLeastNewPages(p, init);
      CountNewPagesAppend(init, [last]);
    }
  }

  /** A cell no taller than a page body never reaches into the footer margin. */
  lemma CellStaysAboveFooter(p: Position, c: Cell)
    requires 0.0 <= c.height <= BreakLine - BodyTop
    ensures Placement(p, c).y + c.height <= BreakLine
  {
  }
}
