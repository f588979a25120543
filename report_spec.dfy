/**
 * The drawing calls each report function makes, as values: what
 * `add_patient_info`, `add_report_title`, `add_test_table`,
 * `print_if_has_result`, `generate_cbc_report`, `generate_lft_report` and
 * `create_pdf_report` send to the PDF object, in order. The methods of
 * `ReportPdf` are proved to issue exactly these calls.
 */
module ReportSpec {
  import opened Wrappers
  import opened Text
  import opened Decimal
  import opened NormalRange
  import opened Templates
  import opened Sections
  import opened Layout

  /** The patient block's fields; the dates arrive already formatted. */
  datatype PatientInfo = PatientInfo(
    labNo: string, regDate: string, patientName: string, sampleDate: string,
    refBy: string, reportDate: string, sampleCollection: string, sex: string, age: nat)

  function Regular(width: real, height: real, text: string, lineEnd: bool): Op
  {
    Put(Cell(width, height, text, false, lineEnd))
  }

  function Strong(width: real, height: real, text: string, lineEnd: bool): Op
  {
    Put(Cell(width, height, text, true, lineEnd))
  }

  /** One line of the patient block: two label, colon, value triples in bold, the second ending the line. */
  function PatientLineOps(label1: string, value1: string, label2: string, value2: string): seq<Op>
  {
    [Strong(30.0, 5.0, label1, false), Strong(5.0, 5.0, ":", false), Strong(50.0, 5.0, value1, false),
     Strong(30.0, 5.0, label2, false), Strong(5.0, 5.0, ":", false), Strong(50.0, 5.0, value2, true)]
  }

  /** The patient block drawn line by line after `start` is `start` followed by the block. */
  lemma PatientOpsParts(start: seq<Op>, info: PatientInfo)
    ensures start + PatientLineOps("LAB NO.", info.labNo, "REG DATE", info.regDate)
            + PatientLineOps("PATIENT NAME", info.patientName, "SAMPLE DATE", info.sampleDate)
            + PatientLineOps("REF. BY DR.", info.refBy, "REPORT DATE", info.reportDate)
            + PatientLineOps("SAMPLE COLL. AT", info.sampleCollection, "SEX / AGE", SexAge(info))
            + [Feed(5.0)] + [Feed(5.0)]
            == start + PatientOps(info)
  {
    var l1 := PatientLineOps("LAB NO.", info.labNo, "REG DATE", info.regDate);
    var l2 := PatientLineOps("PATIENT NAME", info.patientName, "SAMPLE DATE", info.sampleDate);
    var l3 := PatientLineOps("REF. BY DR.", info.refBy, "REPORT DATE", info.reportDate);
    var l4 := PatientLineOps("SAMPLE COLL. AT", info.sampleCollection, "SEX / AGE", SexAge(info));
    AppendAssoc(start, l1, l2);
    AppendAssoc(start, l1 + l2, l3);
    AppendAssoc(start, l1 + l2 + l3, l4);
    AppendTwo(start + (l1 + l2 + l3 + l4), Feed(5.0), Feed(5.0));
    AppendAssoc(start, l1 + l2 + l3 + l4, [Feed(5.0), Feed(5.0)]);
  }

  /** The text `"{sex} / {age} Years"`. */
  function SexAge(info: PatientInfo): string
  {
    info.sex + " / " + NatToString(info.age) + " Years"
  }

  /** `add_patient_info`: four lines, then the space around the separating rule. */
  function PatientOps(info: PatientInfo): (ops: seq<Op>)
    ensures |ops| == 26
    ensures forall i :: 0 <= i < |ops| && ops[i].Put? ==> ops[i].cell.bold && ops[i].cell.height == 5.0
  {
    PatientLineOps("LAB NO.", info.labNo, "REG DATE", info.regDate)
    + PatientLineOps("PATIENT NAME", info.patientName, "SAMPLE DATE", info.sampleDate)
    + PatientLineOps("REF. BY DR.", info.refBy, "REPORT DATE", info.reportDate)
    + PatientLineOps("SAMPLE COLL. AT", info.sampleCollection, "SEX / AGE", SexAge(info))
    + [Feed(5.0), Feed(5.0)]
  }

  /** The column widths of the table header and of every table row. */
  const ColumnWidths: seq<real> := [60.0, 30.0, 25.0, 75.0]

  /** `add_report_title`: the upper-cased title, then the bold column header row. */
  function TitleOps(title: string): (ops: seq<Op>)
    ensures |ops| == 7
    ensures forall i :: 0 <= i < |ops| && ops[i].Put? ==> ops[i].cell.bold
  {
    var ops := [Strong(0.0, 10.0, Upper(title), true), Feed(6.0)] + HeaderOps + [Feed(2.0)];
    assert ops[2..6] == HeaderOps;
    ops
  }

  /** The bold column header row of `add_report_title`. */
  const HeaderOps: seq<Op> :=
    [Strong(60.0, 8.0, "TEST", false), Strong(30.0, 8.0, "RESULT", false),
     Strong(25.0, 8.0, "UNITS", false), Strong(75.0, 8.0, "NORMAL VALUES", true)]

  /** `str(row['Result'])`, or the empty string for a missing result. */
  function ResultText(r: Row): string
  {
    match r.result
    case Some(s) => s
    case None => ""
  }

  /** The bold rule applied to one row: its result text against the range its Normal Values give. */
  function Abnormal(r: Row): bool
  {
    ResultIsBold(ResultText(r), ParseRange(r.normal))
  }

  /** The four cells of one table row, the result cell in bold exactly when `strong` holds. */
  function RowCells(r: Row, strong: bool): (ops: seq<Op>)
    ensures |ops| == 4
  {
    [Regular(60.0, 5.0, r.test, false),
     Put(Cell(30.0, 5.0, ResultText(r), strong, false)),
     Regular(25.0, 5.0, r.units, false),
     Regular(75.0, 5.0, r.normal, true)]
  }

  /** The four cells of one table row; only the result cell can be bold, and only when the bold rule says so. */
  function RowOps(r: Row): (ops: seq<Op>)
    ensures |ops| == 4
  {
    RowCells(r, Abnormal(r))
  }

  /** The rows of a table, one line of four cells each. */
  function RowsOps(rows: seq<Row>): (ops: seq<Op>)
    ensures |ops| == 4 * |rows|
  {
    LinesLength(rows, RowOps);
    Lines(rows, RowOps)
  }

  /** The optional section heading of `add_test_table`; an absent or empty title prints nothing. */
  function SectionTitleOps(title: Option<string>): seq<Op>
  {
    if title.Some? && title.value != "" then [Strong(0.0, 6.0, Upper(title.value), true), Feed(2.0)] else []
  }

  /** `add_test_table(rows, title)`. */
  function TableOps(rows: seq<Row>, title: Option<string>): (ops: seq<Op>)
    ensures |ops| == |SectionTitleOps(title)| + 4 * |rows| + 1
    ensures ops[|ops| - 1] == Feed(5.0)
  {
    SectionTitleOps(title) + RowsOps(rows) + [Feed(5.0)]
  }

  /** `print_if_has_result` on the rows of one section. */
  function SectionOps(rows: seq<Row>, section: Section): (ops: seq<Op>)
    ensures ops == [] <==> Printed(rows, section) == []
  {
    var kept := Printed(rows, section);
    if kept == [] then [] else TableOps(kept, section.title)
  }

  function SectionsOps(rows: seq<Row>, sections: seq<Section>): seq<Op>
  {
    if sections == [] then [] else SectionOps(rows, sections[0]) + SectionsOps(rows, sections[1..])
  }

  const CbcTitle := "COMPLETE BLOOD COUNT(CBC)"
  const LftTitle := "Liver Function Test (LFT)"
  const CbcInstrument := "Test done on Nihon Kohden MEK- 6420K fully automated cell counter."
  const LftInstrument := "Test Done on semi automated analyser Micro Lab RX-50."

  /** The italic note naming the instrument, and the space after it. */
  function InstrumentOps(note: string): seq<Op>
  {
    [Regular(0.0, 5.0, note, true), Feed(5.0)]
  }

  /** A report generator on its table: the title and header row, the sections in order, then the instrument note. */
  function PanelBodyOps(rows: seq<Row>, title: string, sections: seq<Section>, note: string): seq<Op>
  {
    TitleOps(title) + SectionsOps(rows, sections) + InstrumentOps(note)
  }

  /** The title block, the sections and the note, one after the other, are what a report generator draws. */
  lemma PanelBodyParts(start: seq<Op>, rows: seq<Row>, title: string, sections: seq<Section>, note: string)
    ensures start + TitleOps(title) + SectionsOps(rows, sections) + InstrumentOps(note)
         == start + PanelBodyOps(rows, title, sections, note)
  {
    AppendAssoc(start, TitleOps(title), SectionsOps(rows, sections));
    AppendAssoc(start, TitleOps(title) + SectionsOps(rows, sections), InstrumentOps(note));
  }

  /** `generate_cbc_report` on the CBC table. */
  function CbcOps(rows: seq<Row>): seq<Op>
  {
    PanelBodyOps(rows, CbcTitle, CbcSections, CbcInstrument)
  }

  /** `generate_lft_report` on the LFT table. */
  function LftOps(rows: seq<Row>): seq<Op>
  {
    PanelBodyOps(rows, LftTitle, LftSections, LftInstrument)
  }

  /** Whether a panel has a report generator; the KFT and TFT branches are commented out. */
  predicate Drawn(name: string)
  {
    name == CbcName || name == LftName
  }

  /** Each of the first `n` selected panels that has a generator has a table to read. */
  predicate PresentUpTo(data: map<string, seq<Row>>, selected: seq<string>, n: nat)
  {
    forall i :: 0 <= i < n && i < |selected| && Drawn(selected[i]) ==> selected[i] in data
  }

  /** Every selected panel that has a generator has a table to read. */
  predicate PanelsPresent(data: map<string, seq<Row>>, selected: seq<string>)
  {
    PresentUpTo(data, selected, |selected|)
  }

  /** One more selected panel keeps every drawn panel's table present when its own table is. */
  lemma PresentUpToStep(data: map<string, seq<Row>>, selected: seq<string>, i: nat)
    requires i < |selected| && PresentUpTo(data, selected, i)
    requires Drawn(selected[i]) ==> selected[i] in data
    ensures PresentUpTo(data, selected, i + 1)
  {
  }

  /** A drawn panel without its table leaves the selection without every table present. */
  lemma PanelsPresentStops(data: map<string, seq<Row>>, selected: seq<string>, i: nat)
    requires i < |selected| && Drawn(selected[i]) && selected[i] !in data
    ensures !PanelsPresent(data, selected)
  {
  }

  /** What the report loop draws for one selected panel. */
  function PanelOps(name: string, data: map<string, seq<Row>>): seq<Op>
    requires Drawn(name) ==> name in data
  {
    if name == CbcName then CbcOps(data[CbcName])
    else if name == LftName then LftOps(data[LftName])
    else []
  }

  /** What the loop draws for each selected panel, in order. */
  function PanelsOps(data: map<string, seq<Row>>, selected: seq<string>): (panels: seq<seq<Op>>)
    requires PanelsPresent(data, selected)
    ensures |panels| == |selected|
  {
    seq(|selected|, i requires 0 <= i < |selected| => PanelOps(selected[i], data))
  }

  /** After a panel whose name is not the last one selected: a new page and the patient block `block` again. */
  function SeparatorOps(block: seq<Op>, name: string, last: string): (ops: seq<Op>)
    ensures |ops| == if name != last then |block| + 1 else 0
    ensures name != last ==> ops[0] == NewPage
  {
    if name != last then [NewPage] + block else []
  }

  /**
   * The first `n` rounds of the loop of `create_pdf_report`: round `i` draws
   * `panels[i]` for `selected[i]`, then the separator with the patient block `block`.
   */
  function LoopOps(block: seq<Op>, panels: seq<seq<Op>>, selected: seq<string>, n: nat): seq<Op>
    requires n <= |panels| && n <= |selected|
  {
    if n == 0 then []
    else
      LoopOps(block, panels, selected, n - 1)
      + panels[n - 1]
      + SeparatorOps(block, selected[n - 1], selected[|selected| - 1])
  }

  /** Round `i` of the loop, after the first `i`, gives the first `i + 1`. */
  lemma LoopOpsStep(first: seq<Op>, block: seq<Op>, panels: seq<seq<Op>>, selected: seq<string>, i: nat)
    requires i < |panels| && i < |selected|
    ensures first + LoopOps(block, panels, selected, i) + panels[i] + SeparatorOps(block, selected[i], selected[|selected| - 1])
         == first + LoopOps(block, panels, selected, i + 1)
  {
    var sep := SeparatorOps(block, selected[i], selected[|selected| - 1]);
    AppendAssoc(first, LoopOps(block, panels, selected, i), panels[i]);
    AppendAssoc(first, LoopOps(block, panels, selected, i) + panels[i], sep);
  }

  /** `create_pdf_report`: a first page with the patient block, then the loop over the selected panels. */
  function ReportOps(info: PatientInfo, data: map<string, seq<Row>>, selected: seq<string>): (ops: seq<Op>)
    requires PanelsPresent(data, selected)
    ensures |ops| >= 27 && ops[0] == NewPage && ops[1..27] == PatientOps(info)
  {
    [NewPage] + PatientOps(info) + LoopOps(PatientOps(info), PanelsOps(data, selected), selected, |selected|)
  }

  /** The name of the written file: the patient name with `_` for spaces, then `_`, the time stamp and `.pdf`. */
  function ReportFilename(patientName: string, stamp: string): (f: string)
    ensures |f| == |patientName| + |stamp| + 5
    ensures f[|f| - 4..] == ".pdf"
    ensures ' ' !in stamp ==> ' ' !in f
    ensures forall i :: 0 <= i < |patientName| && patientName[i] != ' ' ==> f[i] == patientName[i]
    ensures forall i :: 0 <= i < |patientName| && patientName[i] == ' ' ==> f[i] == '_'
    ensures f[|patientName|] == '_'
    ensures f[|patientName| + 1..|f| - 4] == stamp
  {
    Replace(patientName, ' ', '_') + "_" + stamp + ".pdf"
  }

  /** The all-cells shape of the rows of a table: four calls per row, row `i` at `4 * i`. */
  lemma RowsOpsShape(rows: seq<Row>)
    ensures forall i :: 0 <= i < |rows| ==> RowsOps(rows)[4 * i..4 * i + 4] == RowOps(rows[i])
  {
    LinesShape(rows, RowOps);
  }

  /** Drawing one more row appends its line. */
  lemma RowsOpsSnoc(rows: seq<Row>, r: Row)
    ensures RowsOps(rows + [r]) == RowsOps(rows) + RowOps(r)
  {
    LinesSnoc(rows, RowOps, r);
  }

  /** Drawing row `i` after the first `i` rows, its result in the font the bold rule gives it, draws the first `i + 1` rows. */
  lemma RowsOpsStep(head: seq<Op>, rows: seq<Row>, i: nat, strong: bool)
    requires i < |rows| && strong == Abnormal(rows[i])
    ensures head + RowsOps(rows[..i]) + RowCells(rows[i], strong) == head + RowsOps(rows[..i + 1])
  {
    assert rows[..i + 1] == rows[..i] + [rows[i]];
    RowsOpsSnoc(rows[..i], rows[i]);
    AppendAssoc(head, RowsOps(rows[..i]), RowOps(rows[i]));
  }

  /** The heading, the rows and the closing space, one after the other, are the calls of `add_test_table`. */
  lemma TableOpsParts(start: seq<Op>, rows: seq<Row>, title: Option<string>)
    ensures start + SectionTitleOps(title) + RowsOps(rows) + [Feed(5.0)] == start + TableOps(rows, title)
  {
    AppendAssoc(start, SectionTitleOps(title), RowsOps(rows));
    AppendAssoc(start, SectionTitleOps(title) + RowsOps(rows), [Feed(5.0)]);
  }

  /**
   * Every row becomes exactly one line of four cells, Test, Result, Units and
   * Normal Values, in the header's widths, whatever its result.
   */
  lemma EveryRowOneLine(rows: seq<Row>)
    ensures |RowsOps(rows)| == 4 * |rows|
    ensures forall k :: 0 <= k < |RowsOps(rows)| ==>
      RowsOps(rows)[k].Put? && RowsOps(rows)[k].cell.height == 5.0
      && RowsOps(rows)[k].cell.width == ColumnWidths[k % 4]
      && (RowsOps(rows)[k].cell.lineEnd <==> k % 4 == 3)
  {
    var ops := RowsOps(rows);
    forall k | 0 <= k < |ops|
      ensures ops[k].Put? && ops[k].cell.height == 5.0 && ops[k].cell.width == ColumnWidths[k % 4]
      ensures ops[k].cell.lineEnd <==> k % 4 == 3
    {
      CallAt(rows, k);
      LineCells(rows[k / 4]);
    }
  }

  /** Row `i`'s line shows its test name, its result text, its units and its normal values, in that order. */
  lemma RowTextsInOrder(rows: seq<Row>)
    ensures forall i :: 0 <= i < |rows| ==>
      RowsOps(rows)[4 * i].Put? && RowsOps(rows)[4 * i + 1].Put?
      && RowsOps(rows)[4 * i + 2].Put? && RowsOps(rows)[4 * i + 3].Put?
      && RowsOps(rows)[4 * i].cell.text == rows[i].test
      && RowsOps(rows)[4 * i + 1].cell.text == ResultText(rows[i])
      && RowsOps(rows)[4 * i + 2].cell.text == rows[i].units
      && RowsOps(rows)[4 * i + 3].cell.text == rows[i].normal
  {
    var ops := RowsOps(rows);
    forall i | 0 <= i < |rows|
      ensures ops[4 * i].Put? && ops[4 * i + 1].Put? && ops[4 * i + 2].Put? && ops[4 * i + 3].Put?
      ensures ops[4 * i].cell.text == rows[i].test && ops[4 * i + 1].cell.text == ResultText(rows[i])
      ensures ops[4 * i + 2].cell.text == rows[i].units && ops[4 * i + 3].cell.text == rows[i].normal
    {
      CallInLine(rows, i, 0);
      CallInLine(rows, i, 1);
      CallInLine(rows, i, 2);
      CallInLine(rows, i, 3);
    }
  }

  /** The only bold cells of a table are results the bold rule marks, one per abnormal row. */
  lemma BoldOnlyWhereAbnormal(rows: seq<Row>)
    ensures forall k :: 0 <= k < |RowsOps(rows)| ==>
      RowsOps(rows)[k].Put? && (RowsOps(rows)[k].cell.bold <==> k % 4 == 1 && Abnormal(rows[k / 4]))
  {
    var ops := RowsOps(rows);
    forall k | 0 <= k < |ops|
      ensures ops[k].Put? && (ops[k].cell.bold <==> k % 4 == 1 && Abnormal(rows[k / 4]))
    {
      CallAt(rows, k);
      LineCells(rows[k / 4]);
    }
  }

  /** The four cells of one line, column by column. */
  lemma LineCells(r: Row)
    ensures forall j :: 0 <= j < 4 ==>
      RowOps(r)[j].Put? && RowOps(r)[j].cell.height == 5.0 && RowOps(r)[j].cell.width == ColumnWidths[j]
      && (RowOps(r)[j].cell.lineEnd <==> j == 3) && (RowOps(r)[j].cell.bold <==> j == 1 && Abnormal(r))
  {
  }

  /** Call `k` of the table is column `k % 4` of row `k / 4`. */
  lemma CallAt(rows: seq<Row>, k: nat)
    requires k < |RowsOps(rows)|
    ensures RowsOps(rows)[k] == RowOps(rows[k / 4])[k % 4]
  {
    var i, j := k / 4, k % 4;
    assert k == 4 * i + j;
    CallInLine(rows, i, j);
  }

  /** Column `j` of row `i` is call `4 * i + j` of the table. */
  lemma CallInLine(rows: seq<Row>, i: nat, j: nat)
    requires i < |rows| && j < 4
    ensures RowsOps(rows)[4 * i + j] == RowOps(rows[i])[j]
  {
    RowsOpsShape(rows);
    var line := RowsOps(rows)[4 * i..4 * i + 4];
    assert line == RowOps(rows[i]);
    assert RowsOps(rows)[4 * i + j] == line[j];
  }

  /** The header row of `add_report_title` has the widths every table row uses, and ends its line. */
  lemma HeaderMatchesRows(title: string)
    ensures forall j :: 0 <= j < 4 ==> TitleOps(title)[2 + j].Put? && TitleOps(title)[2 + j].cell.width == ColumnWidths[j]
    ensures TitleOps(title)[5].cell.lineEnd && !TitleOps(title)[4].cell.lineEnd
  {
    assert TitleOps(title)[2..6] == HeaderOps;
  }

  /** A section prints something exactly when one of its listed rows has a result; otherwise not even its title. */
  lemma EmptySectionPrintsNothing(rows: seq<Row>, section: Section)
    ensures SectionOps(rows, section) == [] <==> forall r :: r in rows && r.test in section.tests ==> !HasResult(r)
  {
    var kept := Printed(rows, section);
    PrintedMembers(rows, section);
    if kept != [] {
      assert kept[0] in kept;
    }
  }

  /** What a printed section draws: its heading when it has one, its kept rows, and the space after the table. */
  lemma PrintedSectionContents(rows: seq<Row>, section: Section)
    requires SectionOps(rows, section) != []
    ensures SectionOps(rows, section)[..|SectionTitleOps(section.title)|] == SectionTitleOps(section.title)
    ensures |SectionOps(rows, section)| == |SectionTitleOps(section.title)| + 4 * |Printed(rows, section)| + 1
    ensures SectionOps(rows, section)[|SectionOps(rows, section)| - 1] == Feed(5.0)
  {
    RowsOpsShape(Printed(rows, section));
  }

  /** A sequence of calls with no `add_page()` in it. */
  predicate NoPageCall(ops: seq<Op>)
  {
    forall i :: 0 <= i < |ops| ==> !ops[i].NewPage?
  }

  lemma {:induction false} NoPageCallCount(ops: seq<Op>)
    requires NoPageCall(ops)
    ensures CountNewPages(ops) == 0
  {
    if ops != [] {
      assert ops[0] == ops[0];
      NoPageCallCount(ops[1..]);
    }
  }

  lemma NoPageCallAppend(a: seq<Op>, b: seq<Op>)
    requires NoPageCall(a) && NoPageCall(b)
    ensures NoPageCall(a + b)
  {
    forall i | 0 <= i < |a + b|
      ensures !(a + b)[i].NewPage?
    {
      if i >= |a| {
        assert (a + b)[i] == b[i - |a|];
      }
    }
  }

  /** A table is headings, cells and line feeds only. */
  lemma TableNoPageCall(rows: seq<Row>, title: Option<string>)
    ensures NoPageCall(TableOps(rows, title))
  {
    EveryRowOneLine(rows);
    NoPageCallAppend(SectionTitleOps(title), RowsOps(rows));
    NoPageCallAppend(SectionTitleOps(title) + RowsOps(rows), [Feed(5.0)]);
  }

  lemma {:induction false} SectionsNoPageCall(rows: seq<Row>, sections: seq<Section>)
    ensures NoPageCall(SectionsOps(rows, sections))
    decreases |sections|
  {
    if sections != [] {
      SectionsNoPageCall(rows, sections[1..]);
      TableNoPageCall(Printed(rows, sections[0]), sections[0].title);
      NoPageCallAppend(SectionOps(rows, sections[0]), SectionsOps(rows, sections[1..]));
    }
  }

  lemma TitleNoPageCall(title: string)
    ensures NoPageCall(TitleOps(title))
  {
  }

  lemma InstrumentNoPageCall(note: string)
    ensures NoPageCall(InstrumentOps(note))
  {
  }

  lemma PanelOpsNoPageCall(title: string, rows: seq<Row>, sections: seq<Section>, note: string)
    ensures NoPageCall(TitleOps(title) + SectionsOps(rows, sections) + InstrumentOps(note))
  {
    SectionsNoPageCall(rows, sections);
    TitleNoPageCall(title);
    InstrumentNoPageCall(note);
    NoPageCallAppend(TitleOps(title), SectionsOps(rows, sections));
    NoPageCallAppend(TitleOps(title) + SectionsOps(rows, sections), InstrumentOps(note));
  }

  /** A report generator never starts a page by itself; only the automatic break can. */
  lemma PanelNoPageCall(name: string, data: map<string, seq<Row>>)
    requires Drawn(name) ==> name in data
    ensures NoPageCall(PanelOps(name, data))
  {
    if name == CbcName {
      PanelOpsNoPageCall(CbcTitle, data[CbcName], CbcSections, CbcInstrument);
    } else if name == LftName {
      PanelOpsNoPageCall(LftTitle, data[LftName], LftSections, LftInstrument);
    }
  }

  lemma PatientNoPageCall(info: PatientInfo)
    ensures NoPageCall(PatientOps(info))
    ensures CountNewPages(PatientOps(info)) == 0
  {
    NoPageCallCount(PatientOps(info));
  }

  /** The number of the first `n` selected panels whose name is not the last selected name. */
  function Breaks(selected: seq<string>, n: nat): nat
    requires n <= |selected|
  {
    if n == 0 then 0
    else Breaks(selected, n - 1) + (if selected[n - 1] != selected[|selected| - 1] then 1 else 0)
  }

  /** No drawing sequence in `panels` starts a page (stated recursively, which keeps the loop proofs cheap). */
  predicate PanelsFree(panels: seq<seq<Op>>)
  {
    panels == [] || (CountNewPages(panels[0]) == 0 && PanelsFree(panels[1..]))
  }

  lemma {:induction false} PanelsFreeAt(panels: seq<seq<Op>>, i: nat)
    requires PanelsFree(panels) && i < |panels|
    ensures CountNewPages(panels[i]) == 0
  {
    if i > 0 {
      PanelsFreeAt(panels[1..], i - 1);
    }
  }

  lemma {:induction false} PanelsFreeFromEach(panels: seq<seq<Op>>)
    requires forall i :: 0 <= i < |panels| ==> CountNewPages(panels[i]) == 0
    ensures PanelsFree(panels)
  {
    if panels != [] {
      PanelsFreeFromEach(panels[1..]);
    }
  }

  lemma {:induction false} LoopPageCalls(block: seq<Op>, panels: seq<seq<Op>>, selected: seq<string>, n: nat)
    requires CountNewPages(block) == 0 && PanelsFree(panels)
    requires n <= |panels| && n <= |selected|
    ensures CountNewPages(LoopOps(block, panels, selected, n)) == Breaks(selected, n)
  {
    if n > 0 {
      LoopPageCalls(block, panels, selected, n - 1);
      PanelsFreeAt(panels, n - 1);
      LoopStep(block, panels, selected, n);
      Telescope(CountNewPages(LoopOps(block, panels, selected, n)), Breaks(selected, n),
        CountNewPages(LoopOps(block, panels, selected, n - 1)), Breaks(selected, n - 1));
    }
  }

  /** One more panel adds as many pages to the loop as it adds to `Breaks`. */
  lemma LoopStep(block: seq<Op>, panels: seq<seq<Op>>, selected: seq<string>, n: nat)
    requires 0 < n <= |panels| && n <= |selected|
    requires CountNewPages(block) == 0 && CountNewPages(panels[n - 1]) == 0
    ensures CountNewPages(LoopOps(block, panels, selected, n)) - Breaks(selected, n)
         == CountNewPages(LoopOps(block, panels, selected, n - 1)) - Breaks(selected, n - 1)
  {
    var a := LoopOps(block, panels, selected, n - 1);
    var c := SeparatorOps(block, selected[n - 1], selected[|selected| - 1]);
    CountNewPagesAppend(a, panels[n - 1]);
    CountNewPagesAppend(a + panels[n - 1], c);
    SeparatorPageCalls(block, selected[n - 1], selected[|selected| - 1]);
  }

  lemma Telescope(now: int, count: int, before: int, countBefore: int)
    requires before == countBefore && now - count == before - countBefore
    ensures now == count
  {
  }

  /** A separator starts exactly one page, and only between two different panels. */
  lemma SeparatorPageCalls(block: seq<Op>, name: string, last: string)
    requires CountNewPages(block) == 0
    ensures CountNewPages(SeparatorOps(block, name, last)) == if name != last then 1 else 0
  {
    if name != last {
      CountNewPagesAppend([NewPage], block);
    }
  }

  /** `create_pdf_report` starts one page, plus one after every panel whose name is not the last selected. */
  lemma ReportPageCalls(info: PatientInfo, data: map<string, seq<Row>>, selected: seq<string>)
    requires PanelsPresent(data, selected)
    ensures CountNewPages(ReportOps(info, data, selected)) == 1 + Breaks(selected, |selected|)
  {
    var block, panels := PatientOps(info), PanelsOps(data, selected);
    PatientNoPageCall(info);
    forall i | 0 <= i < |panels|
      ensures CountNewPages(panels[i]) == 0
    {
      PanelNoPageCall(selected[i], data);
      NoPageCallCount(panels[i]);
    }
    PanelsFreeFromEach(panels);
    LoopPageCalls(block, panels, selected, |selected|);
    CountNewPagesAppend([NewPage], block);
    CountNewPagesAppend([NewPage] + block, LoopOps(block, panels, selected, |selected|));
  }

  lemma {:induction false} BreaksBeforeLast(selected: seq<string>, n: nat)
    requires 1 <= |selected| && n <= |selected| - 1
    requires forall i, j :: 0 <= i < j < |selected| ==> selected[i] != selected[j]
    ensures Breaks(selected, n) == n
  {
    if n > 0 {
      BreaksBeforeLast(selected, n - 1);
    }
  }

  /**
   * With no name selected twice, every selected panel starts on a page of its
   * own: the report calls `add_page()` once per panel, and has at least that
   * many pages.
   */
  lemma OnePagePerPanel(info: PatientInfo, data: map<string, seq<Row>>, selected: seq<string>)
    requires PanelsPresent(data, selected) && |selected| >= 1
    requires forall i, j :: 0 <= i < j < |selected| ==> selected[i] != selected[j]
    ensures CountNewPages(ReportOps(info, data, selected)) == |selected|
    ensures Run(Start, ReportOps(info, data, selected)).page >= |selected|
  {
    ReportPageCalls(info, data, selected);
    BreaksBeforeLast(selected, |selected| - 1);
    PagesAtLeastNewPages(Start, ReportOps(info, data, selected));
  }

  /** The KFT and TFT entries are selectable but dispatch no generator. */
  lemma KftTftDrawNothing(data: map<string, seq<Row>>)
    ensures PanelOps(KftName, data) == [] && PanelOps(TftName, data) == []
  {
    assert KftName != CbcName && KftName != LftName;
    assert TftName != CbcName && TftName != LftName;
  }

  /** The first page: the header leaves the cursor at 40 mm, and the patient block ends 30 mm lower. */
  lemma FirstPatientBlock(info: PatientInfo)
    ensures Run(Start, [NewPage] + PatientOps(info)) == Position(BodyTop + 30.0, 1)
  {
    var p := Run(Start, [NewPage]);
    assert p == Position(BodyTop, 1);
    RunAppend(Start, [NewPage], PatientOps(info));
    PatientBlockFromTop(info, p);
  }

  /** From any position with room for it, the patient block stays on its page and takes 30 mm. */
  lemma PatientBlockFromTop(info: PatientInfo, p: Position)
    requires p.y + 20.0 <= BreakLine
    ensures Run(p, PatientOps(info)) == Position(p.y + 30.0, p.page)
  {
    var l1 := PatientLineOps("LAB NO.", info.labNo, "REG DATE", info.regDate);
    var l2 := PatientLineOps("PATIENT NAME", info.patientName, "SAMPLE DATE", info.sampleDate);
    var l3 := PatientLineOps("REF. BY DR.", info.refBy, "REPORT DATE", info.reportDate);
    var l4 := PatientLineOps("SAMPLE COLL. AT", info.sampleCollection, "SEX / AGE", SexAge(info));
    var feeds := [Feed(5.0), Feed(5.0)];
    var p1, p2, p3, p4 := Position(p.y + 5.0, p.page), Position(p.y + 10.0, p.page), Position(p.y + 15.0, p.page), Position(p.y + 20.0, p.page);
    PatientLineHeight(p, "LAB NO.", info.labNo, "REG DATE", info.regDate);
    PatientLineHeight(p1, "PATIENT NAME", info.patientName, "SAMPLE DATE", info.sampleDate);
    RunThrough(p, l1, l2, p1, p2);
    PatientLineHeight(p2, "REF. BY DR.", info.refBy, "REPORT DATE", info.reportDate);
    RunThrough(p, l1 + l2, l3, p2, p3);
    PatientLineHeight(p3, "SAMPLE COLL. AT", info.sampleCollection, "SEX / AGE", SexAge(info));
    RunThrough(p, l1 + l2 + l3, l4, p3, p4);
    TwoFeeds(p4, 5.0);
    RunThrough(p, l1 + l2 + l3 + l4, feeds, p4, Position(p.y + 30.0, p.page));
  }

  lemma RunThrough(p: Position, a: seq<Op>, b: seq<Op>, q: Position, r: Position)
    requires Run(p, a) == q && Run(q, b) == r
    ensures Run(p, a + b) == r
  {
    RunAppend(p, a, b);
  }

  lemma TwoFeeds(p: Position, h: real)
    ensures Run(p, [Feed(h), Feed(h)]) == Position(p.y + 2.0 * h, p.page)
  {
    RunSnoc(p, [Feed(h)], Feed(h));
    assert [Feed(h)] + [Feed(h)] == [Feed(h), Feed(h)];
  }

  /** One line of the patient block moves the cursor down 5 mm when it fits. */
  lemma PatientLineHeight(p: Position, label1: string, value1: string, label2: string, value2: string)
    requires p.y + 5.0 <= BreakLine
    ensures Run(p, PatientLineOps(label1, value1, label2, value2)) == Position(p.y + 5.0, p.page)
  {
    OneLine(p, PatientLineOps(label1, value1, label2, value2), 5.0);
  }
}
