/**
 * `LabReportPDF` and the functions that draw a report with it. The object
 * keeps the vertical position of the cursor, the number of pages started, the
 * weight of the current font and the drawing calls made so far; every method
 * is proved to append exactly the calls `ReportSpec` lists for it, and the
 * position and page count always agree with the layout rules of `Layout`.
 */
module ReportPdf {
  import opened Wrappers
  import opened Text
  import opened Decimal
  import opened NormalRange
  import opened Templates
  import opened Sections
  import opened Layout
  import opened ReportSpec

  /** One more drawing call moves the position by one step of the layout rules. */
  lemma Extend(ops: seq<Op>, op: Op, p: Position)
    requires Run(Start, ops) == p
    ensures Run(Start, ops + [op]) == Step(p, op)
  {
    RunSnoc(Start, ops, op);
  }

  class LabReportPdf {
    /** The vertical position of the cursor on the current page, in millimetres. */
    var y: real
    /** The number of pages started. */
    var page: nat
    /** Whether the current font is bold. */
    var bold: bool
    /** The drawing calls made so far, in order. */
    var ops: seq<Op>

    /** The cursor and the page count are where the calls made so far leave them. */
    ghost predicate Valid()
      reads this
    {
      Position(y, page) == Run(Start, ops)
    }

    /** `LabReportPDF()`: an empty document with the automatic page break 60 mm above the bottom edge. */
    constructor ()
      ensures Valid() && ops == [] && !bold
      ensures page == 0
    {
      y := TopMargin;
      page := 0;
      bold := false;
      ops := [];
    }

    /** `add_page()`: a new page, whose header leaves the cursor at the top of the body. */
    method AddPage()
      requires Valid()
      modifies this
      ensures Valid() && ops == old(ops) + [NewPage] && bold == old(bold)
      ensures page == old(page) + 1 && y == BodyTop
    {
      Extend(ops, NewPage, Position(y, page));
      ops := ops + [NewPage];
      page := page + 1;
      y := BodyTop;
    }

    /** `ln(h)`: move the cursor down by `h`. */
    method Ln(h: real)
      requires Valid()
      modifies this
      ensures Valid() && ops == old(ops) + [Feed(h)] && bold == old(bold)
      ensures y == old(y) + h && page == old(page)
    {
      Extend(ops, Feed(h), Position(y, page));
      ops := ops + [Feed(h)];
      y := y + h;
    }

    /** `set_font(...)`, reduced to what the report depends on: bold or not. */
    method SetBold(b: bool)
      modifies this`bold
      ensures bold == b
    {
      bold := b;
    }

    /**
     * `cell(w, h, text, 0, ln)` in the current font. A cell whose bottom
     * would pass the break line first starts a new page; a cell that ends its
     * line moves the cursor down by its height.
     */
    method DrawCell(w: real, h: real, text: string, lineEnd: bool)
      requires Valid()
      modifies this
      ensures Valid() && bold == old(bold)
      ensures ops == old(ops) + [Put(Cell(w, h, text, old(bold), lineEnd))]
    {
      var c := Cell(w, h, text, bold, lineEnd);
      Extend(ops, Put(c), Position(y, page));
      if y + h > BreakLine {
        page := page + 1;
        y := BodyTop;
      }
      if lineEnd {
        y := y + h;
      }
      ops := ops + [Put(c)];
    }

    /**
     * `check_page_break(h)`: starts a new page, and answers true, exactly when
     * `h` more millimetres would pass the page height less the 60 mm kept for
     * the footer; otherwise nothing changes.
     */
    method CheckPageBreak(needed: real) returns (broke: bool)
      requires Valid()
      modifies this
      ensures Valid() && bold == old(bold)
      ensures broke <==> old(y) + needed > PageHeight - 60.0
      ensures broke ==> ops == old(ops) + [NewPage] && page == old(page) + 1 && y == BodyTop
      ensures !broke ==> ops == old(ops) && page == old(page) && y == old(y)
    {
      broke := y + needed > PageHeight - 60.0;
      if broke {
        AddPage();
      }
    }

    /**
     * `add_report_section(title, estimate)`: a page break when the estimate
     * does not fit, then the upper-cased title in bold and 3 mm of space.
     * With an estimate of at least the title's 8 mm the title itself never
     * triggers a second break.
     */
    method AddReportSection(title: string, estimate: real)
      requires Valid()
      modifies this
      ensures Valid() && bold
      ensures ops == old(ops) + (if old(y) + estimate > BreakLine then [NewPage] else [])
                     + [Strong(0.0, 8.0, Upper(title), true), Feed(3.0)]
      ensures estimate >= 8.0 ==> page == old(page) + (if old(y) + estimate > BreakLine then 1 else 0)
    {
      var _ := CheckPageBreak(estimate);
      SetBold(true);
      DrawCell(0.0, 8.0, Upper(title), true);
      Ln(3.0);
    }

    /** `add_report_title(title)`: the title and the column header row; answers the position after them. */
    method AddReportTitle(title: string) returns (yAfter: real)
      requires Valid()
      modifies this
      ensures Valid() && bold
      ensures ops == old(ops) + TitleOps(title)
      ensures yAfter == y
    {
      SetBold(true);
      DrawCell(0.0, 10.0, Upper(title), true);
      Ln(6.0);
      SetBold(true);
      HeaderRow();
      Ln(2.0);
      yAfter := y;
    }

    /** The column header row of `add_report_title`, in the current bold font. */
    method HeaderRow()
      requires Valid() && bold
      modifies this
      ensures Valid() && bold
      ensures ops == old(ops) + HeaderOps
    {
      DrawCell(60.0, 8.0, "TEST", false);
      DrawCell(30.0, 8.0, "RESULT", false);
      DrawCell(25.0, 8.0, "UNITS", false);
      DrawCell(75.0, 8.0, "NORMAL VALUES", true);
    }

    /** The instrument note closing a report, in italics, which are not bold, and the space after it. */
    method AddInstrumentNote(note: string)
      requires Valid()
      modifies this
      ensures Valid() && !bold
      ensures ops == old(ops) + InstrumentOps(note)
    {
      SetBold(false);
      DrawCell(0.0, 5.0, note, true);
      Ln(5.0);
    }

    /** One line of `add_patient_info`. */
    method PatientLine(label1: string, value1: string, label2: string, value2: string)
      requires Valid() && bold
      modifies this
      ensures Valid() && bold
      ensures ops == old(ops) + PatientLineOps(label1, value1, label2, value2)
    {
      DrawCell(30.0, 5.0, label1, false);
      DrawCell(5.0, 5.0, ":", false);
      DrawCell(50.0, 5.0, value1, false);
      DrawCell(30.0, 5.0, label2, false);
      DrawCell(5.0, 5.0, ":", false);
      DrawCell(50.0, 5.0, value2, true);
    }

    /**
     * `add_patient_info(info)`: four bold lines and the space around the rule
     * under them; with 20 mm of room the block stays on its page and takes 30 mm.
     */
    method AddPatientInfo(info: PatientInfo)
      requires Valid()
      modifies this
      ensures Valid() && bold
      ensures ops == old(ops) + PatientOps(info)
      ensures old(y) + 20.0 <= BreakLine ==> y == old(y) + 30.0 && page == old(page)
    {
      ghost var start := ops;
      SetBold(true);
      PatientLine("LAB NO.", info.labNo, "REG DATE", info.regDate);
      PatientLine("PATIENT NAME", info.patientName, "SAMPLE DATE", info.sampleDate);
      PatientLine("REF. BY DR.", info.refBy, "REPORT DATE", info.reportDate);
      PatientLine("SAMPLE COLL. AT", info.sampleCollection, "SEX / AGE", SexAge(info));
      Ln(5.0);
      Ln(5.0);
      PatientOpsParts(start, info);
      RunAppend(Start, start, PatientOps(info));
      if old(y) + 20.0 <= BreakLine {
        PatientBlockFromTop(info, Run(Start, start));
      }
    }

    /**
     * One round of the loop of `add_test_table`: the test name, the result
     * in bold when `strong` holds and in the regular font otherwise, the units
     * and the normal values.
     */
    method DrawRow(r: Row, strong: bool)
      requires Valid() && !bold
      modifies this
      ensures Valid() && !bold
      ensures ops == old(ops) + RowCells(r, strong)
    {
      DrawCell(60.0, 5.0, r.test, false);
      SetBold(strong);
      DrawCell(30.0, 5.0, ResultText(r), false);
      SetBold(false);
      DrawCell(25.0, 5.0, r.units, false);
      DrawCell(75.0, 5.0, r.normal, true);
    }

    /** The heading of `add_test_table`: the title upper-cased in bold with 2 mm below it, when there is a non-empty one. */
    method AddSectionTitle(title: Option<string>)
      requires Valid()
      modifies this
      ensures Valid()
      ensures ops == old(ops) + SectionTitleOps(title)
      ensures bold == if title.Some? && title.value != "" then true else old(bold)
    {
      if title.Some? && title.value != "" {
        ghost var before := ops;
        SetBold(true);
        DrawCell(0.0, 6.0, Upper(title.value), true);
        Ln(2.0);
        AppendTwo(before, Strong(0.0, 6.0, Upper(title.value), true), Feed(2.0));
      }
    }

    /** The loop of `add_test_table`: one line per row, in order, each result in the font the bold rule gives it. */
    method DrawRows(rows: seq<Row>)
      requires Valid() && !bold
      modifies this
      ensures Valid() && !bold
      ensures ops == old(ops) + RowsOps(rows)
    {
      var i := 0;
      while i < |rows|
        invariant i <= |rows| && Valid() && !bold
        invariant ops == old(ops) + RowsOps(rows[..i])
      {
        var r := rows[i];
        var strong := ResultIsBold(ResultText(r), ParseRange(r.normal));
        DrawRow(r, strong);
        RowsOpsStep(old(ops), rows, i, strong);
        i := i + 1;
      }
      assert rows[..i] == rows;
    }

    /**
     * `add_test_table(rows, title)`: the optional heading, one line per row
     * with the result in the font the bold rule gives it, then 5 mm of space.
     */
    method AddTestTable(rows: seq<Row>, title: Option<string>)
      requires Valid()
      modifies this
      ensures Valid() && !bold
      ensures ops == old(ops) + TableOps(rows, title)
    {
      AddSectionTitle(title);
      SetBold(false);
      DrawRows(rows);
      Ln(5.0);
      TableOpsParts(old(ops), rows, title);
    }
  }

  /** `print_if_has_result(subset, title)` on the rows of one section: a table only when a listed row has a result. */
  method PrintIfHasResult(pdf: LabReportPdf, rows: seq<Row>, section: Section)
    requires pdf.Valid()
    modifies pdf
    ensures pdf.Valid()
    ensures pdf.ops == old(pdf.ops) + SectionOps(rows, section)
  {
    var subset := Printed(rows, section);
    if subset != [] {
      pdf.AddTestTable(subset, section.title);
    }
  }

  /** The `print_if_has_result` calls of a report generator, one per section in order. */
  method PrintSections(pdf: LabReportPdf, rows: seq<Row>, sections: seq<Section>)
    requires pdf.Valid()
    modifies pdf
    ensures pdf.Valid()
    ensures pdf.ops == old(pdf.ops) + SectionsOps(rows, sections)
  {
    var k := 0;
    while k < |sections|
      invariant k <= |sections| && pdf.Valid()
      invariant old(pdf.ops) + SectionsOps(rows, sections) == pdf.ops + SectionsOps(rows, sections[k..])
    {
      ghost var before := pdf.ops;
      PrintIfHasResult(pdf, rows, sections[k]);
      assert sections[k..][1..] == sections[k + 1..];
      AppendAssoc(before, SectionOps(rows, sections[k]), SectionsOps(rows, sections[k + 1..]));
      k := k + 1;
    }
  }

  /** The body of a report generator: the title and header row, the sections, then the instrument note. */
  method DrawPanel(pdf: LabReportPdf, rows: seq<Row>, title: string, sections: seq<Section>, note: string)
    requires pdf.Valid()
    modifies pdf
    ensures pdf.Valid()
    ensures pdf.ops == old(pdf.ops) + PanelBodyOps(rows, title, sections, note)
  {
    ghost var start := pdf.ops;
    var _ := pdf.AddReportTitle(title);
    PrintSections(pdf, rows, sections);
    pdf.AddInstrumentNote(note);
    PanelBodyParts(start, rows, title, sections, note);
  }

  /** `generate_cbc_report`: fails, drawing nothing, when the data holds no CBC table. */
  method GenerateCbcReport(pdf: LabReportPdf, reportData: map<string, seq<Row>>) returns (found: bool)
    requires pdf.Valid()
    modifies pdf
    ensures pdf.Valid()
    ensures found <==> CbcName in reportData
    ensures found ==> pdf.ops == old(pdf.ops) + CbcOps(reportData[CbcName])
    ensures !found ==> pdf.ops == old(pdf.ops)
  {
    found := CbcName in reportData;
    if found {
      DrawPanel(pdf, reportData[CbcName], CbcTitle, CbcSections, CbcInstrument);
    }
  }

  /** `generate_lft_report`: fails, drawing nothing, when the data holds no LFT table. */
  method GenerateLftReport(pdf: LabReportPdf, reportData: map<string, seq<Row>>) returns (found: bool)
    requires pdf.Valid()
    modifies pdf
    ensures pdf.Valid()
    ensures found <==> LftName in reportData
    ensures found ==> pdf.ops == old(pdf.ops) + LftOps(reportData[LftName])
    ensures !found ==> pdf.ops == old(pdf.ops)
  {
    found := LftName in reportData;
    if found {
      DrawPanel(pdf, reportData[LftName], LftTitle, LftSections, LftInstrument);
    }
  }

  /** What the report loop draws for a panel, or nothing for one whose table is missing. */
  function Attempted(name: string, data: map<string, seq<Row>>): seq<Op>
  {
    if Drawn(name) && name !in data then [] else PanelOps(name, data)
  }

  /** What the report loop draws for each selected panel, a missing table drawing nothing. */
  function AttemptedOps(data: map<string, seq<Row>>, selected: seq<string>): (panels: seq<seq<Op>>)
    ensures |panels| == |selected|
  {
    seq(|selected|, k requires 0 <= k < |selected| => Attempted(selected[k], data))
  }

  /** `panels` lists, for each selected panel in turn, what the report loop draws for it. */
  ghost predicate Attempts(panels: seq<seq<Op>>, data: map<string, seq<Row>>, selected: seq<string>)
  {
    |panels| == |selected|
    && forall k {:trigger Attempted(selected[k], data)} :: 0 <= k < |selected| ==> panels[k] == Attempted(selected[k], data)
  }

  /** With every drawn panel's table present, the attempts are the panels of the report. */
  lemma AttemptedAllPresent(data: map<string, seq<Row>>, selected: seq<string>)
    requires PanelsPresent(data, selected)
    ensures AttemptedOps(data, selected) == PanelsOps(data, selected)
  {
    var a, p := AttemptedOps(data, selected), PanelsOps(data, selected);
    forall k | 0 <= k < |selected|
      ensures a[k] == p[k]
    {
      assert Drawn(selected[k]) ==> selected[k] in data;
    }
  }

  /** One round of the loop of `create_pdf_report` before its page break: the generator the name dispatches to, if any. */
  method DrawSelectedPanel(pdf: LabReportPdf, reportData: map<string, seq<Row>>, name: string) returns (found: bool)
    requires pdf.Valid()
    modifies pdf
    ensures pdf.Valid()
    ensures found <==> (Drawn(name) ==> name in reportData)
    ensures pdf.ops == old(pdf.ops) + Attempted(name, reportData)
  {
    if name == CbcName {
      found := GenerateCbcReport(pdf, reportData);
    } else if name == LftName {
      found := GenerateLftReport(pdf, reportData);
    } else {
      found := true;
    }
  }

  /** The end of a round of the loop of `create_pdf_report`: a new page and the patient block unless `name` is the last one selected. */
  method Separate(pdf: LabReportPdf, info: PatientInfo, name: string, last: string)
    requires pdf.Valid()
    modifies pdf
    ensures pdf.Valid()
    ensures pdf.ops == old(pdf.ops) + SeparatorOps(PatientOps(info), name, last)
  {
    if name != last {
      ghost var before := pdf.ops;
      pdf.AddPage();
      pdf.AddPatientInfo(info);
      AppendAssoc(before, [NewPage], PatientOps(info));
    }
  }

  /** What `create_pdf_report` ends with: the name of the written file, or the panel whose table was missing. */
  datatype Outcome = Written(filename: string) | MissingPanel(name: string)

  /** The first `i` rounds of the loop of `create_pdf_report` drew their panels after `start`, none of them missing. */
  ghost predicate RoundsDone(ops: seq<Op>, start: seq<Op>, info: PatientInfo, data: map<string, seq<Row>>,
                             selected: seq<string>, panels: seq<seq<Op>>, i: nat)
  {
    i <= |selected| && |panels| == |selected| && PresentUpTo(data, selected, i)
    && ops == start + LoopOps(PatientOps(info), panels, selected, i)
  }

  /**
   * Round `i` of the loop of `create_pdf_report`: the panel `selected[i]`,
   * then the page break and patient block unless it is the last name
   * selected. It fails, having drawn nothing more, when the panel has a
   * generator but no table.
   */
  method DrawRound(pdf: LabReportPdf, info: PatientInfo, reportData: map<string, seq<Row>>, selected: seq<string>,
                   i: nat, ghost start: seq<Op>, ghost panels: seq<seq<Op>>)
    returns (found: bool)
    requires i < |selected| && pdf.Valid() && Attempts(panels, reportData, selected)
    requires RoundsDone(pdf.ops, start, info, reportData, selected, panels, i)
    modifies pdf
    ensures pdf.Valid()
    ensures found ==> RoundsDone(pdf.ops, start, info, reportData, selected, panels, i + 1)
    ensures !found ==> Drawn(selected[i]) && selected[i] !in reportData && !PanelsPresent(reportData, selected)
  {
    var name := selected[i];
    found := DrawSelectedPanel(pdf, reportData, name);
    if found {
      PresentUpToStep(reportData, selected, i);
      Separate(pdf, info, name, selected[|selected| - 1]);
      LoopOpsStep(start, PatientOps(info), panels, selected, i);
    } else {
      PanelsPresentStops(reportData, selected, i);
    }
  }

  /**
   * The loop of `create_pdf_report` over the selected panels, after the first
   * patient block `PatientOps(info)`: it stops at the first selected panel that
   * has a generator but no table, and otherwise draws every panel in turn,
   * `panels` listing what each one draws.
   */
  method DrawPanels(pdf: LabReportPdf, info: PatientInfo, reportData: map<string, seq<Row>>, selected: seq<string>,
                    ghost panels: seq<seq<Op>>)
    returns (missing: Option<string>)
    requires pdf.Valid() && Attempts(panels, reportData, selected)
    modifies pdf
    ensures pdf.Valid()
    ensures missing.None? ==> RoundsDone(pdf.ops, old(pdf.ops), info, reportData, selected, panels, |selected|)
    ensures missing.Some? ==> missing.value in selected && Drawn(missing.value) && missing.value !in reportData
    ensures missing.Some? ==> !PanelsPresent(reportData, selected)
  {
    ghost var start := pdf.ops;
    var i := 0;
    while i < |selected|
      invariant pdf.Valid() && RoundsDone(pdf.ops, start, info, reportData, selected, panels, i)
    {
      var found := DrawRound(pdf, info, reportData, selected, i, start, panels);
      if !found {
        return Some(selected[i]);
      }
      i := i + 1;
    }
    missing := None;
  }

  /**
   * `create_pdf_report(info, data, selected)`, with the time stamp of the file
   * name as a parameter. The report is written exactly when every selected
   * panel that has a generator has its table; it then holds the drawing calls
   * `ReportOps` lists, and with no panel selected twice it has a page per panel.
   */
  method CreatePdfReport(info: PatientInfo, reportData: map<string, seq<Row>>, selected: seq<string>, stamp: string)
    returns (pdf: LabReportPdf, outcome: Outcome)
    ensures pdf.Valid()
    ensures outcome.Written? <==> PanelsPresent(reportData, selected)
    ensures outcome.Written? ==> pdf.ops == ReportOps(info, reportData, selected)
    ensures outcome.Written? ==> outcome.filename == ReportFilename(info.patientName, stamp)
    ensures outcome.Written? && |selected| >= 1 && (forall i, j :: 0 <= i < j < |selected| ==> selected[i] != selected[j])
            ==> pdf.page >= |selected|
    ensures outcome.MissingPanel? ==> outcome.name in selected && Drawn(outcome.name) && outcome.name !in reportData
  {
    pdf := new LabReportPdf();
    pdf.AddPage();
    pdf.AddPatientInfo(info);
    ghost var panels := AttemptedOps(reportData, selected);
    var missing := DrawPanels(pdf, info, reportData, selected, panels);
    if missing.Some? {
      outcome := MissingPanel(missing.value);
      return;
    }
    AttemptedAllPresent(reportData, selected);
    outcome := Written(ReportFilename(info.patientName, stamp));
    if |selected| >= 1 && forall i, j :: 0 <= i < j < |selected| ==> selected[i] != selected[j] {
      OnePagePerPanel(info, reportData, selected);
    }
  }
}
