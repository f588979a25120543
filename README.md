# Lab report generator: the report-drawing core

A model of the report-drawing core of `lab_report_generator.py`: the part of
the lab report generator that turns a patient record and the filled-in test
tables of the selected panels (CBC, LFT, KFT, TFT) into a PDF.

The model covers five things:

- **Range parsing.** The "Normal Values" text of a row, such as
  `"4.0 - 6.0 million/cu.mm"`, is read the way `add_test_table` reads it. The
  lower bound is `float` of the text before the first `-`. The upper bound is
  `float` of the second space-separated token of the text between the first
  and the second `-` (or up to the end when there is no second one). A failed
  parse leaves the bound absent (`Option<real>`).
- **The bold rule.** A result is printed in bold exactly when it is a number,
  both bounds are present, none of the three numbers is zero (Python
  truthiness), and the number lies strictly outside the range. The code is
  followed here rather than the general description "out-of-range values are
  bold": a zero result, or a range starting at `0`/`00`, never bolds.
- **Row selection.** `print_if_has_result` keeps the rows with a non-blank
  result, and the sections pick rows by test name in table order. The CBC
  section lists partition the CBC template's test names, and the LFT list
  equals the LFT names.
- **The templates** of `load_report_template`, as rows.
- **The PDF object.** `LabReportPDF` is a class holding four fields: the
  cursor's vertical position, the page count, whether the current font is
  bold, and the log of drawing calls made so far. Its invariant `Valid()`
  ties the position and the page count to the layout rules applied to the
  log: FPDF's automatic page break 60 mm above the bottom edge of an A4
  page (taken as 297 mm), and the header leaving the cursor at 40 mm (a
  10 mm top margin plus the header's 30 mm).

  The basic methods `Ln`, `AddPage`, `DrawCell`, `CheckPageBreak` and
  `AddReportSection` state the calls they append in their own contracts.
  `SetBold` only sets the font. Every drawing method from `AddReportTitle`
  up is proved to append exactly the calls that a pure function of
  `ReportSpec` lists. The page and position facts are then proved about
  those lists.

Python's `float()` is modelled on signed decimal literals with surrounding
whitespace, read as exact reals; anything else is a parse failure, which is
what the source's `except` paths catch. The modules follow the program's
layers:

- `Text`: `strip`, `split`, `upper`, `replace`.
- `Decimal`: `float` and `str` of a natural number.
- `NormalRange` and `RangeForms`: the range parse and the bold rule.
- `Templates`: the template tables.
- `Sections`: row filters and section lists.
- `Layout`: cursor and page rules.
- `ReportSpec`: the calls each report function makes.
- `ReportPdf`: the class and the report functions.

## Model

Each method of `ReportPdf` states in its `ensures` which function of
`ReportSpec` it follows. The following functions have no row of their own,
because their method's row covers the same source lines:
- `SectionTitleOps` (`AddSectionTitle`);
- `SectionsOps` (`PrintSections`);
- `InstrumentOps` (`AddInstrumentNote`);
- `CbcOps` (`GenerateCbcReport`);
- `LftOps` (`GenerateLftReport`);
- `Abnormal`, through `RowsOps` (`DrawRows`);
- `PanelOps`, through `Attempted` (`DrawSelectedPanel`, `DrawRound`);
- `LoopOps`, through `RoundsDone` (`DrawRound`, `DrawPanels`).

| member | source | states |
|---|---|---|
| Text.Strip | lab_report_generator.py:269 | `str.strip()` leaves a string that is empty or starts and ends with a non-whitespace character |
| Text.StripEmptyIffBlank | lab_report_generator.py:269 | a string strips to `''` exactly when every character is whitespace |
| Text.StripKeepsNonSpace | lab_report_generator.py:232 | stripping keeps every non-whitespace character |
| Text.StripKeepsCharacters | lab_report_generator.py:232 | stripping only removes characters |
| Text.TrimStartIsSuffix | lab_report_generator.py:232 | `lstrip` leaves a suffix of the string |
| Text.TrimEndIsPrefix | lab_report_generator.py:232 | `rstrip` leaves a prefix of the string |
| Text.Split | lab_report_generator.py:225-226 | `split(sep)` always gives at least one piece |
| Text.SplitPieces | lab_report_generator.py:225-226 | no piece holds the separator, and every character of a piece is from the string |
| Text.JoinSplit | lab_report_generator.py:225-226 | joining the pieces with the separator gives the string back |
| Text.SplitJoin | lab_report_generator.py:225-226 | splitting a join of separator-free pieces gives the pieces back |
| Text.SplitFirst | lab_report_generator.py:225 | piece 0 is the text before the first separator, or the whole text |
| Text.Upper | lab_report_generator.py:93 | `upper()` keeps the length |
| Text.UpperLetters | lab_report_generator.py:93 | `upper()` turns every ASCII lower-case letter into its capital and keeps every other character |
| Text.Replace | lab_report_generator.py:345 | `replace(' ', '_')` keeps the length, turns every space into `_`, keeps every other character, and leaves no space |
| Decimal.ParseFloat | lab_report_generator.py:225-226 | `float(s)` succeeds only on a string that is not blank and holds none of the information separators U+001C..U+001F, which `float()` does not strip |
| Decimal.ParseUnsigned | lab_report_generator.py:225-226 | an unsigned literal never parses to a negative number |
| Decimal.BlankNeverParses | lab_report_generator.py:232-234 | a blank string never parses as a number |
| Decimal.ParseFloatWithoutMinus | lab_report_generator.py:225 | text without a `-` never parses as a negative number |
| Decimal.ParsedUnsignedShape | lab_report_generator.py:225-226 | an unsigned literal that parses is non-empty digits and points |
| Decimal.NatToString | lab_report_generator.py:203 | `str(age)` is a non-empty run of digits without a leading zero |
| Decimal.DigitsOfNatToString | lab_report_generator.py:203 | reading the digits of `str(n)` gives `n` |
| Decimal.NatToStringParses | lab_report_generator.py:203 | `float(str(n)) == n` |
| NormalRange.ParseRange | lab_report_generator.py:222-228 | an upper bound is only ever present together with a lower bound (the lower is parsed first) |
| NormalRange.ResultIsBold | lab_report_generator.py:232-256 | a bold result always parses, both bounds are present, and the result lies strictly below the lower or above the upper bound |
| NormalRange.SeparatorPaddedResultRegular | lab_report_generator.py:232-254 | a result such as `"\x1c9"` passes the blank check, but `float()` rejects it, so it is never bold |
| NormalRange.LowerIsTextBeforeFirstDash | lab_report_generator.py:225 | the lower bound is `float` of the text before the first `-`, or of the whole text |
| NormalRange.SecondToken | lab_report_generator.py:226 | after the first `-` of `a - b tail`, the second space-separated token is `b` |
| NormalRange.RangeOfWrittenForm | lab_report_generator.py:222-228 | `a - b tail` gives lower `float(a + " ")` and upper `float(b)`, or neither bound when the lower fails |
| NormalRange.NumeralRange | lab_report_generator.py:224-226 | `a - b tail` with bare numbers `a`, `b` gives exactly the bounds (a, b), e.g. `"4.0 - 6.0 million/cu.mm"` gives (4.0, 6.0) |
| NormalRange.RangeWithoutDash | lab_report_generator.py:222-228 | text with no `-` gets at most a lower bound, never an upper one |
| NormalRange.PaddedNumber | lab_report_generator.py:225 | the space before the `-` does not change the lower bound |
| NormalRange.BoundsNonNegative | lab_report_generator.py:225-226 | neither bound can be negative |
| NormalRange.BoldExactlyWhenOutOfRange | lab_report_generator.py:232-256 | bold iff the result parses, is non-zero, both bounds are present and non-zero, and the result is strictly below the lower or above the upper bound |
| RangeForms.ForeignCharacterRejected | lab_report_generator.py:227-228 | any text holding a comma, letter or other foreign character fails to parse |
| RangeForms.ProseHasNoBounds | lab_report_generator.py:222-228 | text with a foreign character before its first `-` (`"Adequate On Smear"`, `"Male: 14 - 16 g%, ..."`) yields neither bound |
| RangeForms.UnparsableUpper | lab_report_generator.py:222-228 | `a - b tail` whose upper token is unparsable (`"4000 - 10,000 /cu.mm"`) keeps the lower bound and loses the upper |
| RangeForms.ZeroDisablesBold | lab_report_generator.py:234 | a zero result, lower bound or upper bound never gives bold |
| RangeForms.RangeFromZeroNeverBold | lab_report_generator.py:234 | a range written `0 - b tail` or `00 - b tail` (`"0 - 46 U/L"`, `"00 - 06 %"`) has lower bound 0 and never bolds any result |
| RangeForms.BoundaryNotBold | lab_report_generator.py:235-246 | a result equal to either bound of an ordered range is regular |
| Templates.Blanks | lab_report_generator.py:360 | `[""] * n` has length n and only empty strings |
| Templates.Frame | lab_report_generator.py:378 | the table from aligned columns has one row per test, row i built from entry i of each column |
| Templates.TemplatesAligned | lab_report_generator.py:349-418 | every template's four columns have one length, so the table constructor never fails |
| Templates.LoadReportTemplate | lab_report_generator.py:349-418 | 21 / 11 / 6 / 3 rows for CBC / LFT / KFT / other names, all results empty, CBC and LFT test names in template order |
| Sections.Filled | lab_report_generator.py:269 | the filter never adds rows |
| Sections.HasResult | lab_report_generator.py:269 | the mask holds exactly for a present result that is not all whitespace |
| Sections.FilledMembers | lab_report_generator.py:269 | the filter keeps exactly the rows with a non-NaN, non-blank result |
| Sections.FilledAppend | lab_report_generator.py:269 | filtering keeps table order: filtering a concatenation concatenates the filtered parts |
| Sections.FilledIdempotent | lab_report_generator.py:269 | filtering twice equals filtering once |
| Sections.Select | lab_report_generator.py:275 | `isin` never adds rows |
| Sections.SelectMembers | lab_report_generator.py:275 | `isin` keeps exactly the rows whose test is listed |
| Sections.SelectAppend | lab_report_generator.py:275 | `isin` keeps table order |
| Sections.PrintedMembers | lab_report_generator.py:268-271 | a section prints exactly its listed rows that have a result |
| Sections.Printed | lab_report_generator.py:268-271 | a section prints no more rows than the table has, each one listed, from the table, and with a result |
| Sections.FreshTemplatePrintsNothing | lab_report_generator.py:349-418 | a freshly loaded template has no row with a result |
| Sections.CbcSectionsPartitionTemplate | lab_report_generator.py:274-296 | the five CBC section lists, in order, are exactly the 21 CBC template names and share none |
| Sections.LftSectionCoversTemplate | lab_report_generator.py:313-315 | the LFT list is exactly the 11 LFT template names |
| Sections.UnlistedRowPrintedNowhere | lab_report_generator.py:268-296 | a row whose test no section lists is printed by none |
| Sections.ListedRowPrintedOnce | lab_report_generator.py:268-296 | with disjoint sections, a listed row is printed once if it has a result and never otherwise |
| Sections.SectionsPrintEachFilledRowOnce | lab_report_generator.py:268-296 | disjoint sections covering every test print each filled row exactly once |
| Sections.CbcPrintsEachFilledRowOnce | lab_report_generator.py:274-296 | every filled row of a CBC table is printed in exactly one CBC section |
| Sections.LftPrintsEachFilledRowOnce | lab_report_generator.py:313-315 | every filled row of an LFT table is printed in the LFT section |
| Layout.NextPage | lab_report_generator.py:117-121 | a new page increments the page count, and the header leaves the cursor at 40 mm |
| Layout.Placement | lab_report_generator.py:68 | a cell stays on its page exactly when its bottom does not pass the break line, and otherwise moves to the next page only |
| Layout.Step | lab_report_generator.py:68 | every drawing call starts at most one page; `add_page()` always starts one and `ln(h)` never does |
| Layout.Run | lab_report_generator.py:68 | a sequence of drawing calls never lowers the page count |
| Layout.RunPagesAtMostCalls | lab_report_generator.py:68 | a sequence of drawing calls starts at most one page per call |
| Layout.CellStaysAboveFooter | lab_report_generator.py:68 | with the automatic break, a cell no taller than a page body never reaches the 60 mm footer margin |
| Layout.PagesAtLeastNewPages | lab_report_generator.py:68 | a document has at least one page per `add_page()` call |
| ReportSpec.RowsOps | lab_report_generator.py:220-259 | a table draws four calls per row |
| ReportSpec.RowOps | lab_report_generator.py:230-259 | a row is drawn as four calls |
| ReportSpec.TitleOps | lab_report_generator.py:72-115 | the title block is seven calls, and every cell in it is bold |
| ReportSpec.PatientOps | lab_report_generator.py:168-210 | the patient block is 26 calls, and every cell in it is a bold 5 mm cell |
| ReportSpec.TableOps | lab_report_generator.py:212-261 | a table is its heading, four calls per row and a closing 5 mm feed |
| ReportSpec.SectionOps | lab_report_generator.py:268-271 | a section draws nothing exactly when none of its rows is printed |
| ReportSpec.SeparatorOps | lab_report_generator.py:340-342 | after a panel that is not the last selected, a new page then the patient block; after the last, nothing |
| ReportSpec.ReportOps | lab_report_generator.py:323-342 | the report starts with `add_page()` and the patient block |
| ReportSpec.EveryRowOneLine | lab_report_generator.py:220-259 | every call of a table is a 5 mm cell whose width is the column's (60/30/25/75) and only the fourth of each row ends the line, whatever the result |
| ReportSpec.RowTextsInOrder | lab_report_generator.py:230-259 | row i's line shows Test, Result, Units and Normal Values, in that order |
| ReportSpec.BoldOnlyWhereAbnormal | lab_report_generator.py:232-256 | a table cell is bold exactly when it is a result cell and the bold rule holds for its row |
| ReportSpec.LineCells | lab_report_generator.py:230-259 | the four cells of one row, column by column, with widths, line end and font |
| ReportSpec.CallInLine | lab_report_generator.py:220-259 | column j of row i is call 4i + j of the table |
| ReportSpec.HeaderMatchesRows | lab_report_generator.py:107-110 | the header row uses the same four widths as every table row and ends its line |
| ReportSpec.EmptySectionPrintsNothing | lab_report_generator.py:268-271 | a section draws something exactly when one of its listed rows has a result; otherwise not even its title |
| ReportSpec.PrintedSectionContents | lab_report_generator.py:212-261 | a printed section is its heading, four calls per kept row and a closing 5 mm feed |
| ReportSpec.PanelNoPageCall | lab_report_generator.py:264-320 | a report generator never calls `add_page()` itself |
| ReportSpec.PatientBlockFromTop | lab_report_generator.py:168-210 | with 20 mm of room, the patient block stays on its page and takes 30 mm |
| ReportSpec.PatientLineHeight | lab_report_generator.py:172-179 | one patient line moves the cursor down 5 mm when it fits |
| ReportSpec.FirstPatientBlock | lab_report_generator.py:324-326 | the first page's patient block ends 30 mm below the header, on page 1 |
| ReportSpec.SeparatorPageCalls | lab_report_generator.py:340-342 | the separator calls `add_page()` once when the name is not the last selected, otherwise never |
| ReportSpec.ReportPageCalls | lab_report_generator.py:323-342 | the report calls `add_page()` once, plus once after each panel whose name differs from the last selected |
| ReportSpec.OnePagePerPanel | lab_report_generator.py:329-342 | with no name selected twice, there are exactly as many `add_page()` calls as panels, and at least that many pages |
| ReportSpec.KftTftDrawNothing | lab_report_generator.py:334-337 | selecting KFT or TFT draws no table |
| ReportSpec.ReportFilename | lab_report_generator.py:345 | the file name is the patient name with every space turned into `_` and every other character kept, then `_`, then the stamp, then `.pdf`; it has no space when the stamp has none |
| ReportPdf.LabReportPdf.constructor | lab_report_generator.py:65-70 | an empty document: no calls yet, no page, regular font |
| ReportPdf.LabReportPdf.Ln | lab_report_generator.py:102 | `ln(h)` appends one feed and moves the cursor down by h on the same page, keeping the font |
| ReportPdf.LabReportPdf.SetBold | lab_report_generator.py:104 | `set_font` leaves the font bold exactly when a bold style was asked for |
| ReportPdf.LabReportPdf.AddPage | lab_report_generator.py:117-121 | appends `add_page()`: one more page, cursor at the top of the body |
| ReportPdf.LabReportPdf.DrawCell | lab_report_generator.py:68 | appends one cell in the current font, keeping the position in step with the automatic page break |
| ReportPdf.LabReportPdf.CheckPageBreak | lab_report_generator.py:146-155 | adds a page and answers true iff `y + h > 297 - 60`; otherwise changes nothing and answers false |
| ReportPdf.LabReportPdf.AddReportSection | lab_report_generator.py:157-166 | a page break exactly when the estimate does not fit, then the upper-cased title in bold and 3 mm |
| ReportPdf.LabReportPdf.AddReportTitle | lab_report_generator.py:72-115 | appends the upper-cased title, 6 mm, the header row and 2 mm; answers the new y |
| ReportPdf.LabReportPdf.HeaderRow | lab_report_generator.py:104-110 | appends the four bold header cells TEST / RESULT / UNITS / NORMAL VALUES |
| ReportPdf.LabReportPdf.PatientLine | lab_report_generator.py:172-179 | appends one label-colon-value line of the patient block |
| ReportPdf.LabReportPdf.AddPatientInfo | lab_report_generator.py:168-210 | appends the four patient lines and two 5 mm feeds; with 20 mm of room it stays on the page and moves down 30 mm |
| ReportPdf.LabReportPdf.DrawRow | lab_report_generator.py:230-259 | appends one row's four cells, the result bold exactly when asked, leaving the font regular |
| ReportPdf.LabReportPdf.AddSectionTitle | lab_report_generator.py:213-216 | appends the upper-cased heading and 2 mm only for a present, non-empty title, and leaves the font bold after it; otherwise the font is unchanged |
| ReportPdf.LabReportPdf.DrawRows | lab_report_generator.py:220-259 | the row loop appends every row's line in order, each result in the font the bold rule gives it |
| ReportPdf.LabReportPdf.AddTestTable | lab_report_generator.py:212-261 | appends exactly the calls of `add_test_table` and leaves the font regular |
| ReportPdf.LabReportPdf.AddInstrumentNote | lab_report_generator.py:298-301 | appends the italic, non-bold instrument note and 5 mm |
| ReportPdf.PrintIfHasResult | lab_report_generator.py:268-271 | draws the section's table only when a listed row has a result |
| ReportPdf.PrintSections | lab_report_generator.py:273-296 | draws the sections one after the other, in order |
| ReportPdf.DrawPanel | lab_report_generator.py:264-301 | draws the title block, the sections and the note |
| ReportPdf.GenerateCbcReport | lab_report_generator.py:264-301 | fails, drawing nothing, iff the data has no CBC table; otherwise draws the CBC report |
| ReportPdf.GenerateLftReport | lab_report_generator.py:303-320 | fails, drawing nothing, iff the data has no LFT table; otherwise draws the LFT report |
| ReportPdf.DrawSelectedPanel | lab_report_generator.py:330-337 | dispatches CBC and LFT to their generators and draws nothing for other names; fails iff a dispatched table is missing |
| ReportPdf.Separate | lab_report_generator.py:340-342 | a new page and the patient block exactly when the name is not the last selected |
| ReportPdf.DrawRound | lab_report_generator.py:329-342 | one loop round extends the drawn rounds by one, or reports a missing table |
| ReportPdf.DrawPanels | lab_report_generator.py:329-342 | the loop draws every round when every dispatched table is present; otherwise it names a selected, dispatched panel without a table |
| ReportPdf.CreatePdfReport | lab_report_generator.py:323-347 | the report is written iff every dispatched table is present; it then holds exactly `ReportOps`, is named by `ReportFilename`, and with distinct names has a page per panel |

## Left out

- The Streamlit user interface (`main`, session state, CSS, widgets, the preview and the reset) is not part of this model. It is UI glue.
- FPDF drawing internals are modelled only as a log of `add_page`, `cell(w, h, text, bold, ln)` and `ln(h)` calls. The model leaves out font families and sizes, fill, draw and text colours, line widths, the `line` calls, x positions and alignment, and string widths (`title_width`). The font style `'    '` of lines 244 and 248 is recorded as not bold. The italic font of the instrument note is also recorded as not bold.
- The page geometry uses whole millimetres: a 297 mm A4 page and a 10 mm top margin. These are roundings. FPDF's A4 page is 841.89 pt, which is 297.00008 mm. The top margin is exactly 10 mm in fpdf2. In PyFPDF 1.7.2 it is 28.35 pt, which is 10.00125 mm. The model assumes fpdf2's margin. Under PyFPDF's margins, a cell whose bottom lies within about 0.0012 mm of the break line would break the page in FPDF but not in `Layout.Step`. `LabReportPdf.CheckPageBreak` is off by the same amount.
- `header()` is modelled only by where it leaves the cursor. `footer()` is left out, because it draws nothing the body depends on.
- `logo_path` and `is_first_page` are stored but never read; they are left out.
- Writing the file (`pdf.output`), and the base64 download link, are left out. So is the clock: `datetime.now().strftime(...)` becomes the `stamp` parameter of `ReportFilename` and `CreatePdfReport`.
- Python's `float()` is limited to signed ASCII decimal literals with surrounding whitespace, read as exact reals. Exponents, `inf`/`nan`, underscores, non-ASCII decimal digits (such as the full-width `５`, which Python reads as 5) and IEEE rounding are not modelled. Because of the rounding, a result such as `6.0000000000000001` against `"4.0 - 6.0 million/cu.mm"` is bold in the model but regular in the program, where it equals 6.0. A result that underflows to `0.0` in the program is non-zero, and so may be bold, in the model.
- `str.upper()` is modelled for ASCII letters only.
- The pandas DataFrame is a sequence of rows with string Test, Units and Normal Values. A NaN result is `None`. Cells of other types are not modelled.
- `patient_info` is a record with every field present, the age a natural number. A missing key is not modelled.
- A missing panel table in `report_data` raises `KeyError` in the source. Here it is the outcome `MissingPanel`, with nothing written.
- ReportPdf.CreatePdfReport: FPDF's core fonts encode only Latin-1. Text they cannot encode makes the library raise. This covers a patient name in Devanagari, or a result such as `"≤5"`. Under fpdf2 `cell` raises; under PyFPDF 1.7.2 `output` raises. Either way no report is written. The model's cells never fail. So "`Written` exactly when every dispatched table is present" holds only for reports whose text is all Latin-1.
- `generate_kft_report` and `generate_tft_report` are commented out in the source and are not modelled. Selecting those panels draws nothing (`ReportSpec.KftTftDrawNothing`).
- ReportPdf.LabReportPdf.AddReportSection: the page count is stated only for estimates of at least 8 mm. Below that, the 8 mm title cell can itself trigger FPDF's automatic break. Its position is still given by `Valid()`.
- ReportPdf.LabReportPdf.AddPatientInfo: the 30 mm advance is stated only when 20 mm of room is left. Otherwise the automatic break may split the block; `Valid()` still gives its position.
