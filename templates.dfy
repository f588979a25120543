/**
 * The four report panels and the tables `load_report_template` returns for
 * them. A table is a sequence of rows with the columns Test, Result, Units
 * and Normal Values; a missing (NaN) result is `None`.
 */
module Templates {
  import opened Wrappers

  const CbcName := "Complete Blood Count (CBC)"
  const LftName := "Liver Function Test (LFT)"
  const KftName := "Kidney Function Test (KFT)"
  const TftName := "Thyroid Function Test (TFT)"

  /** The panels a user can pick, in the order they are offered. */
  const ReportTypes: seq<string> := [CbcName, LftName, KftName, TftName]

  datatype Row = Row(test: string, result: Option<string>, units: string, normal: string)

  /** The four columns of a template before they become a table. */
  datatype Columns = Columns(tests: seq<string>, results: seq<string>, units: seq<string>, normals: seq<string>)

  /** Columns of one length; the table constructor rejects any others. */
  predicate Aligned(c: Columns)
  {
    |c.results| == |c.tests| && |c.units| == |c.tests| && |c.normals| == |c.tests|
  }

  /** `[""] * n`: the empty result column of a fresh template. */
  function Blanks(n: nat): (s: seq<string>)
    ensures |s| == n && forall i :: 0 <= i < n ==> s[i] == ""
  {
    seq(n, _ => "")
  }

  const CbcTests: seq<string> := [
    "Haemoglobin", "RBC Count", "PCV",
    "MCV", "MCH", "MCHC", "RDW",
    "Total WBC Count", "Neutrophils", "Lymphocytes",
    "Eosinophils", "Monocytes", "Basophils",
    "Platelet Count", "Platelets on Smear",
    "RBC Morphology", "WBCs on PS", "RDWSD", "RDWCV", "MPV", "P-LCR"]

  const LftTests: seq<string> := [
    "Bilirubin Total", "Bilirubin Direct", "Bilirubin Indirect", "S.G.O.T.", "S.G.P.T.",
    "Alkaline Phosphatase", "Total Proteins", "Albumin", "Globulin", "A / G Ratio", "G.G.T.P."]

  const CbcUnits: seq<string> := [
    "g%", "million/cu.mm.", "%",
    "fl", "pg", "%", "fl",
    "/cu.mm", "%", "%",
    "%", "%", "%",
    "lak/cu.mm", "",
    "", "", "fl", "%", "fl", "%"]

  const CbcNormals: seq<string> := [
    "Male: 14 - 16 g%, Female: 12 - 14 g%", "4.0 - 6.0 million/cu.mm", "35 - 60 %",
    "80 - 99 fl", "27 - 31 pg", "32 - 37 %", "9 - 17 fl",
    "4000 - 10,000 /cu.mm", "40 - 70 %", "20 - 45 %",
    "00 - 06 %", "00 - 08 %", "00 - 01 %",
    "150000 - 450000 /lak cu.mm", "Adequate On Smear",
    "Normocytic, Normochromic", "Normal", "37 - 54 fl", "11 - 16 %", "9 - 13 fl", "13 - 43 %"]

  const LftUnits: seq<string> := [
    "mg/dl", "mg/dl", "mg/dl", "U/L", "IU/L", "IU/L",
    "gm/dl", "gm/dl", "gm/dl", "", "IU/L"]

  const LftNormals: seq<string> := [
    "0.1 - 1.2 mg/dl", "0.1 - 0.4 mg/dl", "0.1 - 0.7 mg/dl",
    "0 - 46 U/L", "0 - 49 U/L", "15 - 112 IU/L",
    "6.0 - 8.3 gm/dl", "3.2 - 5.0 gm/dl", "2.0 - 3.5 gm/dl", "1.0 - 2.3", "25 - 43 IU/L"]

  const KftColumns := Columns(
    ["Blood Urea", "Serum Creatinine", "Uric Acid", "Sodium", "Potassium", "Chloride"],
    Blanks(6),
    ["mg/dl", "mg/dl", "mg/dl", "mEq/L", "mEq/L", "mEq/L"],
    ["15 - 45 mg/dl", "0.6 - 1.4 mg/dl", "2.4 - 7.0 mg/dl",
     "135 - 155 mEq/L", "3.5 - 5.5 mEq/L", "98 - 107 mEq/L"])

  const TftColumns := Columns(
    ["T3 (Triiodothyronine)", "T4 (Thyroxine)", "TSH"],
    Blanks(3),
    ["ng/ml", "\U{3BC}g/dl", "\U{3BC}IU/ml"],
    ["0.8 - 2.0 ng/ml", "4.8 - 12.7 \U{3BC}g/dl", "0.27 - 4.2 \U{3BC}IU/ml"])

  /** The table an unknown panel name gets. */
  const PlaceholderColumns := Columns(
    ["Test 1", "Test 2", "Test 3"],
    ["", "", ""],
    ["unit 1", "unit 2", "unit 3"],
    ["normal 1", "normal 2", "normal 3"])

  /** The columns `load_report_template` builds for a panel name; unknown names get a placeholder table. */
  function TemplateColumns(name: string): Columns
  {
    if name == CbcName then Columns(CbcTests, Blanks(21), CbcUnits, CbcNormals)
    else if name == LftName then Columns(LftTests, Blanks(11), LftUnits, LftNormals)
    else if name == KftName then KftColumns
    else if name == TftName then TftColumns
    else PlaceholderColumns
  }

  /** The rows of a table built from aligned columns, row `i` taking entry `i` of every column. */
  function Frame(c: Columns): (rows: seq<Row>)
    requires Aligned(c)
    ensures |rows| == |c.tests|
    ensures forall i :: 0 <= i < |rows| ==>
      rows[i] == Row(c.tests[i], Some(c.results[i]), c.units[i], c.normals[i])
  {
    seq(|c.tests|, i requires 0 <= i < |c.tests| => Row(c.tests[i], Some(c.results[i]), c.units[i], c.normals[i]))
  }

  /** Every template's columns have one length, so building its table never fails. */
  lemma TemplatesAligned(name: string)
    ensures Aligned(TemplateColumns(name))
  {
    if name == CbcName {
      CbcAligned();
    } else if name == LftName {
      LftAligned();
    }
  }

  lemma CbcAligned()
    ensures |CbcTests| == 21 && Aligned(Columns(CbcTests, Blanks(21), CbcUnits, CbcNormals))
  {
  }

  lemma LftAligned()
    ensures |LftTests| == 11 && Aligned(Columns(LftTests, Blanks(11), LftUnits, LftNormals))
  {
  }

  /** `load_report_template(name)`. */
  function LoadReportTemplate(name: string): (rows: seq<Row>)
    ensures |rows| == (if name == CbcName then 21 else if name == LftName then 11
                       else if name == KftName then 6 else 3)
    ensures forall i :: 0 <= i < |rows| ==> rows[i].result == Some("")
    ensures name == CbcName ==> forall i :: 0 <= i < |rows| ==> rows[i].test == CbcTests[i]
    ensures name == LftName ==> forall i :: 0 <= i < |rows| ==> rows[i].test == LftTests[i]
  {
    TemplatesAligned(name);
    Frame(TemplateColumns(name))
  }
}
