/**
 * Which rows a report prints and under which heading: `print_if_has_result`
 * keeps the rows whose result is present and not blank, and each report
 * cuts its table into sections by test name (`data[data['Test'].isin(...)]`).
 */
module Sections {
  import opened Wrappers
  import opened Text
  import opened Templates

  /** The mask of `print_if_has_result`: the result is not NaN and not blank once stripped. */
  predicate HasResult(r: Row)
    ensures HasResult(r) <==> r.result.Some? && !Blank(r.result.value)
  {
    r.result.Some? && (StripEmptyIffBlank(r.result.value); Strip(r.result.value) != [])
  }

  /** The rows that have a result, in their original order. */
  function Filled(rows: seq<Row>): (kept: seq<Row>)
    ensures |kept| <= |rows|
  {
    if rows == [] then []
    else if HasResult(rows[0]) then [rows[0]] + Filled(rows[1..])
    else Filled(rows[1..])
  }

  /** The filter keeps exactly the rows that have a result. */
  lemma {:induction false} FilledMembers(rows: seq<Row>)
    ensures forall r :: r in Filled(rows) <==> r in rows && HasResult(r)
  {
    if rows != [] {
      FilledMembers(rows[1..]);
      assert rows == [rows[0]] + rows[1..];
    }
  }

  /** The rows whose test name is one of `tests`, in their original order. */
  function Select(rows: seq<Row>, tests: seq<string>): (kept: seq<Row>)
    ensures |kept| <= |rows|
  {
    if rows == [] then []
    else if rows[0].test in tests then [rows[0]] + Select(rows[1..], tests)
    else Select(rows[1..], tests)
  }

  /** `isin` keeps exactly the rows whose test is listed. */
  lemma {:induction false} SelectMembers(rows: seq<Row>, tests: seq<string>)
    ensures forall r :: r in Select(rows, tests) <==> r in rows && r.test in tests
  {
    if rows != [] {
      SelectMembers(rows[1..], tests);
      assert rows == [rows[0]] + rows[1..];
    }
  }

  /** Filtering a concatenation filters each part: the kept rows stay in table order. */
  lemma {:induction false} FilledAppend(a: seq<Row>, b: seq<Row>)
    ensures Filled(a + b) == Filled(a) + Filled(b)
  {
    if a != [] {
      assert (a + b)[1..] == a[1..] + b;
      FilledAppend(a[1..], b);
    } else {
      assert a + b == b;
    }
  }

  lemma {:induction false} SelectAppend(a: seq<Row>, b: seq<Row>, tests: seq<string>)
    ensures Select(a + b, tests) == Select(a, tests) + Select(b, tests)
  {
    if a != [] {
      assert (a + b)[1..] == a[1..] + b;
      SelectAppend(a[1..], b, tests);
    } else {
      assert a + b == b;
    }
  }

  /** Filtering twice keeps what filtering once kept. */
  lemma {:induction false} FilledIdempotent(rows: seq<Row>)
    ensures Filled(Filled(rows)) == Filled(rows)
  {
    if rows != [] {
      FilledIdempotent(rows[1..]);
    }
  }

  /** A freshly loaded template has only blank results, so no report prints any of its rows. */
  lemma FreshTemplatePrintsNothing(name: string)
    ensures Filled(LoadReportTemplate(name)) == []
  {
    var rows := LoadReportTemplate(name);
    assert Strip("") == [];
    NothingFilled(rows);
  }

  lemma {:induction false} NothingFilled(rows: seq<Row>)
    requires forall i :: 0 <= i < |rows| ==> !HasResult(rows[i])
    ensures Filled(rows) == []
  {
    if rows != [] {
      NothingFilled(rows[1..]);
    }
  }

  /** A heading (or none) and the test names printed under it. */
  datatype Section = Section(title: Option<string>, tests: seq<string>)

  /** The sections of `generate_cbc_report`, in the order they are printed. */
  const CbcSections: seq<Section> := [
    Section(None, ["Haemoglobin", "RBC Count", "PCV"]),
    Section(Some("RBC INDICES"), ["MCV", "MCH", "MCHC", "RDW"]),
    Section(Some("TOTAL WBC COUNT"), ["Total WBC Count", "Neutrophils", "Lymphocytes", "Eosinophils", "Monocytes", "Basophils"]),
    Section(Some("PLATELETS"), ["Platelet Count", "Platelets on Smear"]),
    Section(Some("PERIPHERAL BLOOD SMEAR"), ["RBC Morphology", "WBCs on PS", "RDWSD", "RDWCV", "MPV", "P-LCR"])]

  /** The single untitled section of `generate_lft_report`. */
  const LftSections: seq<Section> := [
    Section(None, ["Bilirubin Total", "Bilirubin Direct", "Bilirubin Indirect", "S.G.O.T.", "S.G.P.T.",
                   "Alkaline Phosphatase", "Total Proteins", "Albumin", "Globulin", "A / G Ratio", "G.G.T.P."])]

  /** The rows `print_if_has_result` prints for one section. */
  function Printed(rows: seq<Row>, section: Section): (kept: seq<Row>)
    ensures |kept| <= |rows|
    ensures forall r :: r in kept ==> r in rows && r.test in section.tests && HasResult(r)
  {
    SelectMembers(rows, section.tests);
    FilledMembers(Select(rows, section.tests));
    Filled(Select(rows, section.tests))
  }

  /** A section prints exactly its listed rows that have a result. */
  lemma PrintedMembers(rows: seq<Row>, section: Section)
    ensures forall r :: r in Printed(rows, section) <==> r in rows && HasResult(r) && r.test in section.tests
  {
    SelectMembers(rows, section.tests);
    FilledMembers(Select(rows, section.tests));
  }

  /** All test names of a list of sections, section after section. */
  function AllTests(sections: seq<Section>): seq<string>
  {
    if sections == [] then [] else sections[0].tests + AllTests(sections[1..])
  }

  predicate Disjoint(a: seq<string>, b: seq<string>)
  {
    forall t :: t in a ==> t !in b
  }

  /** No test name belongs to two sections. */
  predicate PairwiseDisjoint(sections: seq<Section>)
  {
    forall k, l :: 0 <= k < l < |sections| ==> Disjoint(sections[k].tests, sections[l].tests)
  }

  lemma {:induction false} InAllTests(t: string, sections: seq<Section>)
    ensures t in AllTests(sections) <==> exists k :: 0 <= k < |sections| && t in sections[k].tests
  {
    if sections != [] {
      InAllTests(t, sections[1..]);
      if t in AllTests(sections[1..]) {
        var k :| 0 <= k < |sections[1..]| && t in sections[1..][k].tests;
        assert t in sections[k + 1].tests;
      }
      if exists k :: 0 <= k < |sections| && t in sections[k].tests {
        var k :| 0 <= k < |sections| && t in sections[k].tests;
        if k > 0 {
          assert t in sections[1..][k - 1].tests;
        }
      }
    }
  }

  /** How many rows all sections print together. */
  function TotalPrinted(rows: seq<Row>, sections: seq<Section>): nat
  {
    if sections == [] then 0 else |Printed(rows, sections[0])| + TotalPrinted(rows, sections[1..])
  }

  lemma {:induction false} TotalPrintedAppend(a: seq<Row>, b: seq<Row>, sections: seq<Section>)
    ensures TotalPrinted(a + b, sections) == TotalPrinted(a, sections) + TotalPrinted(b, sections)
  {
    if sections != [] {
      var tests := sections[0].tests;
      SelectAppend(a, b, tests);
      FilledAppend(Select(a, tests), Select(b, tests));
      TotalPrintedAppend(a, b, sections[1..]);
    }
  }

  /** A row whose test no section names is printed nowhere. */
  lemma {:induction false} UnlistedRowPrintedNowhere(r: Row, sections: seq<Section>)
    requires r.test !in AllTests(sections)
    ensures TotalPrinted([r], sections) == 0
  {
    if sections != [] {
      assert r.test !in sections[0].tests;
      assert Select([r], sections[0].tests) == [];
      UnlistedRowPrintedNowhere(r, sections[1..]);
    }
  }

  /** A row whose test some section names is printed exactly once if it has a result, and never otherwise. */
  lemma {:induction false} ListedRowPrintedOnce(r: Row, sections: seq<Section>)
    requires PairwiseDisjoint(sections)
    requires r.test in AllTests(sections)
    ensures TotalPrinted([r], sections) == if HasResult(r) then 1 else 0
  {
    var rest := sections[1..];
    assert PairwiseDisjoint(rest) by {
      forall k, l | 0 <= k < l < |rest| ensures Disjoint(rest[k].tests, rest[l].tests) {
        assert Disjoint(sections[k + 1].tests, sections[l + 1].tests);
      }
    }
    if r.test in sections[0].tests {
      assert Select([r], sections[0].tests) == [r];
      assert Filled([r]) == if HasResult(r) then [r] else [];
      InAllTests(r.test, rest);
      UnlistedRowPrintedNowhere(r, rest);
    } else {
      assert Select([r], sections[0].tests) == [];
      ListedRowPrintedOnce(r, rest);
    }
  }

  /**
   * When sections share no test name and every row's test is listed in one of
   * them, the sections together print every row that has a result exactly once.
   */
  lemma {:induction false} SectionsPrintEachFilledRowOnce(rows: seq<Row>, sections: seq<Section>)
    requires PairwiseDisjoint(sections)
    requires forall i :: 0 <= i < |rows| ==> rows[i].test in AllTests(sections)
    ensures TotalPrinted(rows, sections) == |Filled(rows)|
  {
    if rows == [] {
      UnlistedSectionsEmpty(sections);
    } else {
      assert rows == [rows[0]] + rows[1..];
      TotalPrintedAppend([rows[0]], rows[1..], sections);
      ListedRowPrintedOnce(rows[0], sections);
      SectionsPrintEachFilledRowOnce(rows[1..], sections);
    }
  }

  lemma {:induction false} UnlistedSectionsEmpty(sections: seq<Section>)
    ensures TotalPrinted([], sections) == 0
  {
    if sections != [] {
      UnlistedSectionsEmpty(sections[1..]);
    }
  }

  /** The CBC section lists, read in order, are exactly the CBC template's test names, and share none. */
  lemma CbcSectionsPartitionTemplate()
    ensures AllTests(CbcSections) == CbcTests
    ensures PairwiseDisjoint(CbcSections)
  {
    CbcSectionsInOrder();
    CbcSectionsDisjoint();
  }

  lemma CbcSectionsInOrder()
    ensures AllTests(CbcSections) == CbcTests
  {
    assert AllTests(CbcSections[4..]) == CbcSections[4].tests;
  }

  lemma CbcSectionsDisjoint()
    ensures PairwiseDisjoint(CbcSections)
  {
    CbcPairDisjoint01();
    CbcPairDisjoint02();
    CbcPairDisjoint03();
    CbcPairDisjoint04();
    CbcPairDisjoint12();
    CbcPairDisjoint13();
    CbcPairDisjoint14();
    CbcPairDisjoint23();
    CbcPairDisjoint24();
    CbcPairDisjoint34();
    forall k, l | 0 <= k < l < |CbcSections|
      ensures Disjoint(CbcSections[k].tests, CbcSections[l].tests)
    {
    }
  }

  lemma CbcPairDisjoint01()
    ensures Disjoint(CbcSections[0].tests, CbcSections[1].tests)
  {
  }

  lemma CbcPairDisjoint02()
    ensures Disjoint(CbcSections[0].tests, CbcSections[2].tests)
  {
  }

  lemma CbcPairDisjoint03()
    ensures Disjoint(CbcSections[0].tests, CbcSections[3].tests)
  {
  }

  lemma CbcPairDisjoint04()
    ensures Disjoint(CbcSections[0].tests, CbcSections[4].tests)
  {
  }

  lemma CbcPairDisjoint12()
    ensures Disjoint(CbcSections[1].tests, CbcSections[2].tests)
  {
  }

  lemma CbcPairDisjoint13()
    ensures Disjoint(CbcSections[1].tests, CbcSections[3].tests)
  {
  }

  lemma CbcPairDisjoint14()
    ensures Disjoint(CbcSections[1].tests, CbcSections[4].tests)
  {
  }

  lemma CbcPairDisjoint23()
    ensures Disjoint(CbcSections[2].tests, CbcSections[3].tests)
  {
  }

  lemma CbcPairDisjoint24()
    ensures Disjoint(CbcSections[2].tests, CbcSections[4].tests)
  {
  }

  lemma CbcPairDisjoint34()
    ensures Disjoint(CbcSections[3].tests, CbcSections[4].tests)
  {
  }

  /** The LFT section list is exactly the LFT template's test names. */
  lemma LftSectionCoversTemplate()
    ensures AllTests(LftSections) == LftTests
    ensures PairwiseDisjoint(LftSections)
  {
  }

  /** Every filled row of a CBC table built from the template names is printed in exactly one CBC section. */
  lemma CbcPrintsEachFilledRowOnce(rows: seq<Row>)
    requires forall i :: 0 <= i < |rows| ==> rows[i].test in CbcTests
    ensures TotalPrinted(rows, CbcSections) == |Filled(rows)|
  {
    CbcSectionsPartitionTemplate();
    SectionsPrintEachFilledRowOnce(rows, CbcSections);
  }

  /** Every filled row of an LFT table built from the template names is printed in the LFT section. */
  lemma LftPrintsEachFilledRowOnce(rows: seq<Row>)
    requires forall i :: 0 <= i < |rows| ==> rows[i].test in LftTests
    ensures TotalPrinted(rows, LftSections) == |Filled(rows)|
  {
    LftSectionCoversTemplate();
    SectionsPrintEachFilledRowOnce(rows, LftSections);
  }
}
