/** The JUnit report format: one <testsuite> element per completed suite.
    At suite completion the formatter walks the suite's tests and the
    suite's failure chain in lock step. A cursor into the chain moves past
    a test's records when the test is reported as failed. */
module ReportJUnit {
  import opened TestDb
  import opened Xml
  import opened CStrings
  import opened FileNames

  /** How one <testcase> of a suite is reported. */
  datatype CaseEntry =
    | Passed(test: Test)
    | Errored(test: Test)
    | Skipped(test: Test)
    | Failed(test: Test, message: Text, details: seq<FailureRecord>)
    | SuiteDummy(record: FailureRecord)

  /** The chain record under the cursor belongs to test t. */
  predicate References(chain: seq<FailureRecord>, cur: nat, t: Test) {
    cur < |chain| && chain[cur].test == Some(t.id)
  }

  /** The end of the run of consecutive records, from cur on, that belong
      to the test with the given id. */
  function RunEnd(chain: seq<FailureRecord>, cur: nat, id: TestId): (k: nat)
    requires cur <= |chain|
    ensures cur <= k <= |chain|
    ensures forall i :: cur <= i < k ==> chain[i].test == Some(id)
    ensures k < |chain| ==> chain[k].test != Some(id)
    decreases |chain| - cur
  {
    if cur < |chain| && chain[cur].test == Some(id) then RunEnd(chain, cur + 1, id) else cur
  }

  /** print_single_test_failed: the message is the first record's
      condition; the details are every record of the test's run. */
  function FailedEntry(t: Test, chain: seq<FailureRecord>, cur: nat): CaseEntry
    requires cur < |chain|
  {
    Failed(t, ConditionText(chain[cur].condition), chain[cur..RunEnd(chain, cur, t.id)])
  }

  /** One step of the lock-step walk, as written: a test the cursor does
      not reference passed; a test-inactive record gives a skipped entry
      and leaves the cursor where it is; any other record gives a failed
      entry and moves the cursor past the test's records. */
  function Entry(t: Test, chain: seq<FailureRecord>, cur: nat): (r: (CaseEntry, nat))
    requires cur <= |chain|
    ensures cur <= r.1 <= |chain|
    ensures r.0.Passed? <==> !References(chain, cur, t)
    ensures r.0.Skipped? <==> References(chain, cur, t) && chain[cur].kind == TestInactive
    ensures !r.0.SuiteDummy? && !r.0.Errored? && r.0.test == t
    ensures !r.0.Failed? ==> r.1 == cur
    ensures r.0.Failed? ==>
      cur < r.1 && r.0.details == chain[cur..r.1] && r.0.message == ConditionText(chain[cur].condition)
      && (forall i :: cur <= i < r.1 ==> chain[i].test == Some(t.id))
      && (r.1 < |chain| ==> chain[r.1].test != Some(t.id))
  {
    if !References(chain, cur, t) then (Passed(t), cur)
    else if chain[cur].kind == TestInactive then (Skipped(t), cur)
    else (FailedEntry(t, chain, cur), RunEnd(chain, cur, t.id))
  }

  /** The entries of a list of tests and the cursor after them. */
  function Merge(tests: seq<Test>, chain: seq<FailureRecord>, cur: nat): (r: (seq<CaseEntry>, nat))
    requires cur <= |chain|
    ensures |r.0| == |tests| && cur <= r.1 <= |chain|
    decreases |tests|
  {
    if tests == [] then ([], cur)
    else
      var m := Merge(tests[..|tests| - 1], chain, cur);
      var e := Entry(tests[|tests| - 1], chain, m.1);
      (m.0 + [e.0], e.1)
  }

  /** The walk reports every test once, in test order, and reports no test
      as errored and no suite dummy. */
  lemma {:induction false} MergeShape(tests: seq<Test>, chain: seq<FailureRecord>, cur: nat)
    requires cur <= |chain|
    ensures forall i :: 0 <= i < |tests| ==>
      var e := Merge(tests, chain, cur).0[i];
      !e.SuiteDummy? && !e.Errored? && e.test == tests[i]
    decreases |tests|
  {
    if tests != [] {
      MergeShape(tests[..|tests| - 1], chain, cur);
    }
  }

  /** The walk over one more test extends the walk over the shorter list. */
  lemma MergeSnoc(tests: seq<Test>, i: nat, chain: seq<FailureRecord>)
    requires i < |tests|
    ensures var m := Merge(tests[..i], chain, 0);
      var e := Entry(tests[i], chain, m.1);
      Merge(tests[..i + 1], chain, 0) == (m.0 + [e.0], e.1)
  {
    assert tests[..i + 1][..i] == tests[..i];
  }

  /** The output of the walk over one more test is the output of the walk
      so far followed by the next test's entry. */
  lemma WalkStep(prior: seq<Token>, classname: string, suiteText: Text, tests: seq<Test>, i: nat, chain: seq<FailureRecord>)
    requires i < |tests|
    ensures var m := Merge(tests[..i], chain, 0);
      var e := Entry(tests[i], chain, m.1);
      && Merge(tests[..i + 1], chain, 0).1 == e.1
      && prior + RenderEntries(classname, suiteText, Merge(tests[..i + 1], chain, 0).0)
         == prior + RenderEntries(classname, suiteText, m.0) + RenderEntry(classname, suiteText, e.0)
  {
    var m := Merge(tests[..i], chain, 0);
    var e := Entry(tests[i], chain, m.1);
    MergeSnoc(tests, i, chain);
    RenderEntriesSnoc(classname, suiteText, m.0, e.0);
    AppendAssoc(prior, RenderEntries(classname, suiteText, m.0), RenderEntry(classname, suiteText, e.0));
  }

  function AllPassed(tests: seq<Test>): (r: seq<CaseEntry>)
    ensures |r| == |tests| && forall i :: 0 <= i < |tests| ==> r[i] == Passed(tests[i])
    decreases |tests|
  {
    if tests == [] then [] else AllPassed(tests[..|tests| - 1]) + [Passed(tests[|tests| - 1])]
  }

  function AllErrored(tests: seq<Test>): (r: seq<CaseEntry>)
    ensures |r| == |tests| && forall i :: 0 <= i < |tests| ==> r[i] == Errored(tests[i])
    decreases |tests|
  {
    if tests == [] then [] else AllErrored(tests[..|tests| - 1]) + [Errored(tests[|tests| - 1])]
  }

  /** The output for one more test is the output so far followed by that
      test's entry. */
  lemma AllPassedStep(prior: seq<Token>, classname: string, suiteText: Text, tests: seq<Test>, i: nat)
    requires i < |tests|
    ensures prior + RenderEntries(classname, suiteText, AllPassed(tests[..i + 1]))
      == prior + RenderEntries(classname, suiteText, AllPassed(tests[..i])) + RenderEntry(classname, suiteText, Passed(tests[i]))
  {
    assert tests[..i + 1][..i] == tests[..i];
    assert AllPassed(tests[..i + 1]) == AllPassed(tests[..i]) + [Passed(tests[i])];
    RenderEntriesSnoc(classname, suiteText, AllPassed(tests[..i]), Passed(tests[i]));
    AppendAssoc(prior, RenderEntries(classname, suiteText, AllPassed(tests[..i])), RenderEntry(classname, suiteText, Passed(tests[i])));
  }

  /** The output for one more test is the output so far followed by that
      test's entry. */
  lemma AllErroredStep(prior: seq<Token>, classname: string, suiteText: Text, tests: seq<Test>, i: nat)
    requires i < |tests|
    ensures prior + RenderEntries(classname, suiteText, AllErrored(tests[..i + 1]))
      == prior + RenderEntries(classname, suiteText, AllErrored(tests[..i])) + RenderEntry(classname, suiteText, Errored(tests[i]))
  {
    assert tests[..i + 1][..i] == tests[..i];
    assert AllErrored(tests[..i + 1]) == AllErrored(tests[..i]) + [Errored(tests[i])];
    RenderEntriesSnoc(classname, suiteText, AllErrored(tests[..i]), Errored(tests[i]));
    AppendAssoc(prior, RenderEntries(classname, suiteText, AllErrored(tests[..i])), RenderEntry(classname, suiteText, Errored(tests[i])));
  }

  /** The cleanup dummy, when the record under the cursor after the walk is
      a cleanup failure. */
  function CleanupDummy(chain: seq<FailureRecord>, c: nat): seq<CaseEntry> {
    if c < |chain| && chain[c].kind == SuiteCleanupFailed then [SuiteDummy(chain[c])] else []
  }

  /** suite_complete: the entries of a suite, as written. */
  function SuiteEntries(suite: Suite, chain: seq<FailureRecord>): seq<CaseEntry> {
    if chain == [] then AllPassed(suite.tests)
    else if chain[0].kind == SuiteInitFailed then [SuiteDummy(chain[0])] + AllErrored(suite.tests)
    else
      var m := Merge(suite.tests, chain, 0);
      m.0 + CleanupDummy(chain, m.1)
  }

  /** Without failure records every test passed, and every test case is
      written as one self-closing tag. */
  lemma NullChainAllPassed(pkg: string, suite: Suite)
    ensures var es := SuiteEntries(suite, []);
      |es| == |suite.tests| && (forall i :: 0 <= i < |es| ==> es[i] == Passed(suite.tests[i]))
      && AllLeaves(RenderEntries(pkg + ".", Escaped(suite.name), es))
  {
    PassedRenderAsLeaves(pkg + ".", Escaped(suite.name), SuiteEntries(suite, []));
  }

  /** A failed initialization gives one dummy test case for the suite and
      reports every test as errored: none passed, none failed, none
      skipped, and the rest of the chain is not looked at. */
  lemma InitFailureShortCircuit(suite: Suite, chain: seq<FailureRecord>)
    requires chain != [] && chain[0].kind == SuiteInitFailed
    ensures var es := SuiteEntries(suite, chain);
      && |es| == |suite.tests| + 1
      && es[0] == SuiteDummy(chain[0])
      && (forall i :: 1 <= i < |es| ==> es[i] == Errored(suite.tests[i - 1]))
      && es == SuiteEntries(suite, chain[..1])
  {
  }

  /** Without an initialization failure, there is one entry per test, in
      test order, and a dummy test case exactly when the record the cursor
      stops at is a cleanup failure; the dummy comes last. */
  lemma CleanupDummyIff(suite: Suite, chain: seq<FailureRecord>)
    requires chain != [] && chain[0].kind != SuiteInitFailed
    ensures var es := SuiteEntries(suite, chain);
      var c := Merge(suite.tests, chain, 0).1;
      && (forall i :: 0 <= i < |suite.tests| ==> !es[i].SuiteDummy? && es[i].test == suite.tests[i])
      && ((exists i :: 0 <= i < |es| && es[i].SuiteDummy?) <==> c < |chain| && chain[c].kind == SuiteCleanupFailed)
      && (c < |chain| && chain[c].kind == SuiteCleanupFailed ==>
            |es| == |suite.tests| + 1 && es[|suite.tests|] == SuiteDummy(chain[c]))
      && (!(c < |chain| && chain[c].kind == SuiteCleanupFailed) ==> |es| == |suite.tests|)
  {
    var es := SuiteEntries(suite, chain);
    var m := Merge(suite.tests, chain, 0);
    MergeShape(suite.tests, chain, 0);
    DummyAtEnd(m.0, chain, m.1);
  }

  lemma DummyAtEnd(entries: seq<CaseEntry>, chain: seq<FailureRecord>, c: nat)
    ensures var es := entries + CleanupDummy(chain, c);
      && (c < |chain| && chain[c].kind == SuiteCleanupFailed ==>
            |es| == |entries| + 1 && es[|entries|] == SuiteDummy(chain[c]))
      && (!(c < |chain| && chain[c].kind == SuiteCleanupFailed) ==> es == entries)
      && (forall i :: 0 <= i < |entries| ==> es[i] == entries[i])
  {
  }

  // ---------------------------------------------------------------------
  // Rendering

  /** The message of the <error> element of an errored test case. */
  const InitDummyMessage: string := "Suite Initialization failed"
  const CleanupDummyMessage: string := "Suite Cleanup failed"

  function DetailOf(f: FailureRecord): Token {
    Leaf(FailureDetail(ConditionText(f.condition), FileNameText(f.fileName), f.line))
  }

  /** print_failure_details, once per record. */
  function Details(fs: seq<FailureRecord>): seq<Token>
    decreases |fs|
  {
    if fs == [] then [] else Details(fs[..|fs| - 1]) + [DetailOf(fs[|fs| - 1])]
  }

  /** One detail block per record, in chain order, and nothing else. */
  lemma {:induction false} DetailsShape(fs: seq<FailureRecord>)
    ensures |Details(fs)| == |fs| && AllLeaves(Details(fs))
    ensures forall i :: 0 <= i < |fs| ==> Details(fs)[i] == DetailOf(fs[i])
    decreases |fs|
  {
    if fs != [] {
      DetailsShape(fs[..|fs| - 1]);
    }
  }

  function CaseOpen(classname: string, t: Test): Token {
    Open(TestCase, CaseAttrs(classname, TestName(t.name)))
  }

  function DummyName(f: FailureRecord, suiteText: Text): CaseName {
    if f.kind == SuiteInitFailed then InitDummyName(suiteText) else CleanupDummyName(suiteText)
  }

  function DummyMessage(f: FailureRecord): Text {
    Plain(if f.kind == SuiteInitFailed then InitDummyMessage else CleanupDummyMessage)
  }

  /** The tokens of one test case. */
  function RenderEntry(classname: string, suiteText: Text, e: CaseEntry): seq<Token> {
    match e
    case Passed(t) => [Leaf(PassedCase(classname, t.name))]
    case Errored(t) => [CaseOpen(classname, t), Leaf(ErrorDetail), Close(TestCase)]
    case Skipped(t) => [CaseOpen(classname, t), Leaf(SkippedDetail), Close(TestCase)]
    case Failed(t, message, details) =>
      [CaseOpen(classname, t), Open(FailureTag, FailureAttrs(message))] + Details(details) + [Close(FailureTag), Close(TestCase)]
    case SuiteDummy(f) =>
      [Open(TestCase, CaseAttrs(classname, DummyName(f, suiteText))), Open(FailureTag, FailureAttrs(DummyMessage(f)))]
      + Details([f]) + [Close(FailureTag), Close(TestCase)]
  }

  function RenderEntries(classname: string, suiteText: Text, es: seq<CaseEntry>): seq<Token>
    decreases |es|
  {
    if es == [] then []
    else RenderEntries(classname, suiteText, es[..|es| - 1]) + RenderEntry(classname, suiteText, es[|es| - 1])
  }

  lemma RenderEntriesSnoc(classname: string, suiteText: Text, es: seq<CaseEntry>, e: CaseEntry)
    ensures RenderEntries(classname, suiteText, es + [e]) == RenderEntries(classname, suiteText, es) + RenderEntry(classname, suiteText, e)
  {
    assert (es + [e])[..|es|] == es;
  }

  lemma RenderEntriesOne(classname: string, suiteText: Text, e: CaseEntry)
    ensures RenderEntries(classname, suiteText, [e]) == RenderEntry(classname, suiteText, e)
  {
    assert [e][..0] == [];
    assert [] + RenderEntry(classname, suiteText, e) == RenderEntry(classname, suiteText, e);
  }

  lemma {:induction false} RenderEntriesAppend(classname: string, suiteText: Text, a: seq<CaseEntry>, b: seq<CaseEntry>)
    ensures RenderEntries(classname, suiteText, a + b) == RenderEntries(classname, suiteText, a) + RenderEntries(classname, suiteText, b)
    decreases |b|
  {
    if b == [] {
      assert a + b == a;
    } else {
      var front := b[..|b| - 1];
      assert a + b == (a + front) + [b[|b| - 1]];
      RenderEntriesSnoc(classname, suiteText, a + front, b[|b| - 1]);
      RenderEntriesAppend(classname, suiteText, a, front);
      RenderEntriesSnoc(classname, suiteText, front, b[|b| - 1]);
      AppendAssoc(RenderEntries(classname, suiteText, a), RenderEntries(classname, suiteText, front), RenderEntry(classname, suiteText, b[|b| - 1]));
    }
  }

  lemma {:induction false} PassedRenderAsLeaves(classname: string, suiteText: Text, es: seq<CaseEntry>)
    requires forall i :: 0 <= i < |es| ==> es[i].Passed?
    ensures AllLeaves(RenderEntries(classname, suiteText, es))
    decreases |es|
  {
    if es != [] {
      PassedRenderAsLeaves(classname, suiteText, es[..|es| - 1]);
    }
  }

  /** The <testsuite> element of one completed suite; the package name is
      the one in effect when the suite completes. */
  function SuiteOutput(pkg: string, suite: Suite, entries: seq<CaseEntry>): seq<Token> {
    [Open(TestSuiteTag, SuiteAttrs(suite.numberOfTests, Escaped(suite.name)))]
      + RenderEntries(pkg + ".", Escaped(suite.name), entries)
      + [Close(TestSuiteTag)]
  }

  /** A <testcase> holding one nested element and closing it. */
  lemma CaseBalanced(open: Token, inner: Tag, attrs: Attrs, body: seq<Token>)
    requires open.Open? && open.tag == TestCase && AllLeaves(body)
    ensures Balanced([open, Open(inner, attrs)] + body + [Close(inner), Close(TestCase)])
  {
    LeavesBalanced(body);
    BalancedWrap(inner, attrs, body);
    BalancedWrap(TestCase, open.attrs, [Open(inner, attrs)] + body + [Close(inner)]);
    assert [open] + ([Open(inner, attrs)] + body + [Close(inner)]) + [Close(TestCase)]
      == [open, Open(inner, attrs)] + body + [Close(inner), Close(TestCase)];
  }

  lemma RenderEntryBalanced(classname: string, suiteText: Text, e: CaseEntry)
    ensures Balanced(RenderEntry(classname, suiteText, e))
  {
    match e
    case Passed(t) =>
      LeavesBalanced(RenderEntry(classname, suiteText, e));
    case Errored(t) =>
      LeavesBalanced([Leaf(ErrorDetail)]);
      BalancedWrap(TestCase, CaseAttrs(classname, TestName(t.name)), [Leaf(ErrorDetail)]);
      assert [CaseOpen(classname, t)] + [Leaf(ErrorDetail)] + [Close(TestCase)] == RenderEntry(classname, suiteText, e);
    case Skipped(t) =>
      LeavesBalanced([Leaf(SkippedDetail)]);
      BalancedWrap(TestCase, CaseAttrs(classname, TestName(t.name)), [Leaf(SkippedDetail)]);
      assert [CaseOpen(classname, t)] + [Leaf(SkippedDetail)] + [Close(TestCase)] == RenderEntry(classname, suiteText, e);
    case Failed(t, message, details) =>
      DetailsShape(details);
      CaseBalanced(CaseOpen(classname, t), FailureTag, FailureAttrs(message), Details(details));
    case SuiteDummy(f) =>
      DetailsShape([f]);
      CaseBalanced(Open(TestCase, CaseAttrs(classname, DummyName(f, suiteText))), FailureTag, FailureAttrs(DummyMessage(f)), Details([f]));
  }

  lemma {:induction false} RenderEntriesBalanced(classname: string, suiteText: Text, es: seq<CaseEntry>)
    ensures Balanced(RenderEntries(classname, suiteText, es))
    decreases |es|
  {
    if es == [] {
      LeavesBalanced([]);
    } else {
      RenderEntriesBalanced(classname, suiteText, es[..|es| - 1]);
      RenderEntryBalanced(classname, suiteText, es[|es| - 1]);
      BalancedConcat(RenderEntries(classname, suiteText, es[..|es| - 1]), RenderEntry(classname, suiteText, es[|es| - 1]));
    }
  }

  /** Every suite element is well formed, whatever the entries. */
  lemma SuiteOutputBalanced(pkg: string, suite: Suite, entries: seq<CaseEntry>)
    ensures Balanced(SuiteOutput(pkg, suite, entries))
  {
    RenderEntriesBalanced(pkg + ".", Escaped(suite.name), entries);
    BalancedWrap(TestSuiteTag, SuiteAttrs(suite.numberOfTests, Escaped(suite.name)), RenderEntries(pkg + ".", Escaped(suite.name), entries));
  }

  /** What the engine hands suite_complete for one suite. */
  datatype SuiteRun = SuiteRun(pkg: string, suite: Suite, chain: seq<FailureRecord>)

  function SuitesOutput(runs: seq<SuiteRun>): seq<Token>
    decreases |runs|
  {
    if runs == [] then []
    else
      var r := runs[|runs| - 1];
      SuitesOutput(runs[..|runs| - 1]) + SuiteOutput(r.pkg, r.suite, SuiteEntries(r.suite, r.chain))
  }

  /** The results document: the <testsuites> element written at open_report
      (with the counts of the run summary at that time), the suites in
      completion order, and the closing tag written at all_tests_complete. */
  function JUnitDocument(summary: RunSummary, runs: seq<SuiteRun>): seq<Token> {
    [Open(TestSuites, SuitesAttrs(summary.nTestsFailed, summary.nTestsRun))] + SuitesOutput(runs) + [Close(TestSuites)]
  }

  lemma {:induction false} SuitesOutputBalanced(runs: seq<SuiteRun>)
    ensures Balanced(SuitesOutput(runs))
    decreases |runs|
  {
    if runs == [] {
      LeavesBalanced([]);
    } else {
      var r := runs[|runs| - 1];
      SuitesOutputBalanced(runs[..|runs| - 1]);
      SuiteOutputBalanced(r.pkg, r.suite, SuiteEntries(r.suite, r.chain));
      BalancedConcat(SuitesOutput(runs[..|runs| - 1]), SuiteOutput(r.pkg, r.suite, SuiteEntries(r.suite, r.chain)));
    }
  }

  lemma JUnitDocumentBalanced(summary: RunSummary, runs: seq<SuiteRun>)
    ensures Balanced(JUnitDocument(summary, runs))
  {
    SuitesOutputBalanced(runs);
    BalancedWrap(TestSuites, SuitesAttrs(summary.nTestsFailed, summary.nTestsRun), SuitesOutput(runs));
  }

  // ---------------------------------------------------------------------
  // Lock-step walk against a chain grouped by test

  /** groups[i] holds records of tests[i] only. */
  ghost predicate GroupsFor(tests: seq<Test>, groups: seq<seq<FailureRecord>>) {
    |groups| == |tests|
    && forall i, j :: 0 <= i < |groups| && 0 <= j < |groups[i]| ==> groups[i][j].test == Some(tests[i].id)
  }

  ghost predicate DistinctIds(tests: seq<Test>) {
    forall i, j :: 0 <= i < j < |tests| ==> tests[i].id != tests[j].id
  }

  function Flatten(groups: seq<seq<FailureRecord>>): seq<FailureRecord>
    decreases |groups|
  {
    if groups == [] then [] else Flatten(groups[..|groups| - 1]) + groups[|groups| - 1]
  }

  /** The reference classification of a test from its own records: none
      means passed, a leading test-inactive record means skipped, anything
      else means failed with all of them as details. */
  function Expected(t: Test, group: seq<FailureRecord>): CaseEntry {
    if group == [] then Passed(t)
    else if group[0].kind == TestInactive then Skipped(t)
    else Failed(t, ConditionText(group[0].condition), group)
  }

  function ExpectedAll(tests: seq<Test>, groups: seq<seq<FailureRecord>>): (r: seq<CaseEntry>)
    requires |groups| == |tests|
    ensures |r| == |tests| && forall i :: 0 <= i < |tests| ==> r[i] == Expected(tests[i], groups[i])
  {
    seq(|tests|, i requires 0 <= i < |tests| => Expected(tests[i], groups[i]))
  }

  /** The corrected step: a skipped test's records are consumed like a
      failed test's, so the cursor reaches the next test's records. */
  function EntryCorrected(t: Test, chain: seq<FailureRecord>, cur: nat): (r: (CaseEntry, nat))
    requires cur <= |chain|
    ensures cur <= r.1 <= |chain|
    ensures r.0.Passed? <==> !References(chain, cur, t)
    ensures r.0.Skipped? <==> References(chain, cur, t) && chain[cur].kind == TestInactive
    ensures !r.0.SuiteDummy? && !r.0.Errored? && r.0.test == t
    ensures r.1 == RunEnd(chain, cur, t.id)
  {
    if !References(chain, cur, t) then (Passed(t), cur)
    else if chain[cur].kind == TestInactive then (Skipped(t), RunEnd(chain, cur, t.id))
    else (FailedEntry(t, chain, cur), RunEnd(chain, cur, t.id))
  }

  function MergeCorrected(tests: seq<Test>, chain: seq<FailureRecord>, cur: nat): (r: (seq<CaseEntry>, nat))
    requires cur <= |chain|
    ensures |r.0| == |tests| && cur <= r.1 <= |chain|
    decreases |tests|
  {
    if tests == [] then ([], cur)
    else
      var m := MergeCorrected(tests[..|tests| - 1], chain, cur);
      var e := EntryCorrected(tests[|tests| - 1], chain, m.1);
      (m.0 + [e.0], e.1)
  }

  /** suite_complete with the corrected walk. */
  function SuiteEntriesCorrected(suite: Suite, chain: seq<FailureRecord>): seq<CaseEntry> {
    if chain == [] then AllPassed(suite.tests)
    else if chain[0].kind == SuiteInitFailed then [SuiteDummy(chain[0])] + AllErrored(suite.tests)
    else
      var m := MergeCorrected(suite.tests, chain, 0);
      m.0 + CleanupDummy(chain, m.1)
  }

  /** The cursor at the start of a test's group runs to the group's end. */
  lemma {:induction false} RunEndOfGroup(chain: seq<FailureRecord>, cur: nat, group: seq<FailureRecord>, id: TestId)
    requires cur + |group| <= |chain| && chain[cur..cur + |group|] == group
    requires forall j :: 0 <= j < |group| ==> group[j].test == Some(id)
    requires cur + |group| < |chain| ==> chain[cur + |group|].test != Some(id)
    ensures RunEnd(chain, cur, id) == cur + |group|
    decreases |group|
  {
    if group != [] {
      assert chain[cur] == group[0];
      assert chain[cur + 1..cur + 1 + |group[1..]|] == group[1..];
      RunEndOfGroup(chain, cur + 1, group[1..], id);
    }
  }

  /** The chain record just after the groups of tests does not belong to
      any of those tests. */
  ghost predicate ForeignNext(tests: seq<Test>, rest: seq<FailureRecord>) {
    rest != [] ==> forall i :: 0 <= i < |tests| ==> rest[0].test != Some(tests[i].id)
  }

  /** The corrected step on a test whose records form the group g right
      at the cursor, followed by a record of another test or by the end of
      the chain: the entry is the reference classification and the cursor
      moves past the group. */
  lemma EntryOfGroup(t: Test, front: seq<FailureRecord>, g: seq<FailureRecord>, rest: seq<FailureRecord>)
    requires forall j :: 0 <= j < |g| ==> g[j].test == Some(t.id)
    requires rest != [] ==> rest[0].test != Some(t.id)
    ensures EntryCorrected(t, front + g + rest, |front|) == (Expected(t, g), |front| + |g|)
  {
    var chain := front + g + rest;
    var cur := |front|;
    assert chain[cur..cur + |g|] == g;
    assert cur + |g| < |chain| ==> chain[cur + |g|] == rest[0];
    RunEndOfGroup(chain, cur, g, t.id);
    if g != [] {
      assert chain[cur] == g[0];
      assert chain[cur..RunEnd(chain, cur, t.id)] == g;
    }
  }

  /** When the chain holds, for each test in order, a contiguous group of
      that test's records, the corrected walk classifies every test from
      its own records and stops right after the last group. */
  lemma {:induction false} CorrectedMergeMatchesGroups(tests: seq<Test>, groups: seq<seq<FailureRecord>>, rest: seq<FailureRecord>)
    requires GroupsFor(tests, groups) && DistinctIds(tests)
    requires ForeignNext(tests, rest)
    ensures MergeCorrected(tests, Flatten(groups) + rest, 0) == (ExpectedAll(tests, groups), |Flatten(groups)|)
    decreases |tests|
  {
    if tests != [] {
      var n := |tests| - 1;
      var front := tests[..n];
      var frontGroups := groups[..n];
      var g := groups[n];
      var t := tests[n];
      var chain := Flatten(groups) + rest;
      assert chain == Flatten(frontGroups) + (g + rest);
      assert GroupsFor(front, frontGroups);
      assert ForeignNext(front, g + rest) by {
        if g != [] {
          assert (g + rest)[0] == g[0];
          assert g[0].test == Some(t.id);
        } else {
          assert g + rest == rest;
        }
      }
      CorrectedMergeMatchesGroups(front, frontGroups, g + rest);
      assert forall j :: 0 <= j < |g| ==> g[j].test == Some(t.id);
      EntryOfGroup(t, Flatten(frontGroups), g, rest);
      assert Flatten(frontGroups) + g + rest == chain;
      ExpectedAllSnoc(tests, groups);
    }
  }

  lemma ExpectedAllSnoc(tests: seq<Test>, groups: seq<seq<FailureRecord>>)
    requires |groups| == |tests| > 0
    ensures var n := |tests| - 1;
      ExpectedAll(tests[..n], groups[..n]) + [Expected(tests[n], groups[n])] == ExpectedAll(tests, groups)
  {
    var n := |tests| - 1;
    var a := ExpectedAll(tests[..n], groups[..n]) + [Expected(tests[n], groups[n])];
    var b := ExpectedAll(tests, groups);
    assert |a| == |b|;
    forall i | 0 <= i < |a| ensures a[i] == b[i] {
      if i < n {
        assert tests[..n][i] == tests[i] && groups[..n][i] == groups[i];
      }
    }
  }

  /** Where the chain holds no test-inactive record, the walk as written
      and the corrected walk agree. */
  lemma {:induction false} MergeAgreesWithoutInactive(tests: seq<Test>, chain: seq<FailureRecord>, cur: nat)
    requires cur <= |chain|
    requires forall i :: 0 <= i < |chain| ==> chain[i].kind != TestInactive
    ensures Merge(tests, chain, cur) == MergeCorrected(tests, chain, cur)
    decreases |tests|
  {
    if tests != [] {
      MergeAgreesWithoutInactive(tests[..|tests| - 1], chain, cur);
    }
  }

  /** Lifted to a whole suite element: where the chain holds no
      test-inactive record, suite_complete as written and corrected write
      the same entries, cleanup dummy included. */
  lemma SuiteAgreesWithoutInactive(suite: Suite, chain: seq<FailureRecord>)
    requires forall i :: 0 <= i < |chain| ==> chain[i].kind != TestInactive
    ensures SuiteEntries(suite, chain) == SuiteEntriesCorrected(suite, chain)
  {
    if chain != [] && chain[0].kind != SuiteInitFailed {
      MergeAgreesWithoutInactive(suite.tests, chain, 0);
    }
  }

  /** The lock-step example: tests A, B, C and two records of B only give
      A passed, B failed with both records as details, C passed. */
  lemma LockStepExample(a: Test, b: Test, c: Test, r1: FailureRecord, r2: FailureRecord)
    requires a.id != b.id && b.id != c.id && a.id != c.id
    requires r1.test == Some(b.id) && r2.test == Some(b.id)
    requires r1.kind == AssertFailed && r2.kind == AssertFailed
    ensures Merge([a, b, c], [r1, r2], 0) == ([Passed(a), Failed(b, ConditionText(r1.condition), [r1, r2]), Passed(c)], 2)
  {
    var chain := [r1, r2];
    assert [a, b, c][..2] == [a, b] && [a, b][..1] == [a] && [a][..0] == [];
    assert Merge([], chain, 0) == ([], 0);
    assert Entry(a, chain, 0) == (Passed(a), 0);
    assert [] + [Passed(a)] == [Passed(a)];
    assert Merge([a], chain, 0) == ([Passed(a)], 0);
    assert RunEnd(chain, 2, b.id) == 2;
    assert RunEnd(chain, 1, b.id) == 2;
    assert RunEnd(chain, 0, b.id) == 2;
    assert chain[0..2] == chain;
    assert Entry(b, chain, 0) == (Failed(b, ConditionText(r1.condition), [r1, r2]), 2);
    assert [Passed(a)] + [Failed(b, ConditionText(r1.condition), [r1, r2])] == [Passed(a), Failed(b, ConditionText(r1.condition), [r1, r2])];
    assert Merge([a, b], chain, 0) == ([Passed(a), Failed(b, ConditionText(r1.condition), [r1, r2])], 2);
    assert Entry(c, chain, 2) == (Passed(c), 2);
    assert [Passed(a), Failed(b, ConditionText(r1.condition), [r1, r2])] + [Passed(c)]
      == [Passed(a), Failed(b, ConditionText(r1.condition), [r1, r2]), Passed(c)];
  }

  /** As written, a skipped test leaves the cursor on its own record, so
      the next test is reported as passed although it has a failure; the
      corrected walk reports it as failed. */
  lemma InactiveMasksLaterFailure(a: Test, b: Test, skip: FailureRecord, fail: FailureRecord)
    requires a.id != b.id
    requires skip.kind == TestInactive && skip.test == Some(a.id)
    requires fail.kind == AssertFailed && fail.test == Some(b.id)
    ensures Merge([a, b], [skip, fail], 0).0 == [Skipped(a), Passed(b)]
    ensures MergeCorrected([a, b], [skip, fail], 0).0 == [Skipped(a), Failed(b, ConditionText(fail.condition), [fail])]
  {
    var chain := [skip, fail];
    assert [a, b][..1] == [a] && [a][..0] == [];
    assert Merge([], chain, 0) == ([], 0);
    assert Entry(a, chain, 0) == (Skipped(a), 0);
    assert [] + [Skipped(a)] == [Skipped(a)];
    assert Merge([a], chain, 0) == ([Skipped(a)], 0);
    assert Entry(b, chain, 0) == (Passed(b), 0);
    assert MergeCorrected([], chain, 0) == ([], 0);
    assert RunEnd(chain, 2, b.id) == 2;
    assert RunEnd(chain, 1, b.id) == 2;
    assert RunEnd(chain, 1, a.id) == 1;
    assert RunEnd(chain, 0, a.id) == 1;
    assert EntryCorrected(a, chain, 0) == (Skipped(a), 1);
    assert MergeCorrected([a], chain, 0) == ([Skipped(a)], 1);
    assert [Skipped(a)] + [Failed(b, ConditionText(fail.condition), [fail])] == [Skipped(a), Failed(b, ConditionText(fail.condition), [fail])];
    assert chain[1..2] == [fail];
    assert EntryCorrected(b, chain, 1) == (Failed(b, ConditionText(fail.condition), [fail]), 2);
  }

  // ---------------------------------------------------------------------
  // The module statics and the handlers that update them

  class JUnitReport {
    const listName: array<char>
    const resultName: array<char>
    /** f_pTestResultFile is non-NULL. close_report does not reset it. */
    var hasResultFile: bool
    /** What has been written to the results file since it was opened. */
    var results: seq<Token>

    ghost predicate Valid()
      reads this, listName, resultName
    {
      && listName.Length == MaxFilenameLength
      && resultName.Length == MaxFilenameLength
      && listName != resultName
      && NUL in listName[..]
      && NUL in resultName[..]
    }

    constructor ()
      ensures Valid() && fresh(listName) && fresh(resultName)
      ensures CStr(listName[..]) == "" && CStr(resultName[..]) == ""
      ensures !hasResultFile && results == []
    {
      listName := new char[MaxFilenameLength](_ => NUL);
      resultName := new char[MaxFilenameLength](_ => NUL);
      hasResultFile := false;
      results := [];
      new;
      assert listName[..][0] == NUL && resultName[..][0] == NUL;
    }

    /** set_output_filename */
    method SetOutputFilename(root: Option<string>)
      requires Valid()
      requires root.Some? ==> NUL !in root.value
      modifies listName, resultName
      ensures Valid()
      ensures CStr(listName[..]) == DerivedName(root, ListEnding)
      ensures CStr(resultName[..]) == DerivedName(root, ResultEnding)
    {
      FillName(listName, root, ListEnding);
      FillName(resultName, root, ResultEnding);
    }

    /** open_report: falls back to the default root when no results name
        is set; on a successful open writes the <testsuites> tag with the
        counts the run summary holds at that moment. */
    method OpenReport(summary: RunSummary, openOk: bool) returns (code: ErrorCode)
      requires Valid()
      modifies this, listName, resultName
      ensures Valid()
      ensures old(CStr(resultName[..])) == "" ==>
        CStr(listName[..]) == DerivedName(Some(DefaultFileRoot), ListEnding)
        && CStr(resultName[..]) == DerivedName(Some(DefaultFileRoot), ResultEnding)
      ensures old(CStr(resultName[..])) != "" ==>
        listName[..] == old(listName[..]) && resultName[..] == old(resultName[..])
      ensures hasResultFile == openOk
      ensures code == if openOk then Success else FOpenFailed
      ensures results == if openOk then [Open(TestSuites, SuitesAttrs(summary.nTestsFailed, summary.nTestsRun))] else []
    {
      var len := StrLen(resultName);
      if len == 0 {
        SetOutputFilename(Some(DefaultFileRoot));
      }
      code := Success;
      if !openOk {
        hasResultFile := false;
        results := [];
        code := FOpenFailed;
      } else {
        hasResultFile := true;
        results := [Open(TestSuites, SuitesAttrs(summary.nTestsFailed, summary.nTestsRun))];
      }
    }

    /** close_report writes nothing: the closing tag comes from
        all_tests_complete. */
    method CloseReport(closeOk: bool) returns (code: ErrorCode)
      requires Valid() && hasResultFile
      ensures code == if closeOk then Success else FCloseFailed
    {
      code := if closeOk then Success else FCloseFailed;
    }

    /** all_tests_complete */
    method AllTestsComplete()
      requires Valid() && hasResultFile
      modifies this
      ensures Valid() && hasResultFile
      ensures results == old(results) + [Close(TestSuites)]
    {
      results := results + [Close(TestSuites)];
    }

    /** print_failure_details */
    method PrintFailureDetails(f: FailureRecord)
      requires Valid() && hasResultFile
      modifies this
      ensures Valid() && hasResultFile
      ensures results == old(results) + [DetailOf(f)]
    {
      results := results + [Leaf(FailureDetail(ConditionText(f.condition), FileNameText(f.fileName), f.line))];
    }

    /** print_testcase_tag: self-closing unless sub-elements follow. */
    method PrintTestcaseTag(classname: string, t: Test, hasSubTags: bool)
      requires Valid() && hasResultFile
      modifies this
      ensures Valid() && hasResultFile
      ensures results == old(results) + [if hasSubTags then CaseOpen(classname, t) else Leaf(PassedCase(classname, t.name))]
    {
      if hasSubTags {
        results := results + [Open(TestCase, CaseAttrs(classname, TestName(t.name)))];
      } else {
        results := results + [Leaf(PassedCase(classname, t.name))];
      }
    }

    method PrintSingleTestSuccess(classname: string, suiteText: Text, t: Test)
      requires Valid() && hasResultFile
      modifies this
      ensures Valid() && hasResultFile
      ensures results == old(results) + RenderEntry(classname, suiteText, Passed(t))
    {
      PrintTestcaseTag(classname, t, false);
    }

    method PrintSingleTestError(classname: string, suiteText: Text, t: Test)
      requires Valid() && hasResultFile
      modifies this
      ensures Valid() && hasResultFile
      ensures results == old(results) + RenderEntry(classname, suiteText, Errored(t))
    {
      PrintTestcaseTag(classname, t, true);
      results := results + [Leaf(ErrorDetail), Close(TestCase)];
    }

    method PrintSingleTestSkipped(classname: string, suiteText: Text, t: Test)
      requires Valid() && hasResultFile
      modifies this
      ensures Valid() && hasResultFile
      ensures results == old(results) + RenderEntry(classname, suiteText, Skipped(t))
    {
      PrintTestcaseTag(classname, t, true);
      results := results + [Leaf(SkippedDetail), Close(TestCase)];
    }

    /** The detail loop of print_single_test_failed: one detail block per
        record while the record under the cursor belongs to the test. */
    method PrintFailureRun(t: Test, chain: seq<FailureRecord>, cur: nat) returns (next: nat)
      requires Valid() && hasResultFile
      requires cur <= |chain|
      modifies this
      ensures Valid() && hasResultFile
      ensures next == RunEnd(chain, cur, t.id)
      ensures results == old(results) + Details(chain[cur..next])
    {
      next := cur;
      while next < |chain| && chain[next].test == Some(t.id)
        invariant cur <= next <= |chain|
        invariant RunEnd(chain, next, t.id) == RunEnd(chain, cur, t.id)
        invariant Valid() && hasResultFile
        invariant results == old(results) + Details(chain[cur..next])
        decreases |chain| - next
      {
        assert chain[cur..next + 1][..next - cur] == chain[cur..next];
        PrintFailureDetails(chain[next]);
        next := next + 1;
      }
    }

    /** print_single_test_failed: returns the first record after the
        test's run of records. */
    method PrintSingleTestFailed(classname: string, suiteText: Text, t: Test, chain: seq<FailureRecord>, cur: nat) returns (next: nat)
      requires Valid() && hasResultFile
      requires cur < |chain|
      modifies this
      ensures Valid() && hasResultFile
      ensures next == RunEnd(chain, cur, t.id)
      ensures results == old(results) + RenderEntry(classname, suiteText, FailedEntry(t, chain, cur))
    {
      PrintTestcaseTag(classname, t, true);
      var message := ConditionText(chain[cur].condition);
      results := results + [Open(FailureTag, FailureAttrs(message))];
      ghost var afterOpen := results;
      assert afterOpen == old(results) + [CaseOpen(classname, t), Open(FailureTag, FailureAttrs(message))];
      next := PrintFailureRun(t, chain, cur);
      ghost var d := Details(chain[cur..next]);
      assert results == afterOpen + d;
      results := results + [Close(FailureTag), Close(TestCase)];
      ghost var block := [CaseOpen(classname, t), Open(FailureTag, FailureAttrs(message))] + d + [Close(FailureTag), Close(TestCase)];
      assert block == RenderEntry(classname, suiteText, FailedEntry(t, chain, cur));
      assert results == old(results) + block;
    }

    /** print_dummy_test */
    method PrintDummyTest(classname: string, suiteText: Text, f: FailureRecord)
      requires Valid() && hasResultFile
      modifies this
      ensures Valid() && hasResultFile
      ensures results == old(results) + RenderEntry(classname, suiteText, SuiteDummy(f))
    {
      if f.kind == SuiteInitFailed {
        results := results + [Open(TestCase, CaseAttrs(classname, InitDummyName(suiteText))),
                              Open(FailureTag, FailureAttrs(Plain(InitDummyMessage)))];
      } else {
        results := results + [Open(TestCase, CaseAttrs(classname, CleanupDummyName(suiteText))),
                              Open(FailureTag, FailureAttrs(Plain(CleanupDummyMessage)))];
      }
      PrintFailureDetails(f);
      assert [f][..0] == [];
      assert Details([f]) == [DetailOf(f)];
      results := results + [Close(FailureTag), Close(TestCase)];
    }

    /** The loop of suite_complete when there are no failure records. */
    method PrintAllPassed(classname: string, suiteText: Text, tests: seq<Test>)
      requires Valid() && hasResultFile
      modifies this
      ensures Valid() && hasResultFile
      ensures results == old(results) + RenderEntries(classname, suiteText, AllPassed(tests))
    {
      var i := 0;
      while i < |tests|
        invariant i <= |tests|
        invariant Valid() && hasResultFile
        invariant results == old(results) + RenderEntries(classname, suiteText, AllPassed(tests[..i]))
      {
        AllPassedStep(old(results), classname, suiteText, tests, i);
        PrintSingleTestSuccess(classname, suiteText, tests[i]);
        i := i + 1;
      }
      assert tests[..|tests|] == tests;
    }

    /** The loop of suite_complete after a failed initialization. */
    method PrintAllErrored(classname: string, suiteText: Text, tests: seq<Test>)
      requires Valid() && hasResultFile
      modifies this
      ensures Valid() && hasResultFile
      ensures results == old(results) + RenderEntries(classname, suiteText, AllErrored(tests))
    {
      var i := 0;
      while i < |tests|
        invariant i <= |tests|
        invariant Valid() && hasResultFile
        invariant results == old(results) + RenderEntries(classname, suiteText, AllErrored(tests[..i]))
      {
        AllErroredStep(old(results), classname, suiteText, tests, i);
        PrintSingleTestError(classname, suiteText, tests[i]);
        i := i + 1;
      }
      assert tests[..|tests|] == tests;
    }

    /** The body of the lock-step loop of suite_complete: one test case for
        t, and the cursor for the next test. */
    method PrintOneTest(classname: string, suiteText: Text, t: Test, chain: seq<FailureRecord>, cur: nat) returns (next: nat)
      requires Valid() && hasResultFile
      requires cur <= |chain|
      modifies this
      ensures Valid() && hasResultFile
      ensures next == Entry(t, chain, cur).1
      ensures results == old(results) + RenderEntry(classname, suiteText, Entry(t, chain, cur).0)
    {
      next := cur;
      if cur < |chain| && chain[cur].test == Some(t.id) {
        if chain[cur].kind == TestInactive {
          PrintSingleTestSkipped(classname, suiteText, t);
        } else {
          next := PrintSingleTestFailed(classname, suiteText, t, chain, cur);
        }
      } else {
        PrintSingleTestSuccess(classname, suiteText, t);
      }
    }

    /** The lock-step loop of suite_complete: returns the cursor after the
        last test. */
    method PrintWalk(classname: string, suiteText: Text, tests: seq<Test>, chain: seq<FailureRecord>) returns (cur: nat)
      requires Valid() && hasResultFile
      modifies this
      ensures Valid() && hasResultFile
      ensures cur == Merge(tests, chain, 0).1
      ensures results == old(results) + RenderEntries(classname, suiteText, Merge(tests, chain, 0).0)
    {
      var i := 0;
      cur := 0;
      while i < |tests|
        invariant i <= |tests|
        invariant Valid() && hasResultFile
        invariant cur == Merge(tests[..i], chain, 0).1
        invariant results == old(results) + RenderEntries(classname, suiteText, Merge(tests[..i], chain, 0).0)
      {
        WalkStep(old(results), classname, suiteText, tests, i, chain);
        cur := PrintOneTest(classname, suiteText, tests[i], chain, cur);
        i := i + 1;
      }
      assert tests[..|tests|] == tests;
    }

    /** suite_complete: appends the suite's element, as written. */
    method SuiteComplete(pkg: string, suite: Suite, chain: seq<FailureRecord>)
      requires Valid() && hasResultFile
      modifies this
      ensures Valid() && hasResultFile
      ensures results == old(results) + SuiteOutput(pkg, suite, SuiteEntries(suite, chain))
    {
      var suiteText := Escaped(suite.name);
      var classname := pkg + ".";
      results := results + [Open(TestSuiteTag, SuiteAttrs(suite.numberOfTests, suiteText))];
      ghost var head := results;
      ghost var entries := SuiteEntries(suite, chain);
      if chain != [] {
        if chain[0].kind == SuiteInitFailed {
          ghost var dummy := SuiteDummy(chain[0]);
          assert entries == [dummy] + AllErrored(suite.tests);
          PrintDummyTest(classname, suiteText, chain[0]);
          PrintAllErrored(classname, suiteText, suite.tests);
          RenderEntriesOne(classname, suiteText, dummy);
          RenderEntriesAppend(classname, suiteText, [dummy], AllErrored(suite.tests));
          AppendAssoc(head, RenderEntry(classname, suiteText, dummy), RenderEntries(classname, suiteText, AllErrored(suite.tests)));
        } else {
          ghost var m := Merge(suite.tests, chain, 0);
          assert entries == m.0 + CleanupDummy(chain, m.1);
          var cur := PrintWalk(classname, suiteText, suite.tests, chain);
          if cur < |chain| && chain[cur].kind == SuiteCleanupFailed {
            assert entries == m.0 + [SuiteDummy(chain[cur])];
            PrintDummyTest(classname, suiteText, chain[cur]);
            RenderEntriesSnoc(classname, suiteText, m.0, SuiteDummy(chain[cur]));
            AppendAssoc(head, RenderEntries(classname, suiteText, m.0), RenderEntry(classname, suiteText, SuiteDummy(chain[cur])));
          } else {
            assert entries == m.0;
          }
        }
      } else {
        assert entries == AllPassed(suite.tests);
        PrintAllPassed(classname, suiteText, suite.tests);
      }
      assert results == head + RenderEntries(classname, suiteText, entries);
      ghost var opening := [Open(TestSuiteTag, SuiteAttrs(suite.numberOfTests, suiteText))];
      AppendAssoc(old(results), opening, RenderEntries(classname, suiteText, entries));
      AppendAssoc(old(results), opening + RenderEntries(classname, suiteText, entries), [Close(TestSuiteTag)]);
      results := results + [Close(TestSuiteTag)];
    }
  }
}
