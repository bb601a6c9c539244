/** The CUnit report format: a results document written test by test while
    the engine runs, and a listing document of the whole registry.

    The engine never announces the start of a suite. The results writer
    regroups the flat stream of test events into one block per suite by
    remembering the suite it saw last and whether that suite's success
    block is still open. */
module ReportCUnit {
  import opened TestDb
  import opened Xml
  import opened CStrings
  import opened FileNames

  /** The running suite and the "suite block open" flag. */
  datatype Session = Session(running: Option<SuiteId>, writing: bool)

  /** The flag is never set without a running suite. */
  predicate Consistent(s: Session) {
    s.writing ==> s.running.Some?
  }

  /** The elements open in the results document while tests are being
      reported: the report and its result listing, and, while the flag is
      set, exactly one suite block with its success block. */
  function ListingStack(writing: bool): seq<Tag> {
    if writing then [RunReport, ResultListing, RunSuite, RunSuiteSuccess]
    else [RunReport, ResultListing]
  }

  const ReportHead: seq<Token> := [Open(RunReport, NoAttrs), Leaf(Header), Open(ResultListing, NoAttrs)]
  const ReportFoot: seq<Token> := [Leaf(Footer), Close(RunReport)]
  const CloseSuiteBlock: seq<Token> := [Close(RunSuiteSuccess), Close(RunSuite)]

  function OpenSuiteBlock(suite: Suite): seq<Token> {
    [Open(RunSuite, NoAttrs), Open(RunSuiteSuccess, NoAttrs), Leaf(SuiteName(Escaped(suite.name)))]
  }

  function CloseIfWriting(writing: bool): seq<Token> {
    if writing then CloseSuiteBlock else []
  }

  /** test_start: a test of a suite other than the running one closes the
      open success block, if any, and opens a block for its suite. */
  function OnTestStart(s: Session, suite: Suite): (Session, seq<Token>) {
    if s.running.None? || s.running.value != suite.id then
      (Session(Some(suite.id), true), CloseIfWriting(s.writing) + OpenSuiteBlock(suite))
    else
      (s, [])
  }

  function FailureRecordOf(test: Test, f: FailureRecord): Token {
    Leaf(TestFailure(test.name, FileNameText(f.fileName), f.line, ConditionText(f.condition)))
  }

  /** One failure record per chain record, in chain order. */
  function FailureRecords(test: Test, chain: seq<FailureRecord>): (out: seq<Token>)
    ensures |out| == |chain|
    ensures forall i :: 0 <= i < |chain| ==> out[i] == FailureRecordOf(test, chain[i])
    decreases |chain|
  {
    if chain == [] then []
    else FailureRecords(test, chain[..|chain| - 1]) + [FailureRecordOf(test, chain[|chain| - 1])]
  }

  /** test_complete: a success record when the test has no failure
      records, otherwise one failure record per record of the chain. */
  function OnTestComplete(test: Test, chain: seq<FailureRecord>): seq<Token> {
    if chain == [] then [Leaf(TestSuccess(test.name))] else FailureRecords(test, chain)
  }

  /** suite_init_failure and suite_cleanup_failure: close the open success
      block, clear the flag, and write one self-contained failure block.
      The running suite is left as it was. */
  function OnSuiteFailure(s: Session, suite: Suite, reason: SuiteFailureReason): (Session, seq<Token>) {
    (Session(s.running, false), CloseIfWriting(s.writing) + [Leaf(SuiteFailure(suite.name, reason))])
  }

  /** The text printed where suites succeeded are not counted. */
  const SuitesSucceededText: string := "- NA -"
  /** The text printed where inactive assertions are not counted. */
  const AssertionsInactiveText: string := "n/a"

  /** `a - b` on unsigned int: wraps around below zero. */
  function WrapSub(a: U32, b: U32): (r: U32)
    ensures b <= a ==> r == a - b
    ensures a < b ==> r == a - b + 0x1_0000_0000
  {
    (a - b) % 0x1_0000_0000
  }

  function SummaryRecords(registry: Registry, summary: RunSummary): seq<Token> {
    [ Leaf(SummaryRecord(SuitesKind, Num(registry.numberOfSuites), Num(summary.nSuitesRun),
        Fixed(SuitesSucceededText), Num(summary.nSuitesFailed), Num(summary.nSuitesInactive))),
      Leaf(SummaryRecord(TestCasesKind, Num(registry.numberOfTests), Num(summary.nTestsRun),
        Num(WrapSub(summary.nTestsRun, summary.nTestsFailed)), Num(summary.nTestsFailed), Num(summary.nTestsInactive))),
      Leaf(SummaryRecord(AssertionsKind, Num(summary.nAsserts), Num(summary.nAsserts),
        Num(WrapSub(summary.nAsserts, summary.nAssertsFailed)), Num(summary.nAssertsFailed), Fixed(AssertionsInactiveText))) ]
  }

  /** all_tests_complete: close the open success block, end the result
      listing and write the run summary. */
  function OnAllTestsComplete(s: Session, registry: Registry, summary: RunSummary): seq<Token> {
    (if s.running.Some? && s.writing then CloseSuiteBlock else [])
      + [Close(ResultListing), Open(RunSummaryTag, NoAttrs)]
      + SummaryRecords(registry, summary)
      + [Close(RunSummaryTag)]
  }

  /** The summary counts what the registry and the run summary hold. */
  lemma SummaryFidelity(registry: Registry, summary: RunSummary)
    ensures var recs := SummaryRecords(registry, summary);
      && |recs| == 3 && AllLeaves(recs)
      && recs[0].record.kind == SuitesKind
      && recs[0].record.total == Num(registry.numberOfSuites)
      && recs[0].record.run == Num(summary.nSuitesRun)
      && recs[0].record.succeeded == Fixed(SuitesSucceededText)
      && recs[0].record.failed == Num(summary.nSuitesFailed)
      && recs[0].record.inactive == Num(summary.nSuitesInactive)
      && recs[1].record.kind == TestCasesKind
      && recs[1].record.total == Num(registry.numberOfTests)
      && recs[1].record.run == Num(summary.nTestsRun)
      && recs[1].record.failed == Num(summary.nTestsFailed)
      && recs[1].record.inactive == Num(summary.nTestsInactive)
      && (summary.nTestsFailed <= summary.nTestsRun ==>
            recs[1].record.succeeded == Num(summary.nTestsRun - summary.nTestsFailed))
      && recs[2].record.kind == AssertionsKind
      && recs[2].record.total == recs[2].record.run == Num(summary.nAsserts)
      && recs[2].record.failed == Num(summary.nAssertsFailed)
      && (summary.nAssertsFailed <= summary.nAsserts ==>
            recs[2].record.succeeded == Num(summary.nAsserts - summary.nAssertsFailed))
      && recs[2].record.inactive == Fixed(AssertionsInactiveText)
  {
  }

  // ---------------------------------------------------------------------
  // The event stream and the nesting it keeps

  /** The handler calls the engine makes while it runs. */
  datatype Event =
    | TestStarted(test: Test, suite: Suite)
    | TestCompleted(test: Test, suite: Suite, chain: seq<FailureRecord>)
    | SuiteInitFailure(suite: Suite)
    | SuiteCleanupFailure(suite: Suite)

  function Step(s: Session, e: Event): (Session, seq<Token>) {
    match e
    case TestStarted(_, suite) => OnTestStart(s, suite)
    case TestCompleted(test, _, chain) => (s, OnTestComplete(test, chain))
    case SuiteInitFailure(suite) => OnSuiteFailure(s, suite, InitializationFailed)
    case SuiteCleanupFailure(suite) => OnSuiteFailure(s, suite, CleanupFailed)
  }

  /** The session and the output after a sequence of events. */
  function Run(s: Session, events: seq<Event>): (Session, seq<Token>)
    decreases |events|
  {
    if events == [] then (s, [])
    else
      var (s1, out1) := Step(s, events[0]);
      var (s2, out2) := Run(s1, events[1..]);
      (s2, out1 + out2)
  }

  lemma CloseSuiteBlockNesting()
    ensures Scan(ListingStack(true), CloseSuiteBlock) == Some(ListingStack(false))
  {
    var base := ListingStack(false);
    assert ListingStack(true) == base + [RunSuite] + [RunSuiteSuccess];
    ScanClose(base + [RunSuite], RunSuiteSuccess);
    ScanClose(base, RunSuite);
    ScanThrough(ListingStack(true), [Close(RunSuiteSuccess)], base + [RunSuite], [Close(RunSuite)], base);
    assert [Close(RunSuiteSuccess)] + [Close(RunSuite)] == CloseSuiteBlock;
  }

  lemma OpenSuiteBlockNesting(suite: Suite)
    ensures Scan(ListingStack(false), OpenSuiteBlock(suite)) == Some(ListingStack(true))
  {
    var base := ListingStack(false);
    var mid := base + [RunSuite];
    assert mid + [RunSuiteSuccess] == ListingStack(true);
    ScanOne(base, Open(RunSuite, NoAttrs));
    ScanOne(mid, Open(RunSuiteSuccess, NoAttrs));
    ScanOne(ListingStack(true), Leaf(SuiteName(Escaped(suite.name))));
    ScanThrough(base, [Open(RunSuite, NoAttrs)], mid, [Open(RunSuiteSuccess, NoAttrs)], ListingStack(true));
    ScanThrough(base, [Open(RunSuite, NoAttrs)] + [Open(RunSuiteSuccess, NoAttrs)], ListingStack(true),
      [Leaf(SuiteName(Escaped(suite.name)))], ListingStack(true));
    assert [Open(RunSuite, NoAttrs)] + [Open(RunSuiteSuccess, NoAttrs)] + [Leaf(SuiteName(Escaped(suite.name)))]
      == OpenSuiteBlock(suite);
  }

  /** Closing the success block, when one is open, leaves no suite block open. */
  lemma CloseIfWritingNesting(writing: bool)
    ensures Scan(ListingStack(writing), CloseIfWriting(writing)) == Some(ListingStack(false))
  {
    if writing { CloseSuiteBlockNesting(); }
  }

  /** Every handler keeps the flag consistent with the running suite and
      moves the document from "one suite block open iff the flag was set"
      to "one suite block open iff the flag is set". */
  lemma StepKeepsNesting(s: Session, e: Event)
    requires Consistent(s)
    ensures Consistent(Step(s, e).0)
    ensures Scan(ListingStack(s.writing), Step(s, e).1) == Some(ListingStack(Step(s, e).0.writing))
  {
    match e
    case TestStarted(_, suite) =>
      if s.running.None? || s.running.value != suite.id {
        CloseIfWritingNesting(s.writing);
        OpenSuiteBlockNesting(suite);
        ScanThrough(ListingStack(s.writing), CloseIfWriting(s.writing), ListingStack(false), OpenSuiteBlock(suite), ListingStack(true));
      }
    case TestCompleted(test, _, chain) =>
      ScanLeaves(ListingStack(s.writing), OnTestComplete(test, chain));
    case SuiteInitFailure(suite) =>
      CloseIfWritingNesting(s.writing);
      ScanOne(ListingStack(false), Leaf(SuiteFailure(suite.name, InitializationFailed)));
      ScanThrough(ListingStack(s.writing), CloseIfWriting(s.writing), ListingStack(false),
        [Leaf(SuiteFailure(suite.name, InitializationFailed))], ListingStack(false));
    case SuiteCleanupFailure(suite) =>
      CloseIfWritingNesting(s.writing);
      ScanOne(ListingStack(false), Leaf(SuiteFailure(suite.name, CleanupFailed)));
      ScanThrough(ListingStack(s.writing), CloseIfWriting(s.writing), ListingStack(false),
        [Leaf(SuiteFailure(suite.name, CleanupFailed))], ListingStack(false));
  }

  lemma {:induction false} RunKeepsNesting(s: Session, events: seq<Event>)
    requires Consistent(s)
    ensures Consistent(Run(s, events).0)
    ensures Scan(ListingStack(s.writing), Run(s, events).1) == Some(ListingStack(Run(s, events).0.writing))
    decreases |events|
  {
    if events != [] {
      var (s1, out1) := Step(s, events[0]);
      StepKeepsNesting(s, events[0]);
      RunKeepsNesting(s1, events[1..]);
      var (s2, out2) := Run(s1, events[1..]);
      ScanThrough(ListingStack(s.writing), out1, ListingStack(s1.writing), out2, ListingStack(s2.writing));
    }
  }

  /** The summary ends the result listing from either listing state. */
  lemma AllTestsCompleteNesting(s: Session, registry: Registry, summary: RunSummary)
    requires Consistent(s)
    ensures Scan(ListingStack(s.writing), OnAllTestsComplete(s, registry, summary)) == Some([RunReport])
  {
    var closing := if s.running.Some? && s.writing then CloseSuiteBlock else [];
    assert closing == CloseIfWriting(s.writing);
    CloseIfWritingNesting(s.writing);
    var summaryBlock := [Close(ResultListing), Open(RunSummaryTag, NoAttrs)] + SummaryRecords(registry, summary) + [Close(RunSummaryTag)];
    assert Scan(ListingStack(false), summaryBlock) == Some([RunReport]) by {
      assert ListingStack(false) == [RunReport] + [ResultListing];
      ScanClose([RunReport], ResultListing);
      ScanOne([RunReport], Open(RunSummaryTag, NoAttrs));
      assert [RunReport] + [RunSummaryTag] == [RunReport, RunSummaryTag];
      ScanThrough(ListingStack(false), [Close(ResultListing)], [RunReport], [Open(RunSummaryTag, NoAttrs)], [RunReport, RunSummaryTag]);
      assert [Close(ResultListing)] + [Open(RunSummaryTag, NoAttrs)] == [Close(ResultListing), Open(RunSummaryTag, NoAttrs)];
      SummaryFidelity(registry, summary);
      ScanLeaves([RunReport, RunSummaryTag], SummaryRecords(registry, summary));
      ScanThrough(ListingStack(false), [Close(ResultListing), Open(RunSummaryTag, NoAttrs)], [RunReport, RunSummaryTag],
        SummaryRecords(registry, summary), [RunReport, RunSummaryTag]);
      ScanClose([RunReport], RunSummaryTag);
      ScanThrough(ListingStack(false), [Close(ResultListing), Open(RunSummaryTag, NoAttrs)] + SummaryRecords(registry, summary),
        [RunReport, RunSummaryTag], [Close(RunSummaryTag)], [RunReport]);
    }
    ScanThrough(ListingStack(s.writing), closing, ListingStack(false), summaryBlock, [RunReport]);
    assert closing + summaryBlock == OnAllTestsComplete(s, registry, summary);
  }

  lemma ReportHeadNesting()
    ensures Scan([], ReportHead) == Some(ListingStack(false))
  {
    ScanOne([], Open(RunReport, NoAttrs));
    assert [] + [RunReport] == [RunReport];
    ScanOne([RunReport], Leaf(Header));
    ScanOne([RunReport], Open(ResultListing, NoAttrs));
    assert [RunReport] + [ResultListing] == ListingStack(false);
    ScanThrough([], [Open(RunReport, NoAttrs)], [RunReport], [Leaf(Header)], [RunReport]);
    ScanThrough([], [Open(RunReport, NoAttrs)] + [Leaf(Header)], [RunReport], [Open(ResultListing, NoAttrs)], ListingStack(false));
    assert [Open(RunReport, NoAttrs)] + [Leaf(Header)] + [Open(ResultListing, NoAttrs)] == ReportHead;
  }

  lemma ReportFootNesting()
    ensures Scan([RunReport], ReportFoot) == Some([])
  {
    ScanOne([RunReport], Leaf(Footer));
    ScanOne([RunReport], Close(RunReport));
    ScanThrough([RunReport], [Leaf(Footer)], [RunReport], [Close(RunReport)], []);
    assert [Leaf(Footer)] + [Close(RunReport)] == ReportFoot;
  }

  /** Whatever the engine reports between open_report and
      all_tests_complete, the finished results document is well formed:
      every element opened is closed, in order. */
  lemma ResultsDocumentBalanced(events: seq<Event>, registry: Registry, summary: RunSummary)
    ensures var (s, out) := Run(Session(None, false), events);
      Balanced(ReportHead + out + OnAllTestsComplete(s, registry, summary) + ReportFoot)
  {
    var (s, out) := Run(Session(None, false), events);
    ReportHeadNesting();
    RunKeepsNesting(Session(None, false), events);
    ScanThrough([], ReportHead, ListingStack(false), out, ListingStack(s.writing));
    AllTestsCompleteNesting(s, registry, summary);
    ScanThrough([], ReportHead + out, ListingStack(s.writing), OnAllTestsComplete(s, registry, summary), [RunReport]);
    ReportFootNesting();
    ScanThrough([], ReportHead + out + OnAllTestsComplete(s, registry, summary), [RunReport], ReportFoot, []);
  }

  // ---------------------------------------------------------------------
  // Regrouping: the tests of one suite land in one suite block

  datatype TestRun = TestRun(test: Test, chain: seq<FailureRecord>)

  /** What the engine reports for a suite whose tests all run: a start and
      a completion per test. */
  function SuiteEvents(suite: Suite, runs: seq<TestRun>): seq<Event>
    decreases |runs|
  {
    if runs == [] then []
    else [TestStarted(runs[0].test, suite), TestCompleted(runs[0].test, suite, runs[0].chain)] + SuiteEvents(suite, runs[1..])
  }

  function RunRecords(runs: seq<TestRun>): seq<Token>
    decreases |runs|
  {
    if runs == [] then [] else OnTestComplete(runs[0].test, runs[0].chain) + RunRecords(runs[1..])
  }

  lemma {:induction false} RunOfTwo(s: Session, e1: Event, e2: Event, rest: seq<Event>)
    ensures Run(s, [e1, e2] + rest) ==
      var (s1, o1) := Step(s, e1);
      var (s2, o2) := Step(s1, e2);
      var (s3, o3) := Run(s2, rest);
      (s3, o1 + (o2 + o3))
  {
    var evs := [e1, e2] + rest;
    assert evs[0] == e1 && evs[1..] == [e2] + rest;
    assert ([e2] + rest)[0] == e2 && ([e2] + rest)[1..] == rest;
  }

  /** Inside a suite's block, further tests of that suite add only their
      records. */
  lemma {:induction false} SameSuiteAddsRecords(suite: Suite, runs: seq<TestRun>)
    ensures Run(Session(Some(suite.id), true), SuiteEvents(suite, runs)) == (Session(Some(suite.id), true), RunRecords(runs))
    decreases |runs|
  {
    if runs != [] {
      var s := Session(Some(suite.id), true);
      RunOfTwo(s, TestStarted(runs[0].test, suite), TestCompleted(runs[0].test, suite, runs[0].chain), SuiteEvents(suite, runs[1..]));
      SameSuiteAddsRecords(suite, runs[1..]);
      assert [] + (OnTestComplete(runs[0].test, runs[0].chain) + RunRecords(runs[1..])) == RunRecords(runs);
    }
  }

  /** The tests of a suite, reported one by one, come out as one suite
      block holding every test's records in order, preceded by the close
      of the previous suite's block when one was open. */
  lemma SuiteRegrouped(s: Session, suite: Suite, runs: seq<TestRun>)
    requires |runs| > 0
    requires s.running != Some(suite.id)
    ensures Run(s, SuiteEvents(suite, runs)) ==
      (Session(Some(suite.id), true), CloseIfWriting(s.writing) + OpenSuiteBlock(suite) + RunRecords(runs))
  {
    var inSuite := Session(Some(suite.id), true);
    RunOfTwo(s, TestStarted(runs[0].test, suite), TestCompleted(runs[0].test, suite, runs[0].chain), SuiteEvents(suite, runs[1..]));
    SameSuiteAddsRecords(suite, runs[1..]);
    assert (CloseIfWriting(s.writing) + OpenSuiteBlock(suite)) + (OnTestComplete(runs[0].test, runs[0].chain) + RunRecords(runs[1..]))
      == CloseIfWriting(s.writing) + OpenSuiteBlock(suite) + RunRecords(runs);
  }

  /** Two suites: the first runs t1 (passes) and t2 (fails once), the
      second fails its initialization. The first suite gets one block with
      a success record and a failure record carrying the failure's file,
      line and condition; the second gets one failure block and no test
      records. */
  lemma TwoSuiteScenario(x: Suite, y: Suite, t1: Test, t2: Test, f: FailureRecord)
    requires x.id != y.id
    ensures
      var events := SuiteEvents(x, [TestRun(t1, []), TestRun(t2, [f])]) + [SuiteInitFailure(y)];
      Run(Session(None, false), events) ==
        (Session(Some(x.id), false),
         OpenSuiteBlock(x)
         + [Leaf(TestSuccess(t1.name)),
            Leaf(TestFailure(t2.name, FileNameText(f.fileName), f.line, ConditionText(f.condition)))]
         + CloseSuiteBlock
         + [Leaf(SuiteFailure(y.name, InitializationFailed))])
  {
    var runs := [TestRun(t1, []), TestRun(t2, [f])];
    var start := Session(None, false);
    SuiteRegrouped(start, x, runs);
    RunAppend(start, SuiteEvents(x, runs), [SuiteInitFailure(y)]);
    var inSuite := Session(Some(x.id), true);
    var failed := CloseSuiteBlock + [Leaf(SuiteFailure(y.name, InitializationFailed))];
    assert Run(inSuite, [SuiteInitFailure(y)]) == (Session(Some(x.id), false), failed) by {
      assert [SuiteInitFailure(y)][1..] == [];
      assert Step(inSuite, SuiteInitFailure(y)) == (Session(Some(x.id), false), failed);
      assert failed + [] == failed;
    }
    var failure := Leaf(TestFailure(t2.name, FileNameText(f.fileName), f.line, ConditionText(f.condition)));
    assert RunRecords(runs) == [Leaf(TestSuccess(t1.name)), failure] by {
      assert runs[0] == TestRun(t1, []);
      assert runs[1..] == [TestRun(t2, [f])];
      assert runs[1..][0] == TestRun(t2, [f]);
      assert runs[1..][1..] == [];
      assert OnTestComplete(t2, [f]) == [failure];
      assert RunRecords(runs[1..]) == [failure] + [];
    }
    assert CloseIfWriting(false) + OpenSuiteBlock(x) + [Leaf(TestSuccess(t1.name)), failure] + failed
      == OpenSuiteBlock(x) + [Leaf(TestSuccess(t1.name)), failure] + CloseSuiteBlock
         + [Leaf(SuiteFailure(y.name, InitializationFailed))];
  }

  lemma {:induction false} RunAppend(s: Session, a: seq<Event>, b: seq<Event>)
    ensures Run(s, a + b) == (Run(Run(s, a).0, b).0, Run(s, a).1 + Run(Run(s, a).0, b).1)
    decreases |a|
  {
    if a == [] {
      assert a + b == b;
      assert [] + Run(s, b).1 == Run(s, b).1;
    } else {
      assert (a + b)[0] == a[0] && (a + b)[1..] == a[1..] + b;
      var s1 := Step(s, a[0]).0;
      var o1 := Step(s, a[0]).1;
      RunAppend(s1, a[1..], b);
      var mid := Run(s1, a[1..]);
      var tail := Run(mid.0, b);
      assert Run(s, a) == (mid.0, o1 + mid.1);
      assert Run(s, a + b) == (tail.0, o1 + (mid.1 + tail.1));
      assert o1 + (mid.1 + tail.1) == (o1 + mid.1) + tail.1;
    }
  }

  // ---------------------------------------------------------------------
  // The listing document

  function ListingHead(registry: Registry): seq<Token> {
    [ Open(ListReport, NoAttrs), Leaf(Header), Open(ListTotalSummary, NoAttrs),
      Leaf(TotalRecord(SuiteTotal, registry.numberOfSuites)),
      Leaf(TotalRecord(TestCaseTotal, registry.numberOfTests)),
      Close(ListTotalSummary), Open(AllTestListing, NoAttrs) ]
  }

  const ListingFoot: seq<Token> := [Close(AllTestListing), Leaf(Footer), Close(ListReport)]

  /** The test definitions of a suite as written: each test's active value
      is read from the suite, not from the test. */
  function TestDefinitions(suiteActive: bool, tests: seq<Test>): (out: seq<Token>)
    ensures |out| == |tests|
    ensures forall i :: 0 <= i < |tests| ==> out[i] == Leaf(TestCaseDefinition(tests[i].name, suiteActive))
    decreases |tests|
  {
    if tests == [] then []
    else TestDefinitions(suiteActive, tests[..|tests| - 1]) + [Leaf(TestCaseDefinition(tests[|tests| - 1].name, suiteActive))]
  }

  function SuiteDefinitionOf(suite: Suite): Token {
    Leaf(SuiteDefinition(suite.name, suite.hasInit, suite.hasCleanup, suite.active, suite.numberOfTests))
  }

  function SuiteListingHead(suite: Suite): seq<Token> {
    [Open(ListingSuite, NoAttrs), SuiteDefinitionOf(suite), Open(ListingSuiteTests, NoAttrs)]
  }

  const SuiteListingFoot: seq<Token> := [Close(ListingSuiteTests), Close(ListingSuite)]

  function SuiteListing(suite: Suite): seq<Token> {
    SuiteListingHead(suite) + TestDefinitions(suite.active, suite.tests) + SuiteListingFoot
  }

  /** One suite block per suite, in registry order. */
  function SuitesListing(suites: seq<Suite>): seq<Token>
    decreases |suites|
  {
    if suites == [] then []
    else SuitesListing(suites[..|suites| - 1]) + SuiteListing(suites[|suites| - 1])
  }

  function Listing(registry: Registry): seq<Token> {
    ListingHead(registry) + SuitesListing(registry.suites) + ListingFoot
  }

  lemma SuiteListingBalanced(suite: Suite)
    ensures Balanced(SuiteListing(suite))
  {
    var defs := TestDefinitions(suite.active, suite.tests);
    LeavesBalanced(defs);
    BalancedWrap(ListingSuiteTests, NoAttrs, defs);
    var inner := [Open(ListingSuiteTests, NoAttrs)] + defs + [Close(ListingSuiteTests)];
    LeavesBalanced([SuiteDefinitionOf(suite)]);
    BalancedConcat([SuiteDefinitionOf(suite)], inner);
    BalancedWrap(ListingSuite, NoAttrs, [SuiteDefinitionOf(suite)] + inner);
    assert [Open(ListingSuite, NoAttrs)] + ([SuiteDefinitionOf(suite)] + inner) + [Close(ListingSuite)] == SuiteListing(suite);
  }

  lemma {:induction false} SuitesListingBalanced(suites: seq<Suite>)
    ensures Balanced(SuitesListing(suites))
    decreases |suites|
  {
    if suites == [] {
      LeavesBalanced([]);
    } else {
      SuitesListingBalanced(suites[..|suites| - 1]);
      SuiteListingBalanced(suites[|suites| - 1]);
      BalancedConcat(SuitesListing(suites[..|suites| - 1]), SuiteListing(suites[|suites| - 1]));
    }
  }

  /** After the head of the listing, the report and the test listing are
      open. */
  lemma ListingHeadNesting(registry: Registry)
    ensures Scan([], ListingHead(registry)) == Some([ListReport, AllTestListing])
  {
    var totals := [Leaf(TotalRecord(SuiteTotal, registry.numberOfSuites)), Leaf(TotalRecord(TestCaseTotal, registry.numberOfTests))];
    LeavesBalanced(totals);
    BalancedWrap(ListTotalSummary, NoAttrs, totals);
    var summaryBlock := [Open(ListTotalSummary, NoAttrs)] + totals + [Close(ListTotalSummary)];
    LeavesBalanced([Leaf(Header)]);
    BalancedConcat([Leaf(Header)], summaryBlock);
    var inner := [Leaf(Header)] + summaryBlock;
    ScanOne([], Open(ListReport, NoAttrs));
    assert [] + [ListReport] == [ListReport];
    BalancedAnywhere([ListReport], inner);
    ScanThrough([], [Open(ListReport, NoAttrs)], [ListReport], inner, [ListReport]);
    ScanOne([ListReport], Open(AllTestListing, NoAttrs));
    assert [ListReport] + [AllTestListing] == [ListReport, AllTestListing];
    ScanThrough([], [Open(ListReport, NoAttrs)] + inner, [ListReport], [Open(AllTestListing, NoAttrs)], [ListReport, AllTestListing]);
    assert [Open(ListReport, NoAttrs)] + inner + [Open(AllTestListing, NoAttrs)] == ListingHead(registry);
  }

  lemma ListingFootNesting()
    ensures Scan([ListReport, AllTestListing], ListingFoot) == Some([])
  {
    ScanClose([ListReport], AllTestListing);
    assert [ListReport] + [AllTestListing] == [ListReport, AllTestListing];
    ScanOne([ListReport], Leaf(Footer));
    ScanClose([], ListReport);
    assert [] + [ListReport] == [ListReport];
    ScanThrough([ListReport, AllTestListing], [Close(AllTestListing)], [ListReport], [Leaf(Footer)], [ListReport]);
    ScanThrough([ListReport, AllTestListing], [Close(AllTestListing)] + [Leaf(Footer)], [ListReport], [Close(ListReport)], []);
    assert [Close(AllTestListing)] + [Leaf(Footer)] + [Close(ListReport)] == ListingFoot;
  }

  /** The listing document is well formed for every registry. */
  lemma ListingBalanced(registry: Registry)
    ensures Balanced(Listing(registry))
  {
    var open := [ListReport, AllTestListing];
    ListingHeadNesting(registry);
    SuitesListingBalanced(registry.suites);
    BalancedAnywhere(open, SuitesListing(registry.suites));
    ScanThrough([], ListingHead(registry), open, SuitesListing(registry.suites), open);
    ListingFootNesting();
    ScanThrough([], ListingHead(registry) + SuitesListing(registry.suites), open, ListingFoot, []);
  }

  /** The listing of a run of suites is the listing of each suite in
      turn: one block per suite, in registry order. */
  lemma {:induction false} SuitesListingAppend(a: seq<Suite>, b: seq<Suite>)
    ensures SuitesListing(a + b) == SuitesListing(a) + SuitesListing(b)
    decreases |b|
  {
    if b == [] {
      assert a + b == a;
    } else {
      var front, last := b[..|b| - 1], b[|b| - 1];
      assert (a + b)[..|a + b| - 1] == a + front;
      assert (a + b)[|a + b| - 1] == last;
      assert SuitesListing(a + b) == SuitesListing(a + front) + SuiteListing(last);
      SuitesListingAppend(a, front);
      AppendAssoc(SuitesListing(a), SuitesListing(front), SuiteListing(last));
    }
  }

  /** As written, an inactive test of an active suite is listed as active,
      which is not what its own flag says. */
  lemma ListingShowsSuiteActivity(t: Test)
    requires !t.active
    ensures TestDefinitions(true, [t])[0].record.caseActive
    ensures TestDefinitions(true, [t]) != CorrectedTestDefinitions([t])
  {
    assert CorrectedTestDefinitions([t])[0] != TestDefinitions(true, [t])[0];
  }

  /** The evidently intended test definitions: each test's own active flag. */
  function CorrectedTestDefinitions(tests: seq<Test>): (out: seq<Token>)
    ensures |out| == |tests|
    ensures forall i :: 0 <= i < |tests| ==> out[i] == Leaf(TestCaseDefinition(tests[i].name, tests[i].active))
    decreases |tests|
  {
    if tests == [] then []
    else CorrectedTestDefinitions(tests[..|tests| - 1]) + [Leaf(TestCaseDefinition(tests[|tests| - 1].name, tests[|tests| - 1].active))]
  }

  /** The two agree exactly when every test shares its suite's activity. */
  lemma CorrectedDefinitionsAgree(suiteActive: bool, tests: seq<Test>)
    ensures CorrectedTestDefinitions(tests) == TestDefinitions(suiteActive, tests)
      <==> forall i :: 0 <= i < |tests| ==> tests[i].active == suiteActive
  {
    var a := CorrectedTestDefinitions(tests);
    var b := TestDefinitions(suiteActive, tests);
    if forall i :: 0 <= i < |tests| ==> tests[i].active == suiteActive {
      assert forall i :: 0 <= i < |tests| ==> a[i] == b[i];
    } else {
      var i :| 0 <= i < |tests| && tests[i].active != suiteActive;
      assert a[i] != b[i];
    }
  }

  /** The inner loop of list_all_tests: one definition per test of the
      suite, in registration order. */
  method ListTestDefinitions(suite: Suite) returns (defs: seq<Token>)
    ensures defs == TestDefinitions(suite.active, suite.tests)
  {
    defs := [];
    var j := 0;
    while j < |suite.tests|
      invariant j <= |suite.tests|
      invariant defs == TestDefinitions(suite.active, suite.tests[..j])
    {
      assert suite.tests[..j + 1][..j] == suite.tests[..j];
      defs := defs + [Leaf(TestCaseDefinition(suite.tests[j].name, suite.active))];
      j := j + 1;
    }
    assert suite.tests[..|suite.tests|] == suite.tests;
  }

  // ---------------------------------------------------------------------
  // The module statics and the handlers that update them

  class CUnitReport {
    const listName: array<char>
    const resultName: array<char>
    /** f_pRunningSuite */
    var running: Option<SuiteId>
    /** f_bWriting_CUNIT_RUN_SUITE */
    var writing: bool
    /** f_pTestResultFile is non-NULL. close_report does not reset it. */
    var hasResultFile: bool
    /** What has been written to the results file since it was opened. */
    var results: seq<Token>

    ghost predicate Valid()
      reads this, listName, resultName
    {
      && listName.Length == MaxFilenameLength
      && resultName.Length == MaxFilenameLength
      && listName != resultName
      && NUL in listName[..]
      && NUL in resultName[..]
      && Consistent(Session(running, writing))
    }

    function State(): Session
      reads this
    {
      Session(running, writing)
    }

    /** The results document has exactly the elements of ListingStack open. */
    ghost predicate Nesting()
      reads this
    {
      Scan([], results) == Some(ListingStack(writing))
    }

    constructor ()
      ensures Valid() && fresh(listName) && fresh(resultName)
      ensures CStr(listName[..]) == "" && CStr(resultName[..]) == ""
      ensures running == None && !writing && !hasResultFile && results == []
    {
      listName := new char[MaxFilenameLength](_ => NUL);
      resultName := new char[MaxFilenameLength](_ => NUL);
      running := None;
      writing := false;
      hasResultFile := false;
      results := [];
      new;
      assert listName[..][0] == NUL && resultName[..][0] == NUL;
    }

    /** set_output_filename */
    method SetOutputFilename(root: Option<string>)
      requires Valid()
      requires root.Some? ==> NUL !in root.value
      modifies listName, resultName
      ensures Valid()
      ensures CStr(listName[..]) == DerivedName(root, ListEnding)
      ensures CStr(resultName[..]) == DerivedName(root, ResultEnding)
    {
      FillName(listName, root, ListEnding);
      FillName(resultName, root, ResultEnding);
    }

    /** open_report: falls back to the default root when no results name
        is set, resets both statics, and on a successful open writes the
        document head. */
    method OpenReport(openOk: bool) returns (code: ErrorCode)
      requires Valid()
      modifies this, listName, resultName
      ensures Valid()
      ensures old(CStr(resultName[..])) == "" ==>
        CStr(listName[..]) == DerivedName(Some(DefaultFileRoot), ListEnding)
        && CStr(resultName[..]) == DerivedName(Some(DefaultFileRoot), ResultEnding)
      ensures old(CStr(resultName[..])) != "" ==>
        listName[..] == old(listName[..]) && resultName[..] == old(resultName[..])
      ensures running == None && !writing && hasResultFile == openOk
      ensures code == if openOk then Success else FOpenFailed
      ensures results == if openOk then ReportHead else []
      ensures openOk ==> Nesting()
    {
      writing := false;
      running := None;
      hasResultFile := openOk;
      results := if openOk then ReportHead else [];
      code := if openOk then Success else FOpenFailed;
      ReportHeadNesting();
      var len := StrLen(resultName);
      if len == 0 {
        SetOutputFilename(Some(DefaultFileRoot));
      }
    }

    /** close_report: writes the footer and closes the report element. */
    method CloseReport(closeOk: bool) returns (code: ErrorCode)
      requires Valid() && hasResultFile
      modifies this
      ensures Valid() && hasResultFile && State() == old(State())
      ensures results == old(results) + ReportFoot
      ensures code == if closeOk then Success else FCloseFailed
      ensures old(Scan([], results)) == Some([RunReport]) ==> Balanced(results)
    {
      results := results + ReportFoot;
      code := if closeOk then Success else FCloseFailed;
      if old(Scan([], results)) == Some([RunReport]) {
        ReportFootNesting();
        ScanThrough([], old(results), [RunReport], ReportFoot, []);
      }
    }

    /** test_start */
    method TestStart(test: Test, suite: Suite)
      requires Valid() && hasResultFile
      modifies this
      ensures Valid() && hasResultFile
      ensures State() == OnTestStart(old(State()), suite).0
      ensures results == old(results) + OnTestStart(old(State()), suite).1
      ensures old(Nesting()) ==> Nesting()
    {
      if running.None? || running.value != suite.id {
        if writing {
          results := results + CloseSuiteBlock;
        }
        results := results + OpenSuiteBlock(suite);
        writing := true;
        running := Some(suite.id);
      }
      StepKeepsNesting(old(State()), TestStarted(test, suite));
      if old(Nesting()) {
        ScanThrough([], old(results), ListingStack(old(writing)), OnTestStart(old(State()), suite).1, ListingStack(writing));
      }
    }

    /** test_complete: every record of the chain must belong to this test
        and suite. */
    method TestComplete(test: Test, suite: Suite, chain: seq<FailureRecord>)
      requires Valid() && hasResultFile
      requires forall i :: 0 <= i < |chain| ==> chain[i].suite == Some(suite.id) && chain[i].test == Some(test.id)
      modifies this
      ensures Valid() && hasResultFile && State() == old(State())
      ensures results == old(results) + OnTestComplete(test, chain)
      ensures old(Nesting()) ==> Nesting()
    {
      if chain != [] {
        var i := 0;
        while i < |chain|
          invariant i <= |chain|
          invariant Valid() && hasResultFile && State() == old(State())
          invariant results == old(results) + FailureRecords(test, chain[..i])
        {
          assert chain[..i + 1][..i] == chain[..i];
          results := results + [FailureRecordOf(test, chain[i])];
          i := i + 1;
        }
        assert chain[..|chain|] == chain;
      } else {
        results := results + [Leaf(TestSuccess(test.name))];
      }
      if old(Nesting()) {
        StepKeepsNesting(old(State()), TestCompleted(test, suite, chain));
        ScanThrough([], old(results), ListingStack(writing), OnTestComplete(test, chain), ListingStack(writing));
      }
    }

    /** all_tests_complete */
    method AllTestsComplete(registry: Registry, summary: RunSummary)
      requires Valid() && hasResultFile
      modifies this
      ensures Valid() && hasResultFile && State() == old(State())
      ensures results == old(results) + OnAllTestsComplete(old(State()), registry, summary)
      ensures old(Nesting()) ==> Scan([], results) == Some([RunReport])
    {
      ghost var start := results;
      ghost var closing: seq<Token> := [];
      if running.Some? && writing {
        results := results + CloseSuiteBlock;
        closing := CloseSuiteBlock;
      }
      var listingEnd := [Close(ResultListing), Open(RunSummaryTag, NoAttrs)];
      results := results + listingEnd;
      results := results + SummaryRecords(registry, summary);
      results := results + [Close(RunSummaryTag)];
      AppendAssoc(start, closing, listingEnd);
      AppendAssoc(start, closing + listingEnd, SummaryRecords(registry, summary));
      AppendAssoc(start, closing + listingEnd + SummaryRecords(registry, summary), [Close(RunSummaryTag)]);
      if old(Nesting()) {
        AllTestsCompleteNesting(State(), registry, summary);
        ScanThrough([], old(results), ListingStack(writing), OnAllTestsComplete(State(), registry, summary), [RunReport]);
      }
    }

    method SuiteFailed(suite: Suite, reason: SuiteFailureReason)
      requires Valid() && hasResultFile
      modifies this
      ensures Valid() && hasResultFile
      ensures State() == OnSuiteFailure(old(State()), suite, reason).0
      ensures results == old(results) + OnSuiteFailure(old(State()), suite, reason).1
      ensures old(Nesting()) ==> Nesting()
    {
      if writing {
        results := results + CloseSuiteBlock;
        writing := false;
      }
      results := results + [Leaf(SuiteFailure(suite.name, reason))];
      var e := if reason == InitializationFailed then SuiteInitFailure(suite) else SuiteCleanupFailure(suite);
      StepKeepsNesting(old(State()), e);
      if old(Nesting()) {
        ScanThrough([], old(results), ListingStack(old(writing)), OnSuiteFailure(old(State()), suite, reason).1, ListingStack(false));
      }
    }

    /** suite_init_failure */
    method SuiteInitFailed(suite: Suite)
      requires Valid() && hasResultFile
      modifies this
      ensures Valid() && hasResultFile
      ensures State() == OnSuiteFailure(old(State()), suite, InitializationFailed).0
      ensures results == old(results) + OnSuiteFailure(old(State()), suite, InitializationFailed).1
      ensures old(Nesting()) ==> Nesting()
    {
      SuiteFailed(suite, InitializationFailed);
    }

    /** suite_cleanup_failure */
    method SuiteCleanupFailed(suite: Suite)
      requires Valid() && hasResultFile
      modifies this
      ensures Valid() && hasResultFile
      ensures State() == OnSuiteFailure(old(State()), suite, CleanupFailed).0
      ensures results == old(results) + OnSuiteFailure(old(State()), suite, CleanupFailed).1
      ensures old(Nesting()) ==> Nesting()
    {
      SuiteFailed(suite, CleanupFailed);
    }

    /** list_all_tests: writes the listing document for a registry to the
        listing file. No registry, or a listing file that cannot be opened,
        means nothing is written. */
    method ListAllTests(registry: Option<Registry>, openOk: bool, closeOk: bool) returns (code: ErrorCode, listing: seq<Token>)
      ensures registry.None? ==> code == NoRegistry && listing == []
      ensures registry.Some? && !openOk ==> code == FOpenFailed && listing == []
      ensures registry.Some? && openOk ==>
        listing == Listing(registry.value) && code == (if closeOk then Success else FCloseFailed)
    {
      code := Success;
      listing := [];
      if registry.None? {
        code := NoRegistry;
      } else if !openOk {
        code := FOpenFailed;
      } else {
        var reg := registry.value;
        listing := ListingHead(reg);
        var k := 0;
        while k < |reg.suites|
          invariant k <= |reg.suites|
          invariant listing == ListingHead(reg) + SuitesListing(reg.suites[..k])
        {
          var suite := reg.suites[k];
          var defs := ListTestDefinitions(suite);
          listing := listing + SuiteListingHead(suite) + defs;
          listing := listing + SuiteListingFoot;
          assert reg.suites[..k + 1][..k] == reg.suites[..k];
          assert SuiteListingHead(suite) + defs + SuiteListingFoot == SuiteListing(suite);
          k := k + 1;
        }
        assert reg.suites[..|reg.suites|] == reg.suites;
        listing := listing + ListingFoot;
        if !closeOk {
          code := FCloseFailed;
        }
      }
    }
  }
}
