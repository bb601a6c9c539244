/** The automated interface: the active report format (a table of ten
    optional handlers), the run sequence open -> install handlers -> run
    -> close, the dispatch of the file-name setter and of the optional
    listing, and the bounded package-name store. The handlers are
    function pointers into a format's own module; what each one does is
    modelled there, and here a call is recorded as the action it is. */
module Automated {
  import opened TestDb
  import opened CStrings

  /** The ten entries of a report-format table, in table order. */
  datatype Slot =
    | SetOutputFilenameSlot | OpenReportSlot | CloseReportSlot
    | TestStartSlot | TestCompleteSlot | AllTestsCompleteSlot
    | SuiteInitFailureSlot | SuiteCleanupFailureSlot | SuiteCompleteSlot
    | ListAllTestsSlot

  /** Whose functions fill a table. */
  datatype FormatKind = CUnitKind | JUnitKind

  /** The function of one format that fills one slot. */
  datatype Handler = Handler(format: FormatKind, slot: Slot)

  /** A report-format table: for each slot, the format whose function
      fills it, or None for a NULL entry. */
  datatype ReportFormat = ReportFormat(
    setOutputFilename: Option<FormatKind>,
    openReport: Option<FormatKind>,
    closeReport: Option<FormatKind>,
    testStart: Option<FormatKind>,
    testComplete: Option<FormatKind>,
    allTestsComplete: Option<FormatKind>,
    suiteInitFailure: Option<FormatKind>,
    suiteCleanupFailure: Option<FormatKind>,
    suiteComplete: Option<FormatKind>,
    listAllTests: Option<FormatKind>)

  function SlotEntry(f: ReportFormat, s: Slot): Option<FormatKind> {
    match s
    case SetOutputFilenameSlot => f.setOutputFilename
    case OpenReportSlot => f.openReport
    case CloseReportSlot => f.closeReport
    case TestStartSlot => f.testStart
    case TestCompleteSlot => f.testComplete
    case AllTestsCompleteSlot => f.allTestsComplete
    case SuiteInitFailureSlot => f.suiteInitFailure
    case SuiteCleanupFailureSlot => f.suiteCleanupFailure
    case SuiteCompleteSlot => f.suiteComplete
    case ListAllTestsSlot => f.listAllTests
  }

  function HandlerAt(f: ReportFormat, s: Slot): Handler
    requires SlotEntry(f, s).Some?
  {
    Handler(SlotEntry(f, s).value, s)
  }

  /** The CUnit table: every slot but suite-complete is filled. */
  const CUnitFormat: ReportFormat := ReportFormat(
    Some(CUnitKind), Some(CUnitKind), Some(CUnitKind), Some(CUnitKind), Some(CUnitKind),
    Some(CUnitKind), Some(CUnitKind), Some(CUnitKind), None, Some(CUnitKind))

  /** The JUnit table: no per-test handlers, no suite-failure handlers and
      no listing, but a suite-complete handler. */
  const JUnitFormat: ReportFormat := ReportFormat(
    Some(JUnitKind), Some(JUnitKind), Some(JUnitKind), None, None,
    Some(JUnitKind), None, None, Some(JUnitKind), None)

  /** The engine callbacks run_tests installs. */
  datatype Hook = TestStartHook | TestCompleteHook | AllTestsCompleteHook | SuiteInitFailureHook | SuiteCleanupFailureHook

  function HookSlot(h: Hook): Slot {
    match h
    case TestStartHook => TestStartSlot
    case TestCompleteHook => TestCompleteSlot
    case AllTestsCompleteHook => AllTestsCompleteSlot
    case SuiteInitFailureHook => SuiteInitFailureSlot
    case SuiteCleanupFailureHook => SuiteCleanupFailureSlot
  }

  /** The slots run_tests asserts to be non-NULL. */
  const RequiredSlots: set<Slot> := {
    OpenReportSlot, CloseReportSlot, TestStartSlot, TestCompleteSlot,
    AllTestsCompleteSlot, SuiteInitFailureSlot, SuiteCleanupFailureSlot }

  predicate Runnable(f: ReportFormat) {
    forall s :: s in RequiredSlots ==> SlotEntry(f, s).Some?
  }

  /** One observable effect of the interface. */
  datatype Action =
    | Call(h: Handler)
    | CallSetRoot(h: Handler, root: Option<string>)
    | CallList(h: Handler, listed: Option<Registry>)
    | Install(hook: Hook, h: Handler)
    | RunAll(registry: Registry)
    | OpenDiagnostic
    | CloseDiagnostic

  function Installs(f: ReportFormat): seq<Action>
    requires Runnable(f)
  {
    [ Install(TestStartHook, HandlerAt(f, TestStartSlot)),
      Install(TestCompleteHook, HandlerAt(f, TestCompleteSlot)),
      Install(AllTestsCompleteHook, HandlerAt(f, AllTestsCompleteSlot)),
      Install(SuiteInitFailureHook, HandlerAt(f, SuiteInitFailureSlot)),
      Install(SuiteCleanupFailureHook, HandlerAt(f, SuiteCleanupFailureSlot)) ]
  }

  /** The effects of run_tests, given the codes the format's open and
      close functions return. */
  function RunSequence(f: ReportFormat, registry: Registry, openCode: ErrorCode, closeCode: ErrorCode): seq<Action>
    requires Runnable(f)
  {
    var closing := if closeCode != Success then [CloseDiagnostic] else [];
    var afterOpen :=
      if openCode != Success then [OpenDiagnostic]
      else Installs(f) + [RunAll(registry), Call(HandlerAt(f, CloseReportSlot))] + closing;
    [Call(HandlerAt(f, OpenReportSlot))] + afterOpen
  }

  /** The CUnit format can run; the JUnit format fails run_tests'
      preconditions, since its per-test and suite-failure slots are NULL. */
  lemma FormatsRunnable()
    ensures Runnable(CUnitFormat)
    ensures !Runnable(JUnitFormat)
    ensures SlotEntry(JUnitFormat, TestStartSlot).None?
  {
    assert TestStartSlot in RequiredSlots;
  }

  /** A failed open: the open function is the only handler called, a
      diagnostic follows, nothing is installed, nothing runs and close is
      not called. */
  lemma OpenFailureSkipsRun(f: ReportFormat, registry: Registry, openCode: ErrorCode, closeCode: ErrorCode)
    requires Runnable(f) && openCode != Success
    ensures RunSequence(f, registry, openCode, closeCode) == [Call(HandlerAt(f, OpenReportSlot)), OpenDiagnostic]
    ensures forall a :: a in RunSequence(f, registry, openCode, closeCode) ==>
      !a.Install? && !a.RunAll? && a != Call(HandlerAt(f, CloseReportSlot))
  {
  }

  /** The run sequence after a successful open, cell by cell. */
  lemma SuccessLayout(f: ReportFormat, registry: Registry, openCode: ErrorCode, closeCode: ErrorCode)
    requires Runnable(f) && openCode == Success
    ensures var t := RunSequence(f, registry, openCode, closeCode);
      && |t| == 8 + (if closeCode != Success then 1 else 0)
      && t[0] == Call(HandlerAt(f, OpenReportSlot))
      && t[1..6] == Installs(f)
      && t[6] == RunAll(registry)
      && t[7] == Call(HandlerAt(f, CloseReportSlot))
      && t[8..] == if closeCode != Success then [CloseDiagnostic] else []
  {
  }

  /** A successful open: each of the five engine callbacks is installed
      with the format's handler for it, after the open and before the
      run, which close follows directly. */
  lemma OpenSuccessInstallsAll(f: ReportFormat, registry: Registry, openCode: ErrorCode, closeCode: ErrorCode)
    requires Runnable(f) && openCode == Success
    ensures var t := RunSequence(f, registry, openCode, closeCode);
      && t[0] == Call(HandlerAt(f, OpenReportSlot))
      && (forall h: Hook :: Install(h, HandlerAt(f, HookSlot(h))) in t[1..6])
      && t[6] == RunAll(registry)
      && t[7] == Call(HandlerAt(f, CloseReportSlot))
  {
    SuccessLayout(f, registry, openCode, closeCode);
    var installs := Installs(f);
    forall h: Hook ensures Install(h, HandlerAt(f, HookSlot(h))) in installs {
      match h
      case TestStartHook => assert installs[0] == Install(h, HandlerAt(f, HookSlot(h)));
      case TestCompleteHook => assert installs[1] == Install(h, HandlerAt(f, HookSlot(h)));
      case AllTestsCompleteHook => assert installs[2] == Install(h, HandlerAt(f, HookSlot(h)));
      case SuiteInitFailureHook => assert installs[3] == Install(h, HandlerAt(f, HookSlot(h)));
      case SuiteCleanupFailureHook => assert installs[4] == Install(h, HandlerAt(f, HookSlot(h)));
    }
  }

  /** A successful open: exactly one run happens and close is called
      exactly once, right after it; only a failed close adds a
      diagnostic. */
  lemma OpenSuccessRunsOnce(f: ReportFormat, registry: Registry, openCode: ErrorCode, closeCode: ErrorCode)
    requires Runnable(f) && openCode == Success
    ensures var t := RunSequence(f, registry, openCode, closeCode);
      && (forall i :: 0 <= i < |t| ==> (t[i].RunAll? <==> i == 6))
      && (forall i :: 0 <= i < |t| ==> (t[i] == Call(HandlerAt(f, CloseReportSlot)) <==> i == 7))
      && (CloseDiagnostic in t <==> closeCode != Success)
      && OpenDiagnostic !in t
  {
    var t := RunSequence(f, registry, openCode, closeCode);
    SuccessLayout(f, registry, openCode, closeCode);
    forall i | 1 <= i < 6 ensures t[i].Install? {
      assert t[i] == t[1..6][i - 1];
    }
  }

  /** run_tests never installs a suite-complete handler, whatever the
      table holds in that slot. */
  lemma SuiteCompleteNeverInstalled(f: ReportFormat, registry: Registry, openCode: ErrorCode, closeCode: ErrorCode)
    requires Runnable(f)
    ensures forall a :: a in RunSequence(f, registry, openCode, closeCode) && (a.Install? || a.Call?) ==>
      a.h.slot != SuiteCompleteSlot
  {
  }

  /** The name stored by package_name_set: empty for no name, otherwise
      the name cut to the 49 characters that fit before the final NUL of
      the 50-character buffer. */
  function StoredPackageName(name: Option<string>): (r: string)
    ensures |r| <= PackageNameLength - 1 && NUL !in r
  {
    match name
    case None => ""
    case Some(s) => var c := CStr(s); c[..Min(|c|, PackageNameLength - 1)]
  }

  const PackageNameLength: nat := 50

  /** A name that fits is stored whole; a longer one keeps its first 49
      characters. */
  lemma StoredPackageNameShape(s: string)
    requires NUL !in s
    ensures |s| <= 49 ==> StoredPackageName(Some(s)) == s
    ensures |s| > 49 ==> StoredPackageName(Some(s)) == s[..49]
  {
    CStrAt(s + [NUL], |s|);
    assert (s + [NUL])[..|s|] == s;
    assert CStr(s) == s by {
      CStrWhole(s);
    }
  }

  /** A string with no NUL is its own C string. */
  lemma {:induction false} CStrWhole(s: string)
    requires NUL !in s
    ensures CStr(s) == s
    decreases |s|
  {
    if s != [] {
      assert s[0] in s;
      assert NUL !in s[1..] by {
        forall i | 0 <= i < |s[1..]| ensures s[1..][i] != NUL {
          assert s[1..][i] == s[i + 1];
        }
      }
      CStrWhole(s[1..]);
      assert s == [s[0]] + s[1..];
    }
  }

  class AutomatedInterface {
    /** pReport */
    var report: Option<ReportFormat>
    /** _gPackageName */
    const packageName: array<char>

    ghost predicate Valid()
      reads this, packageName
    {
      packageName.Length == PackageNameLength && NUL in packageName[..]
    }

    constructor ()
      ensures Valid() && fresh(packageName)
      ensures report == None
      ensures CStr(packageName[..]) == ""
    {
      report := None;
      packageName := new char[PackageNameLength](_ => NUL);
      new;
      assert packageName[..][0] == NUL;
    }

    /** set_report_format: the given table replaces the active one. */
    method SetReportFormat(f: ReportFormat)
      modifies this
      ensures report == Some(f)
    {
      report := Some(f);
    }

    /** run_tests: the open function is called; on success the five engine
        callbacks are installed, the engine runs every registered test
        once, and the close function is called. */
    method RunTests(registry: Option<Registry>, openCode: ErrorCode, closeCode: ErrorCode) returns (trace: seq<Action>)
      requires registry.Some?
      requires report.Some? && Runnable(report.value)
      ensures trace == RunSequence(report.value, registry.value, openCode, closeCode)
    {
      var f := report.value;
      trace := [Call(HandlerAt(f, OpenReportSlot))];
      if openCode != Success {
        trace := trace + [OpenDiagnostic];
      } else {
        trace := trace + Installs(f);
        trace := trace + [RunAll(registry.value)];
        trace := trace + [Call(HandlerAt(f, CloseReportSlot))];
        if closeCode != Success {
          trace := trace + [CloseDiagnostic];
        }
      }
    }

    /** CU_set_output_filename: the root goes unchanged to the active
        format's setter. */
    method SetOutputFilename(root: Option<string>) returns (call: Action)
      requires report.Some? && report.value.setOutputFilename.Some?
      ensures call.CallSetRoot? && call.root == root
      ensures call.h == HandlerAt(report.value, SetOutputFilenameSlot)
    {
      call := CallSetRoot(Handler(report.value.setOutputFilename.value, SetOutputFilenameSlot), root);
    }

    /** CU_list_tests_to_file: the listing function's code when the active
        format has one, otherwise success with no call at all. */
    method ListTestsToFile(registry: Option<Registry>, listCode: ErrorCode) returns (code: ErrorCode, calls: seq<Action>)
      requires report.Some?
      ensures report.value.listAllTests.Some? ==>
        code == listCode && calls == [CallList(HandlerAt(report.value, ListAllTestsSlot), registry)]
      ensures report.value.listAllTests.None? ==> code == Success && calls == []
    {
      match report.value.listAllTests
      case Some(k) =>
        code := listCode;
        calls := [CallList(Handler(k, ListAllTestsSlot), registry)];
      case None =>
        code := Success;
        calls := [];
    }

    /** package_name_set: clears the buffer, copies at most 49 characters
        and terminates the last cell. */
    method PackageNameSet(name: Option<string>)
      requires Valid()
      modifies packageName
      ensures Valid()
      ensures CStr(packageName[..]) == StoredPackageName(name)
    {
      MemZero(packageName);
      if name.Some? {
        var src := CStr(name.value);
        var n := PackageNameLength - 1;
        StrNCopy(packageName, src, n);
        packageName[n] := NUL;
        var m := Min(|src|, n);
        assert packageName[m] == NUL;
        assert packageName[..m] == src[..m];
        assert NUL !in packageName[..m] by {
          forall i | 0 <= i < m ensures packageName[..m][i] != NUL {
            assert packageName[..m][i] == src[i];
          }
        }
        CStrAt(packageName[..], m);
      } else {
        assert packageName[..][0] == NUL;
      }
    }

    /** package_name_get: the name last stored. */
    method PackageNameGet() returns (name: string)
      requires Valid()
      ensures name == CStr(packageName[..])
    {
      var n := StrLen(packageName);
      name := packageName[..n];
    }
  }
}
