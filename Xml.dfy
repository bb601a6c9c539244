/** The report files as append-only sequences of abstract XML tokens: an
    opening tag (with its attributes), a closing tag, or a leaf record (a
    block that holds only fields). Whitespace and literal markup are not
    modelled; what is kept is which element is opened or closed, and which
    values each record carries. */
module Xml {
  import opened TestDb

  /** Free text as it reaches a file: verbatim, or passed through the XML
      escaper CU_translate_special_characters, whose rules are kept
      symbolic. */
  datatype Text = Plain(s: string) | Escaped(raw: string)

  datatype Tag =
    // the CUnit-format results document
    | RunReport | ResultListing | RunSuite | RunSuiteSuccess | RunSummaryTag
    // the CUnit-format listing document
    | ListReport | ListTotalSummary | AllTestListing | ListingSuite | ListingSuiteTests
    // the JUnit-format results document
    | TestSuites | TestSuiteTag | TestCase | FailureTag

  /** The name attribute of a JUnit <testcase>: a test's own name, or the
      dummy entry for a failed suite initialization or cleanup. */
  datatype CaseName = TestName(name: string) | InitDummyName(suite: Text) | CleanupDummyName(suite: Text)

  datatype Attrs =
    | NoAttrs
    | SuitesAttrs(failures: U32, testsRun: U32)
    | SuiteAttrs(testCount: nat, suiteName: Text)
    | CaseAttrs(classname: string, name: CaseName)
    | FailureAttrs(message: Text)

  datatype SuiteFailureReason = InitializationFailed | CleanupFailed
  datatype EntityKind = SuitesKind | TestCasesKind | AssertionsKind
  datatype TotalKind = SuiteTotal | TestCaseTotal

  /** A summary cell: a number, or a fixed text where nothing is counted. */
  datatype Cell = Num(n: int) | Fixed(text: string)

  datatype Record =
    // CUnit results document
    | Header
    | SuiteName(name: Text)
    | TestSuccess(testName: string)
    | TestFailure(testName: string, fileName: string, line: nat, condition: Text)
    | SuiteFailure(suiteName: string, reason: SuiteFailureReason)
    | SummaryRecord(kind: EntityKind, total: Cell, run: Cell, succeeded: Cell, failed: Cell, inactive: Cell)
    | Footer
    // CUnit listing document
    | TotalRecord(totalKind: TotalKind, value: nat)
    | SuiteDefinition(suiteName: string, hasInit: bool, hasCleanup: bool, active: bool, testCount: nat)
    | TestCaseDefinition(caseName: string, caseActive: bool)
    // JUnit results document
    | PassedCase(classname: string, passedName: string)
    | ErrorDetail
    | SkippedDetail
    | FailureDetail(detailCondition: Text, detailFile: string, detailLine: nat)

  datatype Token = Open(tag: Tag, attrs: Attrs) | Close(closed: Tag) | Leaf(record: Record)

  /** A failure record's condition as printed: escaped, or empty when the
      record has none. */
  function ConditionText(condition: Option<string>): Text {
    match condition
    case None => Plain("")
    case Some(c) => Escaped(c)
  }

  /** A failure record's file name as printed: empty when it has none. */
  function FileNameText(fileName: Option<string>): string {
    match fileName
    case None => ""
    case Some(f) => f
  }

  /** The effect of one token on the stack of open elements; None when a
      closing tag does not match the innermost open element. */
  function Push(stack: seq<Tag>, t: Token): Option<seq<Tag>> {
    match t
    case Open(tag, _) => Some(stack + [tag])
    case Close(tag) =>
      if |stack| > 0 && stack[|stack| - 1] == tag then Some(stack[..|stack| - 1]) else None
    case Leaf(_) => Some(stack)
  }

  /** The stack of open elements after reading ts from the given stack. */
  function Scan(stack: seq<Tag>, ts: seq<Token>): Option<seq<Tag>>
    decreases |ts|
  {
    if ts == [] then Some(stack)
    else
      match Push(stack, ts[0])
      case None => None
      case Some(s) => Scan(s, ts[1..])
  }

  function Then(o: Option<seq<Tag>>, ts: seq<Token>): Option<seq<Tag>> {
    match o
    case None => None
    case Some(s) => Scan(s, ts)
  }

  /** Every opening tag of ts is closed in ts, in order, and no closing tag
      is orphaned. */
  predicate Balanced(ts: seq<Token>) {
    Scan([], ts) == Some([])
  }

  predicate AllLeaves(ts: seq<Token>) {
    forall i :: 0 <= i < |ts| ==> ts[i].Leaf?
  }

  lemma {:induction false} ScanAppend(stack: seq<Tag>, a: seq<Token>, b: seq<Token>)
    ensures Scan(stack, a + b) == Then(Scan(stack, a), b)
    decreases |a|
  {
    if a == [] {
      assert a + b == b;
    } else {
      assert (a + b)[0] == a[0];
      assert (a + b)[1..] == a[1..] + b;
      match Push(stack, a[0])
      case None =>
      case Some(s) => ScanAppend(s, a[1..], b);
    }
  }

  lemma ScanOne(stack: seq<Tag>, t: Token)
    ensures Scan(stack, [t]) == Push(stack, t)
  {
    assert [t][1..] == [];
  }

  lemma AppendAssoc(a: seq<Token>, b: seq<Token>, c: seq<Token>)
    ensures (a + b) + c == a + (b + c)
  {
  }

  /** Closing the innermost open element pops it. */
  lemma ScanClose(stack: seq<Tag>, tag: Tag)
    ensures Scan(stack + [tag], [Close(tag)]) == Some(stack)
  {
    ScanOne(stack + [tag], Close(tag));
    assert (stack + [tag])[..|stack|] == stack;
  }

  lemma ScanThrough(stack: seq<Tag>, a: seq<Token>, mid: seq<Tag>, b: seq<Token>, r: seq<Tag>)
    requires Scan(stack, a) == Some(mid) && Scan(mid, b) == Some(r)
    ensures Scan(stack, a + b) == Some(r)
  {
    ScanAppend(stack, a, b);
  }

  /** Leaf records leave the open elements as they are. */
  lemma {:induction false} ScanLeaves(stack: seq<Tag>, ts: seq<Token>)
    requires AllLeaves(ts)
    ensures Scan(stack, ts) == Some(stack)
    decreases |ts|
  {
    if ts != [] {
      ScanLeaves(stack, ts[1..]);
    }
  }

  /** Reading ts under more open elements changes only the bottom of the
      stack: a fragment that never pops below its start behaves the same
      at any depth. */
  lemma {:induction false} ScanUnder(prefix: seq<Tag>, stack: seq<Tag>, ts: seq<Token>, r: seq<Tag>)
    requires Scan(stack, ts) == Some(r)
    ensures Scan(prefix + stack, ts) == Some(prefix + r)
    decreases |ts|
  {
    if ts != [] {
      match ts[0]
      case Open(tag, _) =>
        assert prefix + stack + [tag] == prefix + (stack + [tag]);
        ScanUnder(prefix, stack + [tag], ts[1..], r);
      case Close(tag) =>
        var n := |stack|;
        assert (prefix + stack)[..|prefix| + n - 1] == prefix + stack[..n - 1];
        ScanUnder(prefix, stack[..n - 1], ts[1..], r);
      case Leaf(_) =>
        ScanUnder(prefix, stack, ts[1..], r);
    }
  }

  /** A balanced fragment leaves any stack as it found it. */
  lemma BalancedAnywhere(stack: seq<Tag>, ts: seq<Token>)
    requires Balanced(ts)
    ensures Scan(stack, ts) == Some(stack)
  {
    ScanUnder(stack, [], ts, []);
    assert stack + [] == stack;
  }

  lemma BalancedConcat(a: seq<Token>, b: seq<Token>)
    requires Balanced(a) && Balanced(b)
    ensures Balanced(a + b)
  {
    ScanAppend([], a, b);
  }

  /** An element whose content is balanced is balanced. */
  lemma BalancedWrap(tag: Tag, attrs: Attrs, body: seq<Token>)
    requires Balanced(body)
    ensures Balanced([Open(tag, attrs)] + body + [Close(tag)])
  {
    ScanOne([], Open(tag, attrs));
    assert [] + [tag] == [tag];
    BalancedAnywhere([tag], body);
    ScanThrough([], [Open(tag, attrs)], [tag], body, [tag]);
    ScanOne([tag], Close(tag));
    ScanThrough([], [Open(tag, attrs)] + body, [tag], [Close(tag)], []);
  }

  lemma LeavesBalanced(ts: seq<Token>)
    requires AllLeaves(ts)
    ensures Balanced(ts)
  {
    ScanLeaves([], ts);
  }
}
