/** The read-only view of CUnit's test database and run state that the
    report layer receives from the execution engine: tests, suites, the
    registry, failure records and the run summary. Pointers to CU_Test and
    CU_Suite objects are compared by address in the report code, so every
    test and suite carries an identity of its own. */
module TestDb {

  datatype Option<T> = None | Some(value: T)

  /** The address of a CU_Suite object. */
  type SuiteId = nat
  /** The address of a CU_Test object. */
  type TestId = nat

  /** An `unsigned int` counter of the run summary. */
  type U32 = x: int | 0 <= x < 0x1_0000_0000

  datatype Test = Test(id: TestId, name: string, active: bool)

  /** A suite: its tests in registration order, the engine's own test
      count (uiNumberOfTests), whether it has init and cleanup functions,
      and whether it is active. */
  datatype Suite = Suite(
    id: SuiteId,
    name: string,
    tests: seq<Test>,
    numberOfTests: nat,
    hasInit: bool,
    hasCleanup: bool,
    active: bool)

  datatype Registry = Registry(numberOfSuites: nat, numberOfTests: nat, suites: seq<Suite>)

  datatype FailureKind = AssertFailed | SuiteInitFailed | SuiteCleanupFailed | TestInactive

  /** One record of the engine's failure chain. The owning suite and test
      are nullable pointers; suite-level records have no test. */
  datatype FailureRecord = FailureRecord(
    kind: FailureKind,
    suite: Option<SuiteId>,
    test: Option<TestId>,
    fileName: Option<string>,
    line: nat,
    condition: Option<string>)

  datatype RunSummary = RunSummary(
    nSuitesRun: U32,
    nSuitesFailed: U32,
    nSuitesInactive: U32,
    nTestsRun: U32,
    nTestsFailed: U32,
    nTestsInactive: U32,
    nAsserts: U32,
    nAssertsFailed: U32)

  /** The CU_ErrorCode values the report layer returns. */
  datatype ErrorCode = Success | NoRegistry | FOpenFailed | FCloseFailed
}
