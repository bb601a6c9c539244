# CUnit automated interface: the XML report layer

This project models the XML report layer of CUnit's automated test
interface and proves properties of the model. While the test engine runs, it
reports a flat stream of events (a test starts, a test completes with its
chain of failure records, a suite's initialization or cleanup fails, all
tests are complete). The report layer turns that stream into nested XML in
one of two formats:

- **CUnit format** (`ReportCUnit.dfy`). Two module statics, the running suite
  and the "suite block open" flag, regroup the per-test events into one
  block per suite. Suite failures are written as blocks of their own. A
  listing document describes the whole registry.
- **JUnit format** (`ReportJUnit.dfy`). When a suite completes, its test list
  is walked in lock step with its failure chain. Each test is reported as
  passed, skipped, failed or errored, and dummy test cases stand for a
  failed suite initialization or cleanup.
- **Automated interface** (`Automated.dfy`):
  - the active format table of ten optional handlers;
  - the `run_tests` sequence: open, install the handlers, run, close;
  - dispatch of the file-name setter and of the optional listing;
  - the 50-character package-name buffer.

Shared pieces:

- `TestDb.dfy` holds the registry, suites, tests, failure records and run summary.
- `FileNames.dfy` derives the listing and results file names, which both formats share.
- `CStrings.dfy` holds the C string operations the buffers go through (`strlen`, `strncpy`, `strcat`, `memset`) over `array<char>`.
- `Xml.dfy` holds the output model. A file is an append-only sequence of tokens: an opening tag with its attributes, a closing tag, or a leaf record (a block that holds only fields).
  - `Scan` tracks the open elements, and `Balanced` says every element opened is closed, in order.
  - Whitespace and the literal XML text are not modelled.

Mutable state is modelled as classes. `CUnitReport`, `JUnitReport` and
`AutomatedInterface` hold the module statics as fields. Each handler is a
method that states the file's new contents as a function of the old state,
and the properties are proved about those functions. File opens and closes,
and the codes returned through handler pointers, are parameters.

## Model

| member | source | states |
|---|---|---|
| FileNames.DerivedName | CUnit/Sources/Automated/Report_CUnit.c:84-110 | a derived file name never exceeds 1024 characters, so it fits the 1025-character buffer with its NUL |
| FileNames.DerivedNameShape | CUnit/Sources/Automated/Report_CUnit.c:84-110 | for both endings the root keeps min(length, 1012) characters and the ending follows; a cut name is exactly 1024 characters |
| FileNames.DerivedNameDefaults | CUnit/Sources/Automated/Report_CUnit.c:90-106 | no root gives CUnitAutomated-Listing.xml / -Results.xml; an empty root is kept and gives the bare endings |
| FileNames.FillName | CUnit/Sources/Automated/Report_CUnit.c:88-108 | strncpy of the root to its budget, a NUL at the budget, then strcat of the ending leaves the derived name in the buffer |
| ReportCUnit.CUnitReport.constructor | CUnit/Sources/Automated/Report_CUnit.c:72-78 | the initial statics: both name buffers hold the empty string, no result file is open and nothing is written, no suite is running and the writing flag is cleared |
| ReportCUnit.CUnitReport.SetOutputFilename | CUnit/Sources/Automated/Report_CUnit.c:84-110 | both name buffers hold the names derived from the root |
| ReportCUnit.CUnitReport.OpenReport | CUnit/Sources/Automated/Report_CUnit.c:114-143 | an empty results name falls back to the default root; both statics are reset; a failed open gives FOPEN_FAILED and writes nothing; a good open writes the document head with only the report and result-listing elements open |
| ReportCUnit.CUnitReport.CloseReport | CUnit/Sources/Automated/Report_CUnit.c:147-169 | the footer is written and the report closed; FCLOSE_FAILED exactly when fclose fails; a document with only the report open becomes balanced |
| ReportCUnit.CUnitReport.TestStart | CUnit/Sources/Automated/Report_CUnit.c:178-215 | a test of the running suite writes nothing; otherwise an open success block is closed, one suite block is opened, and the flag and running suite are set; the nesting invariant is kept |
| ReportCUnit.FailureRecords | CUnit/Sources/Automated/Report_CUnit.c:238-286 | one failure record per chain record, in chain order, each with the record's file name, line and escaped condition |
| ReportCUnit.CUnitReport.TestComplete | CUnit/Sources/Automated/Report_CUnit.c:223-298 | every chain record must belong to this test and suite; no chain gives one success record, otherwise the failure records in chain order; the statics are unchanged |
| ReportCUnit.WrapSub | CUnit/Sources/Automated/Report_CUnit.c:352 | unsigned subtraction: the difference when it is not negative, otherwise the difference plus 2^32 |
| ReportCUnit.SummaryFidelity | CUnit/Sources/Automated/Report_CUnit.c:325-371 | three records, of kind suites, test cases and assertions in that order; the suite and test totals come from the registry and every run, failed and inactive cell from the run summary; tests succeeded = run - failed; assertions total = run = nAsserts, succeeded = nAsserts - failed; the suites-succeeded and assertions-inactive cells are the fixed texts |
| ReportCUnit.CUnitReport.AllTestsComplete | CUnit/Sources/Automated/Report_CUnit.c:304-372 | an open success block is closed, the result listing ends and the summary is written; after it only the report element is open |
| ReportCUnit.AllTestsCompleteNesting | CUnit/Sources/Automated/Report_CUnit.c:315-371 | from either listing state the summary leaves exactly the report element open |
| ReportCUnit.CUnitReport.SuiteInitFailed | CUnit/Sources/Automated/Report_CUnit.c:378-400 | an open success block is closed, the flag is cleared, the running suite is kept, and one self-contained failure block is written |
| ReportCUnit.CUnitReport.SuiteCleanupFailed | CUnit/Sources/Automated/Report_CUnit.c:406-428 | as for an initialization failure, with the cleanup reason |
| ReportCUnit.StepKeepsNesting | CUnit/Sources/Automated/Report_CUnit.c:178-428 | every handler keeps "flag set implies a running suite", and exactly one suite block with its success block is open exactly when the flag is set |
| ReportCUnit.RunKeepsNesting | CUnit/Sources/Automated/Report_CUnit.c:178-428 | the same invariant over any sequence of events |
| ReportCUnit.ResultsDocumentBalanced | CUnit/Sources/Automated/Report_CUnit.c:114-372 | whatever events arrive between open_report and all_tests_complete, the finished results document is balanced |
| ReportCUnit.SameSuiteAddsRecords | CUnit/Sources/Automated/Report_CUnit.c:191-210 | inside a suite's block, further tests of that suite add only their own records and leave the statics as they are |
| ReportCUnit.SuiteRegrouped | CUnit/Sources/Automated/Report_CUnit.c:178-298 | the tests of a suite, reported one by one, come out as one suite block holding every test's records in order |
| ReportCUnit.TwoSuiteScenario | CUnit/Sources/Automated/Report_CUnit.c:178-400 | a passing and a failing test of one suite, then a suite whose initialization fails, give exactly one block for each suite |
| ReportCUnit.RunAppend | CUnit/Sources/Automated/Report_CUnit.c:178-428 | handling two event sequences one after the other is handling their concatenation |
| ReportCUnit.CUnitReport.ListAllTests | CUnit/Sources/Automated/Report_CUnit.c:437-541 | no registry gives NOREGISTRY and nothing written; a failed open gives FOPEN_FAILED; otherwise the whole listing document, and FCLOSE_FAILED exactly when fclose fails |
| ReportCUnit.ListTestDefinitions | CUnit/Sources/Automated/Report_CUnit.c:505-516 | the inner listing loop writes the suite's test definitions |
| ReportCUnit.TestDefinitions | CUnit/Sources/Automated/Report_CUnit.c:505-516 | one definition per test, in order, each carrying the test's name and, as written, the suite's active flag |
| ReportCUnit.SuitesListingAppend | CUnit/Sources/Automated/Report_CUnit.c:484-525 | the listing of a run of suites is each suite's block in turn, in registry order |
| ReportCUnit.ListingBalanced | CUnit/Sources/Automated/Report_CUnit.c:437-541 | the listing document is balanced for every registry |
| ReportCUnit.ListingShowsSuiteActivity | CUnit/Sources/Automated/Report_CUnit.c:514 | an inactive test of an active suite is listed as active, unlike its own flag |
| ReportCUnit.CorrectedTestDefinitions | CUnit/Sources/Automated/Report_CUnit.c:514 | each definition carries the test's own active flag |
| ReportCUnit.CorrectedDefinitionsAgree | CUnit/Sources/Automated/Report_CUnit.c:514 | the written and the corrected definitions agree exactly when every test shares its suite's activity |
| ReportJUnit.JUnitReport.constructor | CUnit/Sources/Automated/Report_JUnit.c:72-77 | the initial statics: both name buffers hold the empty string, no result file is open and nothing is written |
| ReportJUnit.JUnitReport.SetOutputFilename | CUnit/Sources/Automated/Report_JUnit.c:92-118 | the same name derivation as the CUnit format |
| ReportJUnit.JUnitReport.OpenReport | CUnit/Sources/Automated/Report_JUnit.c:122-151 | default-root fallback; a failed open gives FOPEN_FAILED; a good open writes the testsuites tag with the failed and run test counts known at that moment |
| ReportJUnit.JUnitReport.CloseReport | CUnit/Sources/Automated/Report_JUnit.c:155-166 | writes nothing; FCLOSE_FAILED exactly when fclose fails |
| ReportJUnit.JUnitReport.AllTestsComplete | CUnit/Sources/Automated/Report_JUnit.c:172-184 | the only writer of the closing testsuites tag |
| ReportJUnit.RunEnd | CUnit/Sources/Automated/Report_JUnit.c:339-344 | the end of the run of consecutive records that belong to the test: all records before it do, the one at it does not |
| ReportJUnit.Entry | CUnit/Sources/Automated/Report_JUnit.c:241-255 | passed exactly when the cursor does not reference the test; skipped exactly when it references it with a test-inactive record; neither moves the cursor; a failure holds the first record's condition and the test's whole run of records, and the cursor moves past them |
| ReportJUnit.MergeShape | CUnit/Sources/Automated/Report_JUnit.c:237-257 | the walk reports every test once, in suite order, and never as errored or as a dummy |
| ReportJUnit.JUnitReport.PrintWalk | CUnit/Sources/Automated/Report_JUnit.c:237-257 | the loop writes the walk's entries and returns the walk's final cursor |
| ReportJUnit.JUnitReport.PrintOneTest | CUnit/Sources/Automated/Report_JUnit.c:241-255 | one loop step writes the test's entry and returns the cursor the step leaves |
| ReportJUnit.NullChainAllPassed | CUnit/Sources/Automated/Report_JUnit.c:266-274 | with no failure records every test, in suite order, is one passed self-closing test case |
| ReportJUnit.JUnitReport.PrintAllPassed | CUnit/Sources/Automated/Report_JUnit.c:266-274 | the loop writes a passed entry per test |
| ReportJUnit.InitFailureShortCircuit | CUnit/Sources/Automated/Report_JUnit.c:220-234 | an initialization failure at the head of the chain gives one dummy entry and then one errored entry per test (N+1 entries); later records are not looked at |
| ReportJUnit.JUnitReport.PrintAllErrored | CUnit/Sources/Automated/Report_JUnit.c:228-233 | the loop writes an errored entry per test |
| ReportJUnit.CleanupDummyIff | CUnit/Sources/Automated/Report_JUnit.c:259-263 | one entry per test, in order, and a cleanup dummy, placed last, exactly when the record the cursor stops at is a cleanup failure |
| ReportJUnit.JUnitReport.SuiteComplete | CUnit/Sources/Automated/Report_JUnit.c:191-283 | one testsuite element that wraps the suite's entries |
| ReportJUnit.SuiteOutputBalanced | CUnit/Sources/Automated/Report_JUnit.c:207-278 | a suite's testsuite element is balanced whatever its entries |
| ReportJUnit.RenderEntriesBalanced | CUnit/Sources/Automated/Report_JUnit.c:289-405 | every test case written (passed, errored, skipped, failed, dummy) closes what it opens |
| ReportJUnit.JUnitDocumentBalanced | CUnit/Sources/Automated/Report_JUnit.c:143-183 | testsuites from open_report, the suites in completion order and the close from all_tests_complete form a balanced document |
| ReportJUnit.DetailsShape | CUnit/Sources/Automated/Report_JUnit.c:339-344 | one details leaf per record, in order |
| ReportJUnit.JUnitReport.PrintFailureDetails | CUnit/Sources/Automated/Report_JUnit.c:411-425 | one details record with the record's escaped condition, file name and line |
| ReportJUnit.JUnitReport.PrintTestcaseTag | CUnit/Sources/Automated/Report_JUnit.c:360-370 | an open testcase tag when sub-tags follow, a self-closing one otherwise |
| ReportJUnit.JUnitReport.PrintSingleTestSuccess | CUnit/Sources/Automated/Report_JUnit.c:289-292 | a passed test case |
| ReportJUnit.JUnitReport.PrintSingleTestError | CUnit/Sources/Automated/Report_JUnit.c:298-305 | a test case holding an error |
| ReportJUnit.JUnitReport.PrintSingleTestSkipped | CUnit/Sources/Automated/Report_JUnit.c:311-318 | a test case holding a skipped mark |
| ReportJUnit.JUnitReport.PrintFailureRun | CUnit/Sources/Automated/Report_JUnit.c:339-344 | the details of each consecutive record of the test; returns the first record that is not the test's |
| ReportJUnit.JUnitReport.PrintSingleTestFailed | CUnit/Sources/Automated/Report_JUnit.c:326-353 | a test case holding one failure whose message is the first record's condition and whose details are the test's run of records; returns the cursor past them |
| ReportJUnit.JUnitReport.PrintDummyTest | CUnit/Sources/Automated/Report_JUnit.c:377-405 | a dummy test case named after the suite, for an initialization or cleanup failure, holding one failure with that record's details |
| ReportJUnit.LockStepExample | CUnit/Sources/Automated/Report_JUnit.c:237-257 | for tests a, b, c, two failures of b give passed a, b failed with both records, passed c, and the cursor at the chain's end |
| ReportJUnit.InactiveMasksLaterFailure | CUnit/Sources/Automated/Report_JUnit.c:243-246 | as written, a skipped test leaves the cursor on its record, so the next test's failure is reported as a pass |
| ReportJUnit.EntryCorrected | CUnit/Sources/Automated/Report_JUnit.c:241-255 | the corrected step classifies like the written one but always moves the cursor past the test's records |
| ReportJUnit.CorrectedMergeMatchesGroups | CUnit/Sources/Automated/Report_JUnit.c:237-257 | for a chain grouped test by test, the corrected walk classifies every test from its own records alone and consumes exactly the groups |
| ReportJUnit.MergeAgreesWithoutInactive | CUnit/Sources/Automated/Report_JUnit.c:243-249 | with no test-inactive record the written and corrected walks agree |
| ReportJUnit.SuiteAgreesWithoutInactive | CUnit/Sources/Automated/Report_JUnit.c:191-283 | with no test-inactive record, the whole suite element as written and as corrected holds the same entries, the cleanup dummy included |
| Automated.FormatsRunnable | CUnit/Sources/Automated/Automated.c:98-106 | the CUnit table meets run_tests' non-NULL requirements; the JUnit table, whose per-test slots are NULL, does not |
| Automated.AutomatedInterface.constructor | CUnit/Sources/Automated/Automated.c:73-77 | no active format; the package name is initially empty |
| Automated.AutomatedInterface.SetReportFormat | CUnit/Sources/Automated/Automated.c:90-94 | the given table replaces the active one |
| Automated.AutomatedInterface.RunTests | CUnit/Sources/Automated/Automated.c:96-130 | requires a registry and a runnable active format; performs the run sequence |
| Automated.OpenFailureSkipsRun | CUnit/Sources/Automated/Automated.c:113-115 | a failed open installs nothing, runs nothing and does not call close; only a diagnostic follows |
| Automated.OpenSuccessInstallsAll | CUnit/Sources/Automated/Automated.c:116-124 | after a good open the five callbacks are installed with the format's own handlers, then the run, then close |
| Automated.OpenSuccessRunsOnce | CUnit/Sources/Automated/Automated.c:116-129 | exactly one run and exactly one close call; a failed close adds only a diagnostic |
| Automated.SuiteCompleteNeverInstalled | CUnit/Sources/Automated/Automated.c:118-122 | no suite-complete handler is installed or called, whatever the table holds |
| Automated.AutomatedInterface.SetOutputFilename | CUnit/Sources/Automated/Automated.c:133-139 | the root goes unchanged to the active format's setter |
| Automated.AutomatedInterface.ListTestsToFile | CUnit/Sources/Automated/Automated.c:142-153 | the listing function's code when the format has one, otherwise success with no call |
| Automated.StoredPackageName | CUnit/Sources/Automated/Automated.c:183-192 | the stored name has at most 49 characters and no NUL |
| Automated.StoredPackageNameShape | CUnit/Sources/Automated/Automated.c:183-192 | a name of at most 49 characters is stored whole; a longer one keeps its first 49 |
| Automated.AutomatedInterface.PackageNameSet | CUnit/Sources/Automated/Automated.c:183-192 | memset, strncpy of 49 characters and a final NUL leave the stored name in the buffer; no name stores "" |
| Automated.AutomatedInterface.PackageNameGet | CUnit/Sources/Automated/Automated.c:197-200 | returns the string in the buffer, that is, the name last stored |

## Left out

- File I/O: fopen, fclose and setvbuf are parameters (success or failure). fprintf is an append to the token sequence.
- The literal XML text is not modelled. This covers whitespace, the XML declaration and stylesheet lines, and the `%d`/`%u` formatting of numbers (numbers are unbounded integers in the tokens).
- Timestamps (`ctime`), `CU_VERSION` and the `_()` translation lookups are not modelled. The footer is one leaf record.
- The XML escaper (`CU_translated_strlen` / `CU_translate_special_characters`) is kept symbolic: escaped text is `Escaped(raw)`. Its rules live in Util.c, which is not part of this model.
- `CU_set_error` and `CU_get_error` are not modelled. The codes are returned directly.
- `CU_MALLOC`/`CU_FREE` are not modelled. This covers the scratch buffers for escaped suite names and conditions and the reuse of the condition buffer. The code does not handle allocation failure.
- The execution engine is not modelled: `CU_run_all_tests`, `CU_set_registry` and the `CU_set_*_handler` setters. It is recorded as one `RunAll` action, and in the formats as the events it delivers (`Event`, `SuiteRun`).
- Calls through the format table are recorded as actions naming the format and slot. What each handler does is modelled in its format's module. The codes that open, close and the listing return come in as parameters.
- The JUnit statics `f_pRunningSuite` and `f_bWriting_CUNIT_RUN_SUITE` are declared but never used there, so they are not modelled.
- The package name reaches JUnit's suite_complete as the `pkg` parameter rather than through `CU_automated_package_name_get`.
- open_report falls back to the default root through `CU_set_output_filename`, which calls the active format's setter. The model calls the format's own setter, which is the same function whenever that format is the active one.
- `CUF_SuiteInactive` and the other failure kinds are not told apart from assertion failures. Only the four kinds the report layer tests are modelled.
- The nine-slot struct in Automated.h is not modelled. The model follows the ten-entry tables of the two formats, which include a suite-complete slot.
- ReportCUnit.CUnitReport.CloseReport: f_pTestResultFile is not reset after fclose. The model keeps `hasResultFile` set, as the code does.

Where the documented behaviour and the code differ, the model follows the code:
- A non-NULL empty root is not replaced by the default (`FileNames.DerivedNameDefaults`).
- CUnit test_complete requires every record of the chain to belong to the test; it does not stop at the first record of another test.

## Findings

| source | as written | input that shows it | evidently intended | confidence | as-written member | corrected member |
|---|---|---|---|---|---|---|
| CUnit/Sources/Automated/Report_JUnit.c:243-246 | a skipped test does not advance the failure cursor | tests a, b; chain [a inactive, b assertion failure]: b is reported as passed | the cursor moves past the skipped test's records, and b is reported as failed | high (by proof; not executed) | ReportJUnit.InactiveMasksLaterFailure | ReportJUnit.CorrectedMergeMatchesGroups |
| CUnit/Sources/Automated/Report_CUnit.c:514 | a test's active value in the listing is the suite's flag | an active suite holding an inactive test: the test is listed as active | each test's own active flag | high (by proof; not executed) | ReportCUnit.ListingShowsSuiteActivity | ReportCUnit.CorrectedDefinitionsAgree |
