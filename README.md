# Security-test runner of the vulnerability-testing page

This project models the security-test runner of the dashboard's
vulnerability-testing page (`src/pages/Vulnerabilities.tsx`) and proves
properties of the model.

The page keeps an ordered list of five named security tests. Each test has an
id, a name, a description, a status (idle, running, success or failed) and an
optional result message and list of detail lines. It also keeps the id of the
test being run, if any. Running one test goes through these steps:

1. mark every test with that id as running;
2. record the id as the active scan;
3. wait, then ask an oracle for a verdict (success flag, message, detail lines);
4. write the verdict into every test with that id;
5. emit one success or error toast carrying the message;
6. clear the active scan.

Running all tests emits an info toast, runs each test of the list in list
order (each to completion before the next starts), and then emits a success
toast.

Modules, one per concern of that file:

- `Registry` (`registry.dfy`) holds the data model. It also has the initial
  list of five tests and the simulated oracle the page ships with. The oracle's
  random comparisons are a `Draws` parameter.
- `Updates` (`updates.dfy`) holds the two list updates a run makes. Each is an
  element-wise map over the list that touches only tests with the matching id.
  It also has the toast a verdict produces and the single-flight predicates.
- `Batch` (`batch.dfy`) holds the specification of running all tests. This is
  the list after running a sequence of ids in order, plus the toast trace. It
  has the lemmas that every test ends with its own verdict and that the trace
  has n + 2 entries.
- `Runner` (`runner.dfy`) holds the class `VulnerabilitiesPage`. Its fields are
  `securityTests`, `activeScanId` and `toasts`. `RunSecurityTest` is split into
  `BeginRun` and `CompleteRun` at the point where the source awaits, so the
  state in the middle of a run can be stated: the scan is active for the
  target, and at most one test is running. At rest and mid-run, every
  success or failed test has a result and details and every idle test has
  neither. `RunAllTests` is a loop over the
  ids, proved against `Batch.RunSequence` and `Batch.BatchTrace`.

The oracle is a parameter of type `string -> Verdict`. The runner is proved
correct for every such function.

Behaviour the code does not have, which the model therefore does not add:

- the code has no not-found error: an unknown id changes no test, and a toast
  is still emitted;
- the code has no already-running error: the only guard is that the page's
  buttons are disabled while a scan is active, modelled as the class invariant
  `Valid()` (which includes `activeScanId == None`) that the methods require;
- the code has no oracle-failure path;
- marking a test running does not clear its earlier result and details.

## Model

| member | source | states |
|---|---|---|
| Registry.InitialTests | src/pages/Vulnerabilities.tsx:24-55 | the initial registry has exactly five tests with pairwise-distinct ids (the five ids of the oracle's switch, in that order), all idle with no result and no details |
| Registry.BranchOf | src/pages/Vulnerabilities.tsx:124-175 | the oracle's switch reaches its default branch exactly for ids outside the five known ones |
| Registry.SimulateTestResults | src/pages/Vulnerabilities.tsx:175-180 | for any id outside the five known ones the verdict is success with message "Test completed" and the single detail line "No specific details available", whatever the draws |
| Registry.SimulatedDrawsIndependent | src/pages/Vulnerabilities.tsx:124-174 | for a known id and any two draws: success is the first draw, the message depends only on the second draw and the detail lines only on the third, and message and detail lines are always one of the two that id's branch offers |
| Registry.PassingVerdictMayReportVulnerability | src/pages/Vulnerabilities.tsx:125-134 | the draws are independent: a passing SQL-injection verdict can carry that branch's alarming message and its whole alarming detail list |
| Updates.Outcome | src/pages/Vulnerabilities.tsx:88 | a verdict settles a test to success exactly when it succeeded and to failed exactly when it did not |
| Updates.MarkRunning | src/pages/Vulnerabilities.tsx:69-73 | same length; every test with the id becomes running and keeps its id, name, description and earlier result and details; every other test is unchanged |
| Updates.RecordVerdict | src/pages/Vulnerabilities.tsx:84-93 | same length; every test with the id keeps id, name and description, becomes success exactly when the verdict succeeded (failed otherwise) and takes the verdict's message as result and its detail lines as details; every other test is unchanged |
| Updates.Notice | src/pages/Vulnerabilities.tsx:96-100 | the toast of a run is on the success channel exactly when the verdict succeeded and on the error channel exactly when it did not, and carries the verdict's message |
| Updates.InitialResultsConsistent | src/pages/Vulnerabilities.tsx:24-55 | in the initial registry every settled test has a result and details and every idle test has neither |
| Updates.MarkRunningKeepsResultsConsistent | src/pages/Vulnerabilities.tsx:69-73 | marking a test running keeps every settled test with result and details and every idle test without, and sends no test back to idle |
| Updates.RecordVerdictKeepsResultsConsistent | src/pages/Vulnerabilities.tsx:84-93 | recording a verdict keeps every settled test with result and details and every idle test without, and sends no test back to idle |
| Updates.UpdatesPreserveIds | src/pages/Vulnerabilities.tsx:69-93 | both updates keep the list of ids, hence the list's length and order |
| Updates.UnknownIdChangesNothing | src/pages/Vulnerabilities.tsx:69-93 | an id that is not in the list leaves the list unchanged under both updates |
| Updates.RecordOverridesMark | src/pages/Vulnerabilities.tsx:69-93 | marking running and then recording a verdict gives the same list as recording the verdict alone |
| Updates.MarkRunningSingleFlight | src/pages/Vulnerabilities.tsx:69-75 | from a list where nothing runs and ids are distinct, marking a test running leaves only that test running, at most one test running, and ids distinct |
| Updates.RecordVerdictSettles | src/pages/Vulnerabilities.tsx:84-102 | once only the target was running, recording its verdict leaves no test running and keeps ids distinct |
| Batch.RunSequence | src/pages/Vulnerabilities.tsx:109-112 | running a sequence of tests in order keeps the length of the list |
| Batch.BatchNotices | src/pages/Vulnerabilities.tsx:110-112 | running n tests in order emits exactly n per-test toasts |
| Batch.BatchTrace | src/pages/Vulnerabilities.tsx:106-115 | the toast trace of a batch over n tests has n + 2 entries: first the info notice "Starting comprehensive security scan...", last the success notice "Comprehensive security scan completed" |
| Batch.RunSequenceKeepsIds | src/pages/Vulnerabilities.tsx:109-112 | running a sequence of tests in order keeps the list of ids |
| Batch.RunSequenceAt | src/pages/Vulnerabilities.tsx:109-112 | after running a sequence of ids in order, a test whose id occurs in it carries the oracle's verdict for its id, however often the id occurs; any other test is unchanged |
| Batch.RunAllSettlesEveryTest | src/pages/Vulnerabilities.tsx:106-115 | running every test in list order keeps the ids, leaves no test running, and leaves each test with its own id, name and description and the oracle's verdict for its id |
| Batch.BatchNoticesAt | src/pages/Vulnerabilities.tsx:109-112 | the per-test toasts of a batch are one per test, in list order, each the toast of that test's verdict |
| Batch.BatchTraceShape | src/pages/Vulnerabilities.tsx:106-115 | a batch over n tests emits n + 2 toasts: the info start notice, then one per test in order on the channel its verdict decides with its message, then the success completion notice |
| Batch.InitialBatchScenario | src/pages/Vulnerabilities.tsx:106-115 | with the initial five tests and an oracle failing only the second, the statuses come out success, failed, success, success, success and the seven toasts are info, success, error, success, success, success, success |
| Runner.VulnerabilitiesPage.constructor | src/pages/Vulnerabilities.tsx:24-56 | the page starts at rest (distinct ids, results consistent, nothing running) with the initial registry, no active scan and no toasts |
| Runner.VulnerabilitiesPage.BeginRun | src/pages/Vulnerabilities.tsx:69-75 | the list becomes the marked-running list, the active scan becomes the target, at most one test is running, and no toast is emitted |
| Runner.VulnerabilitiesPage.CompleteRun | src/pages/Vulnerabilities.tsx:84-102 | the list becomes the list with the verdict recorded, exactly the verdict's toast is appended, the active scan is cleared and no test is running |
| Runner.VulnerabilitiesPage.RunSecurityTest | src/pages/Vulnerabilities.tsx:67-103 | a run from rest ends at rest (so the target, if present, is settled with result and details), with the list equal to the oracle's verdict recorded for the id and exactly one toast appended |
| Runner.VulnerabilitiesPage.RunAllTests | src/pages/Vulnerabilities.tsx:106-115 | the batch ends at rest, with the list equal to running every id of the list in order and the toasts extended by the start notice, the per-test toasts in order and the completion notice |

## Left out

- The delays (the 300 ms fade-in timer and the 2.5 s wait before the oracle) and React's scheduling of state updates are not modelled. The wait is the step between `BeginRun` and `CompleteRun`, and each state update applies at once.
- Rendering is not modelled: the page's markup, the toast library's display, the list of known vulnerabilities and the fade transitions.
- Two runs interleaving is not modelled. Only the disabled buttons prevent it. The methods require the page to be at rest (`Valid()`, which includes no active scan), as the enabled buttons do.
- The probabilities of the simulated oracle's random comparisons (0.3, 0.4, 0.2, 0.1 and 0.5) are not modelled. Each comparison is an arbitrary boolean in `Draws`. The batch takes one oracle function, so within one batch each id gets one verdict.
- The other files of the repository are not part of this model: the landing page, the navigation bar, the login form, the security-feature list and the router. They hold only layout, navigation, login glue and static lists.
