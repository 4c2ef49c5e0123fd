/** The vulnerability-testing page's state and the two operations that drive
    it: running one security test and running all of them in turn. The
    oracle is a parameter; the delay the page waits before asking it is the
    step between `BeginRun` and `CompleteRun`. */
module Runner {
  import opened Registry
  import opened Updates
  import opened Batch

  class VulnerabilitiesPage {
    /** The registry as the page currently shows it. */
    var securityTests: seq<SecurityTest>
    /** The id of the test being run, if any. */
    var activeScanId: Option<string>
    /** Every toast emitted so far, oldest first. */
    var toasts: seq<Toast>

    /** The page at rest: ids are distinct, every settled test has a result
        and details and every idle test has neither, no test is running and
        no scan is active. The page's buttons are enabled only in this state. */
    ghost predicate Valid()
      reads this
    {
      && DistinctIds(securityTests)
      && ResultsConsistent(securityTests)
      && Quiescent(securityTests)
      && activeScanId == None
    }

    /** The page halfway through a run of `testId`: the scan is active for
        it, only tests with that id are running, at most one test is, and
        results and details are as consistent as at rest. */
    ghost predicate Scanning(testId: string)
      reads this
    {
      && DistinctIds(securityTests)
      && ResultsConsistent(securityTests)
      && activeScanId == Some(testId)
      && RunningOnly(securityTests, testId)
      && AtMostOneRunning(securityTests)
    }

    /** The page as first shown: the five registered tests, all idle, no
        active scan and no toasts. */
    constructor ()
      ensures Valid()
      ensures securityTests == InitialTests()
      ensures activeScanId == None && toasts == []
    {
      securityTests := InitialTests();
      InitialResultsConsistent();
      activeScanId := None;
      toasts := [];
    }

    /** The part of a run before the oracle is awaited: mark the test
        running, then record it as the active scan. */
    method BeginRun(testId: string)
      requires Valid()
      modifies this
      ensures Scanning(testId)
      ensures securityTests == MarkRunning(old(securityTests), testId)
      ensures toasts == old(toasts)
    {
      MarkRunningSingleFlight(securityTests, testId);
      MarkRunningKeepsResultsConsistent(securityTests, testId);
      securityTests := MarkRunning(securityTests, testId);
      activeScanId := Some(testId);
    }

    /** The part of a run after the oracle answered: record the verdict,
        emit its one toast, clear the active scan. */
    method CompleteRun(testId: string, verdict: Verdict)
      requires Scanning(testId)
      modifies this
      ensures Valid()
      ensures securityTests == RecordVerdict(old(securityTests), testId, verdict)
      ensures toasts == old(toasts) + [Notice(verdict)]
    {
      RecordVerdictSettles(securityTests, testId, verdict);
      RecordVerdictKeepsResultsConsistent(securityTests, testId, verdict);
      securityTests := RecordVerdict(securityTests, testId, verdict);
      toasts := toasts + [Notice(verdict)];
      activeScanId := None;
    }

    /** Run one test: mark it running, ask the oracle, record the verdict
        and emit one toast. Afterwards no scan is active, every test with the
        id carries the verdict, every other test is as before (so an unknown
        id changes no test), and exactly one toast was added. */
    method RunSecurityTest(testId: string, oracle: string -> Verdict)
      requires Valid()
      modifies this
      ensures Valid()
      ensures securityTests == RecordVerdict(old(securityTests), testId, oracle(testId))
      ensures toasts == old(toasts) + [Notice(oracle(testId))]
    {
      ghost var before := securityTests;
      BeginRun(testId);
      var verdict := oracle(testId);
      CompleteRun(testId, verdict);
      RecordOverridesMark(before, testId, verdict);
    }

    /** Run every test of the registry, in registry order, each to
        completion before the next, between a start notice and a completion
        notice. */
    method RunAllTests(oracle: string -> Verdict)
      requires Valid()
      modifies this
      ensures Valid()
      ensures securityTests == RunSequence(old(securityTests), Ids(old(securityTests)), oracle)
      ensures toasts == old(toasts) + BatchTrace(Ids(old(securityTests)), oracle)
    {
      toasts := toasts + [StartNotice];
      var ids := Ids(securityTests);
      for k := 0 to |ids|
        invariant Valid()
        invariant securityTests == RunSequence(old(securityTests), ids[..k], oracle)
        invariant toasts == old(toasts) + [StartNotice] + BatchNotices(ids[..k], oracle)
      {
        assert ids[..k + 1][..k] == ids[..k];
        RunSecurityTest(ids[k], oracle);
      }
      assert ids[..|ids|] == ids;
      toasts := toasts + [DoneNotice];
    }
  }
}
