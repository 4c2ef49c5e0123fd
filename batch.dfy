/** What running every test in turn does: the registry after each test has
    been run to completion in list order, and the toast trace of the batch. */
module Batch {
  import opened Registry
  import opened Updates

  /** The notice emitted before the first test of a batch. */
  const StartNotice: Toast := Toast(InfoToast, "Starting comprehensive security scan...")

  /** The notice emitted after the last test of a batch. */
  const DoneNotice: Toast := Toast(SuccessToast, "Comprehensive security scan completed")

  /** The registry after running the tests `ids` one after another, each to
      completion before the next starts, each verdict drawn from `oracle`. */
  function RunSequence(tests: seq<SecurityTest>, ids: seq<string>, oracle: string -> Verdict): (r: seq<SecurityTest>)
    ensures |r| == |tests|
    decreases |ids|
  {
    if ids == [] then tests
    else
      var last := ids[|ids| - 1];
      RecordVerdict(RunSequence(tests, ids[..|ids| - 1], oracle), last, oracle(last))
  }

  /** The per-test notices of running `ids` in order: one per id (which
      notice each is, is `BatchNoticesAt`). */
  function BatchNotices(ids: seq<string>, oracle: string -> Verdict): (r: seq<Toast>)
    ensures |r| == |ids|
    decreases |ids|
  {
    if ids == [] then []
    else BatchNotices(ids[..|ids| - 1], oracle) + [Notice(oracle(ids[|ids| - 1]))]
  }

  /** The whole toast trace of a batch over `ids`: the start notice first,
      the completion notice last, and one per-test notice per id between
      them. */
  function BatchTrace(ids: seq<string>, oracle: string -> Verdict): (t: seq<Toast>)
    ensures |t| == |ids| + 2
    ensures t[0] == Toast(InfoToast, "Starting comprehensive security scan...")
    ensures t[|ids| + 1] == Toast(SuccessToast, "Comprehensive security scan completed")
  {
    [StartNotice] + BatchNotices(ids, oracle) + [DoneNotice]
  }

  /** Running a sequence of ids keeps the ids of the list, hence its length
      and order. */
  lemma {:induction false} RunSequenceKeepsIds(tests: seq<SecurityTest>, ids: seq<string>, oracle: string -> Verdict)
    ensures Ids(RunSequence(tests, ids, oracle)) == Ids(tests)
    decreases |ids|
  {
    if ids != [] {
      var last := ids[|ids| - 1];
      RunSequenceKeepsIds(tests, ids[..|ids| - 1], oracle);
      UpdatesPreserveIds(RunSequence(tests, ids[..|ids| - 1], oracle), last, oracle(last));
    }
  }

  /** After running `ids`, a test whose id was among them carries the
      oracle's verdict for its id, whatever happened before and however often
      its id occurs; every other test is untouched. */
  lemma {:induction false} RunSequenceAt(tests: seq<SecurityTest>, ids: seq<string>, oracle: string -> Verdict, i: nat)
    requires i < |tests|
    ensures var r := RunSequence(tests, ids, oracle);
      && (tests[i].id in ids ==> Settled(tests[i], r[i], oracle(tests[i].id)))
      && (tests[i].id !in ids ==> r[i] == tests[i])
    decreases |ids|
  {
    if ids != [] {
      var prefix := ids[..|ids| - 1];
      assert ids == prefix + [ids[|ids| - 1]];
      RunSequenceAt(tests, prefix, oracle, i);
    }
  }

  /** Running every test of the registry in list order leaves each test with
      the oracle's verdict for its id, keeps every id, name and description in
      place, and leaves no test running. */
  lemma RunAllSettlesEveryTest(tests: seq<SecurityTest>, oracle: string -> Verdict)
    ensures var r := RunSequence(tests, Ids(tests), oracle);
      && Ids(r) == Ids(tests)
      && Quiescent(r)
      && forall i :: 0 <= i < |tests| ==> Settled(tests[i], r[i], oracle(tests[i].id))
  {
    var r := RunSequence(tests, Ids(tests), oracle);
    RunSequenceKeepsIds(tests, Ids(tests), oracle);
    forall i | 0 <= i < |tests|
      ensures Settled(tests[i], r[i], oracle(tests[i].id)) && r[i].status != Running
    {
      assert Ids(tests)[i] == tests[i].id;
      RunSequenceAt(tests, Ids(tests), oracle, i);
    }
  }

  /** The per-test notices are one per id, in the order of the ids, each the
      notice of the oracle's verdict for that id. */
  lemma {:induction false} BatchNoticesAt(ids: seq<string>, oracle: string -> Verdict)
    ensures |BatchNotices(ids, oracle)| == |ids|
    ensures forall k :: 0 <= k < |ids| ==> BatchNotices(ids, oracle)[k] == Notice(oracle(ids[k]))
    decreases |ids|
  {
    if ids != [] {
      BatchNoticesAt(ids[..|ids| - 1], oracle);
    }
  }

  /** A batch over n tests emits n + 2 toasts: the start notice, then one
      notice per test in order on the channel its verdict decides, then the
      completion notice. */
  lemma BatchTraceShape(ids: seq<string>, oracle: string -> Verdict)
    ensures var trace := BatchTrace(ids, oracle);
      && |trace| == |ids| + 2
      && trace[0] == Toast(InfoToast, "Starting comprehensive security scan...")
      && trace[|ids| + 1] == Toast(SuccessToast, "Comprehensive security scan completed")
      && forall k :: 0 <= k < |ids| ==>
        && trace[k + 1].message == oracle(ids[k]).message
        && (trace[k + 1].kind == SuccessToast <==> oracle(ids[k]).success)
        && (trace[k + 1].kind == ErrorToast <==> !oracle(ids[k]).success)
  {
    BatchNoticesAt(ids, oracle);
    var trace := BatchTrace(ids, oracle);
    forall k | 0 <= k < |ids|
      ensures trace[k + 1] == Notice(oracle(ids[k]))
    {
      assert trace[k + 1] == BatchNotices(ids, oracle)[k];
    }
  }

  /** The statuses of a list of tests, in list order. */
  function Statuses(tests: seq<SecurityTest>): seq<TestStatus> {
    seq(|tests|, i requires 0 <= i < |tests| => tests[i].status)
  }

  /** An oracle under which only the cross-site scripting test fails. */
  function OnlyXssFails(testId: string): Verdict {
    Verdict(testId != "xss", "verdict for " + testId, [])
  }

  /** Running all five registered tests under an oracle that fails only the
      second one gives the statuses in registry order, and seven toasts whose
      channels follow the same order between the start and completion
      notices. */
  lemma InitialBatchScenario()
    ensures var r := RunSequence(InitialTests(), Ids(InitialTests()), OnlyXssFails);
      Statuses(r) == [Success, Failed, Success, Success, Success]
    ensures var trace := BatchTrace(Ids(InitialTests()), OnlyXssFails);
      && |trace| == 7
      && trace[0].kind == InfoToast
      && trace[1].kind == SuccessToast && trace[2].kind == ErrorToast
      && trace[3].kind == SuccessToast && trace[4].kind == SuccessToast
      && trace[5].kind == SuccessToast && trace[6].kind == SuccessToast
  {
    var tests := InitialTests();
    var r := RunSequence(tests, Ids(tests), OnlyXssFails);
    RunAllSettlesEveryTest(tests, OnlyXssFails);
    BatchTraceShape(Ids(tests), OnlyXssFails);
    assert Statuses(r) == [r[0].status, r[1].status, r[2].status, r[3].status, r[4].status];
  }
}
