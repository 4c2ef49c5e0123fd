/** The two state updates one run of a security test makes to the registry,
    each an element-wise map over the list that touches only the tests whose
    id matches, and the notification the run emits. */
module Updates {
  import opened Registry

  /** The status a verdict settles a test to. */
  function Outcome(v: Verdict): (s: TestStatus)
    ensures s == Success <==> v.success
    ensures s == Failed <==> !v.success
  {
    if v.success then Success else Failed
  }

  /** The first update of a run: every test whose id is `testId` becomes
      running; its id, name, description and any earlier result and details
      stay as they were, and every other test is left alone. */
  function MarkRunning(tests: seq<SecurityTest>, testId: string): (r: seq<SecurityTest>)
    ensures |r| == |tests|
    ensures forall i :: 0 <= i < |tests| && tests[i].id == testId ==>
      && r[i].status == Running
      && r[i].id == tests[i].id && r[i].name == tests[i].name
      && r[i].description == tests[i].description
      && r[i].result == tests[i].result && r[i].details == tests[i].details
    ensures forall i :: 0 <= i < |tests| && tests[i].id != testId ==> r[i] == tests[i]
  {
    if tests == [] then []
    else
      var head := if tests[0].id == testId then tests[0].(status := Running) else tests[0];
      [head] + MarkRunning(tests[1..], testId)
  }

  /** `after` is `before` settled by verdict `v`: same id, name and
      description; status success exactly when the verdict succeeded and
      failed otherwise; result the verdict's message and details its detail
      lines. */
  ghost predicate Settled(before: SecurityTest, after: SecurityTest, v: Verdict) {
    && after.id == before.id && after.name == before.name
    && after.description == before.description
    && (after.status == Success <==> v.success)
    && (after.status == Failed <==> !v.success)
    && after.result == Some(v.message) && after.details == Some(v.details)
  }

  /** The second update of a run: every test whose id is `testId` takes the
      verdict, its status success exactly when the verdict succeeded and
      failed otherwise, its result the verdict's message and its details the
      verdict's detail lines; its id, name and description stay, and every
      other test is left alone. */
  function RecordVerdict(tests: seq<SecurityTest>, testId: string, v: Verdict): (r: seq<SecurityTest>)
    ensures |r| == |tests|
    ensures forall i :: 0 <= i < |tests| && tests[i].id == testId ==> Settled(tests[i], r[i], v)
    ensures forall i :: 0 <= i < |tests| && tests[i].id != testId ==> r[i] == tests[i]
  {
    if tests == [] then []
    else
      var head :=
        if tests[0].id == testId
        then tests[0].(status := Outcome(v), result := Some(v.message), details := Some(v.details))
        else tests[0];
      [head] + RecordVerdict(tests[1..], testId, v)
  }

  /** The one toast a run emits: on the success channel exactly when the
      verdict succeeded, on the error channel otherwise, carrying the
      verdict's message. */
  function Notice(v: Verdict): (t: Toast)
    ensures t.kind == SuccessToast <==> v.success
    ensures t.kind == ErrorToast <==> !v.success
    ensures t.message == v.message
  {
    Toast(if v.success then SuccessToast else ErrorToast, v.message)
  }

  /** No test of the list is running. */
  ghost predicate Quiescent(tests: seq<SecurityTest>) {
    forall i :: 0 <= i < |tests| ==> tests[i].status != Running
  }

  /** Only tests with id `testId` may be running. */
  ghost predicate RunningOnly(tests: seq<SecurityTest>, testId: string) {
    forall i :: 0 <= i < |tests| && tests[i].status == Running ==> tests[i].id == testId
  }

  /** At most one test of the list is running. */
  ghost predicate AtMostOneRunning(tests: seq<SecurityTest>) {
    forall i, j ::
      0 <= i < |tests| && 0 <= j < |tests| && tests[i].status == Running && tests[j].status == Running
      ==> i == j
  }

  /** Every settled test (success or failed) has both a result and details,
      and every idle test has neither. */
  ghost predicate ResultsConsistent(tests: seq<SecurityTest>) {
    forall i :: 0 <= i < |tests| ==>
      && (tests[i].status == Success || tests[i].status == Failed ==>
            tests[i].result.Some? && tests[i].details.Some?)
      && (tests[i].status == Idle ==> tests[i].result == None && tests[i].details == None)
  }

  /** The registry the page starts with is consistent. */
  lemma InitialResultsConsistent()
    ensures ResultsConsistent(InitialTests())
  {
  }

  /** Marking a test running keeps the list consistent and sends no test
      back to idle. */
  lemma MarkRunningKeepsResultsConsistent(tests: seq<SecurityTest>, testId: string)
    requires ResultsConsistent(tests)
    ensures ResultsConsistent(MarkRunning(tests, testId))
    ensures forall i :: 0 <= i < |tests| && tests[i].status != Idle ==>
      MarkRunning(tests, testId)[i].status != Idle
  {
  }

  /** Recording a verdict keeps the list consistent and sends no test back
      to idle. */
  lemma RecordVerdictKeepsResultsConsistent(tests: seq<SecurityTest>, testId: string, v: Verdict)
    requires ResultsConsistent(tests)
    ensures ResultsConsistent(RecordVerdict(tests, testId, v))
    ensures forall i :: 0 <= i < |tests| && tests[i].status != Idle ==>
      RecordVerdict(tests, testId, v)[i].status != Idle
  {
  }

  /** Both updates keep the list's ids, and so its length and order. */
  lemma UpdatesPreserveIds(tests: seq<SecurityTest>, testId: string, v: Verdict)
    ensures Ids(MarkRunning(tests, testId)) == Ids(tests)
    ensures Ids(RecordVerdict(tests, testId, v)) == Ids(tests)
  {
    var m, d := MarkRunning(tests, testId), RecordVerdict(tests, testId, v);
    assert forall i :: 0 <= i < |tests| ==> Ids(m)[i] == Ids(tests)[i];
    assert forall i :: 0 <= i < |tests| ==> Ids(d)[i] == Ids(tests)[i];
  }

  /** An id that is not in the list changes no test. */
  lemma UnknownIdChangesNothing(tests: seq<SecurityTest>, testId: string, v: Verdict)
    requires testId !in Ids(tests)
    ensures MarkRunning(tests, testId) == tests
    ensures RecordVerdict(tests, testId, v) == tests
  {
    assert forall i :: 0 <= i < |tests| ==> tests[i].id == Ids(tests)[i];
  }

  /** Recording a verdict overwrites everything marking the test running
      changed: the run as a whole amounts to recording the verdict alone. */
  lemma RecordOverridesMark(tests: seq<SecurityTest>, testId: string, v: Verdict)
    ensures RecordVerdict(MarkRunning(tests, testId), testId, v) == RecordVerdict(tests, testId, v)
  {
    var m := MarkRunning(tests, testId);
    var a, b := RecordVerdict(m, testId, v), RecordVerdict(tests, testId, v);
    forall i | 0 <= i < |tests| ensures a[i] == b[i] {
      if tests[i].id == testId {
        assert a[i].status == b[i].status;
      }
    }
  }

  /** Single flight: starting a run from a registry where nothing runs and
      ids are distinct leaves exactly the target running, and at most one
      test running. */
  lemma MarkRunningSingleFlight(tests: seq<SecurityTest>, testId: string)
    requires Quiescent(tests) && DistinctIds(tests)
    ensures RunningOnly(MarkRunning(tests, testId), testId)
    ensures AtMostOneRunning(MarkRunning(tests, testId))
    ensures DistinctIds(MarkRunning(tests, testId))
  {
    var m := MarkRunning(tests, testId);
    forall i, j | 0 <= i < |m| && 0 <= j < |m| && m[i].status == Running && m[j].status == Running
      ensures i == j
    {
      assert tests[i].id == testId && tests[j].id == testId;
    }
  }

  /** Completing a run settles the target: once only the target was running,
      no test is running afterwards, and ids stay distinct. */
  lemma RecordVerdictSettles(tests: seq<SecurityTest>, testId: string, v: Verdict)
    requires RunningOnly(tests, testId)
    ensures Quiescent(RecordVerdict(tests, testId, v))
    ensures DistinctIds(tests) ==> DistinctIds(RecordVerdict(tests, testId, v))
  {
  }
}
