/** The data model of the vulnerability-testing page: the security tests it
    lists, their lifecycle, the verdicts an oracle produces, the toast
    notifications the page emits, the registry the page starts with, and the
    simulated oracle the page ships with. */
module Registry {

  datatype Option<+T> = None | Some(value: T)

  /** Lifecycle of one security test: idle until first run, running while the
      oracle is awaited, then success or failed until it is run again. */
  datatype TestStatus = Idle | Running | Success | Failed

  /** One entry of the registry. `result` and `details` are absent until a
      run completes. */
  datatype SecurityTest = SecurityTest(
    id: string,
    name: string,
    description: string,
    status: TestStatus,
    result: Option<string>,
    details: Option<seq<string>>)

  /** What the oracle answers for one test id. The three fields are not tied
      to each other. */
  datatype Verdict = Verdict(success: bool, message: string, details: seq<string>)

  /** The channel a toast notification is shown on. */
  datatype ToastKind = InfoToast | SuccessToast | ErrorToast

  /** One emitted toast notification. */
  datatype Toast = Toast(kind: ToastKind, message: string)

  /** The ids of a list of tests, in list order. */
  function Ids(tests: seq<SecurityTest>): seq<string> {
    seq(|tests|, i requires 0 <= i < |tests| => tests[i].id)
  }

  /** No two tests of the list share an id. */
  ghost predicate DistinctIds(tests: seq<SecurityTest>) {
    forall i, j :: 0 <= i < j < |tests| ==> tests[i].id != tests[j].id
  }

  /** A test as the page registers it: idle, with no result and no details. */
  function Fresh(id: string, name: string, description: string): SecurityTest {
    SecurityTest(id, name, description, Idle, None, None)
  }

  /** The ids the simulated oracle has a dedicated branch for, which are also
      the ids of the registry, in registry order. */
  const KnownIds: seq<string> :=
    ["sql-injection", "xss", "auth-bypass", "csrf", "security-headers"]

  /** The display names of the registered tests, in registry order. */
  const Names: seq<string> := [
    "SQL Injection Test",
    "Cross-Site Scripting (XSS) Test",
    "Authentication Bypass Test",
    "CSRF Protection Test",
    "Security Headers Test"]

  /** The descriptions of the registered tests, in registry order. */
  const Descriptions: seq<string> := [
    "Tests for SQL injection vulnerabilities in input fields",
    "Tests for XSS vulnerabilities in rendered output",
    "Tests for authentication weaknesses",
    "Verifies CSRF token validation",
    "Checks implementation of security headers"]

  /** The registry the page starts with: five tests, pairwise-distinct ids,
      all idle with neither result nor details. */
  function InitialTests(): (r: seq<SecurityTest>)
    ensures |r| == 5
    ensures Ids(r) == KnownIds
    ensures forall i :: 0 <= i < |r| ==>
      r[i].status == Idle && r[i].result == None && r[i].details == None
    ensures DistinctIds(r)
  {
    seq(5, i requires 0 <= i < 5 => Fresh(KnownIds[i], Names[i], Descriptions[i]))
  }

  /** The outcomes of the three independent random comparisons the simulated
      oracle makes for one call: whether the test passes, whether the
      reassuring message is chosen, and whether the reassuring detail lines
      are chosen. */
  datatype Draws = Draws(passes: bool, reassuringMessage: bool, reassuringDetails: bool)

  /** The cases of the simulated oracle's switch on the test id. */
  datatype OracleBranch = SqlInjection | Xss | AuthBypass | Csrf | SecurityHeaders | Default

  /** Which branch of the simulated oracle a test id reaches: a dedicated one
      exactly for the known ids. */
  function BranchOf(testId: string): (b: OracleBranch)
    ensures b == Default <==> testId !in KnownIds
  {
    if testId == "sql-injection" then SqlInjection
    else if testId == "xss" then Xss
    else if testId == "auth-bypass" then AuthBypass
    else if testId == "csrf" then Csrf
    else if testId == "security-headers" then SecurityHeaders
    else Default
  }

  /** The messages and detail lines one dedicated branch of the simulated
      oracle chooses between. */
  datatype BranchTexts = BranchTexts(
    reassuring: string, alarming: string,
    reassuringDetails: seq<string>, alarmingDetails: seq<string>)

  /** The texts of each dedicated branch. */
  function TextsOf(b: OracleBranch): BranchTexts
    requires b != Default
  {
    match b
    case SqlInjection =>
      BranchTexts("No SQL injection vulnerabilities detected",
        "SQL injection vulnerability detected",
        ["All input parameters are properly sanitized", "Parameterized queries in use"],
        ["Vulnerable endpoint detected: /api/users", "Input sanitization missing on userId parameter"])
    case Xss =>
      BranchTexts("XSS protection measures verified",
        "XSS vulnerability detected in user profile",
        ["Content Security Policy implemented", "Output encoding working correctly"],
        ["Insufficient output encoding on profile description", "CSP not blocking script execution"])
    case AuthBypass =>
      BranchTexts("Authentication mechanisms secure",
        "Potential authentication bypass detected",
        ["JWT validation working correctly", "Rate limiting effective against brute force"],
        ["Token validation weakness detected", "Password reset flow vulnerable to enumeration"])
    case Csrf =>
      BranchTexts("CSRF protection verified",
        "CSRF vulnerability detected",
        ["CSRF tokens implemented on all forms", "SameSite cookie attributes set correctly"],
        ["Missing CSRF token on /api/profile/update", "Cookie missing SameSite attribute"])
    case SecurityHeaders =>
      BranchTexts("Security headers properly configured",
        "Missing critical security headers",
        ["Content-Security-Policy implemented", "X-Content-Type-Options set to nosniff"],
        ["Missing X-Frame-Options header", "Content-Security-Policy not enforcing strict rules"])
  }

  /** The simulated oracle. A known id gets a verdict made of three
      independent draws from that id's branch (see `SimulatedDrawsIndependent`);
      any other id gets the fixed default verdict, whatever the draws. */
  function SimulateTestResults(testId: string, draws: Draws): (r: Verdict)
    ensures testId !in KnownIds ==>
      r.success && r.message == "Test completed" && r.details == ["No specific details available"]
  {
    var b := BranchOf(testId);
    if b == Default then
      Verdict(true, "Test completed", ["No specific details available"])
    else
      var t := TextsOf(b);
      Verdict(draws.passes,
        if draws.reassuringMessage then t.reassuring else t.alarming,
        if draws.reassuringDetails then t.reassuringDetails else t.alarmingDetails)
  }

  /** For a known id, the success flag is the first draw, the message depends
      only on the second draw and the detail lines only on the third, and the
      message and the detail lines are always one of the two that id's branch
      offers. */
  lemma SimulatedDrawsIndependent(testId: string, d: Draws, d': Draws)
    requires testId in KnownIds
    ensures var v, w := SimulateTestResults(testId, d), SimulateTestResults(testId, d');
      var t := TextsOf(BranchOf(testId));
      && v.success == d.passes
      && (d.passes == d'.passes ==> v.success == w.success)
      && (d.reassuringMessage == d'.reassuringMessage ==> v.message == w.message)
      && (d.reassuringDetails == d'.reassuringDetails ==> v.details == w.details)
      && (v.message == t.reassuring || v.message == t.alarming)
      && (v.details == t.reassuringDetails || v.details == t.alarmingDetails)
  {
    assert BranchOf(testId) != Default;
  }

  /** The draws are independent: a passing verdict can carry the alarming
      message and the alarming detail lines of its test. */
  lemma PassingVerdictMayReportVulnerability()
    ensures var v := SimulateTestResults("sql-injection", Draws(true, false, false));
      && v.success
      && v.message == TextsOf(SqlInjection).alarming
      && v.message == "SQL injection vulnerability detected"
      && v.details == TextsOf(SqlInjection).alarmingDetails
  {
  }
}
