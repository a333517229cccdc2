/**
  The judging routes of `routes.py`: the live-contest gate, `submit_solution`
  (grade every test case, count the passes, derive the verdict and the score)
  and `run_code` (trial runs on custom input or on the sample cases).

  Both routes splice the user's code into a per-title test driver before running
  it; that splicing is opaque here, except that it may raise (a malformed test
  input), which is a `CaseRun` of its own. What the sandbox then did is an
  `Attempt`, as in `CodeExecutor`.
*/
module Judge {

  import opened Wrappers
  import opened Text
  import opened CodeExecutor
  import opened ContestModels

  /** Neither route passes a time limit, so `execute_code`'s default of 5 seconds applies
      whatever the problem's own `time_limit` says. */
  const RouteTimeLimit: int := 5

  /** The text of the `KeyError` raised by `result['success']` on a result without that key. */
  const MissingSuccessKey: string := "'success'"

  /** One pass of the loop body for one test case, before the verdict is read. */
  datatype CaseRun = TemplateRaised(message: string) | Ran(attempt: Attempt)

  // ---------------------------------------------------------------------------
  // Gates

  /** Access to `contest_participate`: only while live; otherwise the reason. */
  datatype Access = Allowed | NotYetStarted | Ended

  function ParticipateAccess(c: Contest, now: int): (a: Access)
    ensures a == Allowed <==> IsLive(c, now)
    ensures a == NotYetStarted <==> !IsLive(c, now) && IsUpcoming(c, now)
  {
    if IsLive(c, now) then Allowed
    else if IsUpcoming(c, now) then NotYetStarted
    else Ended
  }

  /** The gate `run_code` and `submit_solution` share: a closed contest, then blank code,
      are rejected before anything is executed or stored. */
  function SubmissionGate(c: Contest, now: int, code: string): (r: Option<string>)
    ensures r.None? <==> IsLive(c, now) && Strip(code) != ""
    ensures !IsLive(c, now) ==> r == Some("Contest is not currently active")
  {
    if !IsLive(c, now) then Some("Contest is not currently active")
    else if Strip(code) == "" then Some("Code cannot be empty")
    else None
  }

  // ---------------------------------------------------------------------------
  // submit_solution

  /** The result row `submit_solution` stores for one test case. A result without a
      'success' key (every compiled-language result but spawn failures) raises on
      `result['success']`, and the loop's handler stores an 'error' row instead. */
  function ResultRow(submissionId: nat, tc: ContestTestCase, language: string, run: CaseRun): (row: ContestTestResult)
    ensures row.submissionId == submissionId && row.testCaseId == tc.id
    ensures row.status == ResultPassed <==>
              run.Ran? && ExecuteCode(language, RouteTimeLimit, run.attempt).success == Some(true)
              && Strip(ExecuteCode(language, RouteTimeLimit, run.attempt).output) == Strip(tc.expectedOutput)
    ensures row.status == ResultError ==> row.actualOutput.None? && row.errorMessage.Some?
    ensures row.status != ResultError ==> row.errorMessage.None? && row.actualOutput.Some?
  {
    match run
    case TemplateRaised(message) =>
      ContestTestResult(submissionId, tc.id, ResultError, None, Some(message), 0.0)
    case Ran(attempt) =>
      var res := ExecuteCode(language, RouteTimeLimit, attempt);
      match res.success
      case None => ContestTestResult(submissionId, tc.id, ResultError, None, Some(MissingSuccessKey), 0.0)
      case Some(ok) =>
        if ok then
          var actual := Strip(res.output);
          if actual == Strip(tc.expectedOutput) then
            ContestTestResult(submissionId, tc.id, ResultPassed, Some(actual), None, res.executionTime)
          else
            ContestTestResult(submissionId, tc.id, ResultFailed, Some(actual), None, res.executionTime)
        else ContestTestResult(submissionId, tc.id, ResultError, None, Some(res.error), 0.0)
  }

  /** The number of 'passed' rows. */
  function CountPassed(rows: seq<ContestTestResult>): (n: nat)
    ensures n <= |rows|
  {
    if rows == [] then 0
    else CountPassed(rows[..|rows| - 1]) + (if rows[|rows| - 1].status == ResultPassed then 1 else 0)
  }

  /** Python's `int(x)` of a quotient: truncation toward zero. */
  function TruncDiv(a: int, b: int): int
    requires b > 0
  {
    if a >= 0 then a / b else -((-a) / b)
  }

  datatype Verdict = Verdict(status: SubmissionStatus, score: int)

  /** The verdict of `submit_solution`: all passed (including a problem with no test cases)
      is accepted with full points; some passed is partial with the passed fraction of the
      points, truncated; none passed is a wrong answer worth nothing. */
  function ScoreVerdict(passed: nat, total: nat, points: int): (v: Verdict)
    requires passed <= total
    ensures v.status == Accepted <==> passed == total
    ensures v.status == Partial <==> 0 < passed < total
    ensures v.status == WrongAnswer <==> passed == 0 < total
  {
    if passed == total then Verdict(Accepted, points)
    else if passed > 0 then Verdict(Partial, TruncDiv(passed * points, total))
    else Verdict(WrongAnswer, 0)
  }

  /** For a problem worth `points > 0`, the score lies between 0 and the points, reaches
      the points exactly when accepted, and is 0 exactly when nothing passed. */
  lemma ScoreBounds(passed: nat, total: nat, points: int)
    requires passed <= total && points > 0
    ensures var v := ScoreVerdict(passed, total, points);
            && 0 <= v.score <= points
            && (v.score == points <==> v.status == Accepted)
            && (v.status == Partial ==> v.score < points)
            && (v.status == WrongAnswer ==> v.score == 0)
  {
    if 0 < passed < total {
      var a := passed * points;
      MulLess(passed, total, points);
      MulLe(0, passed, points);
      DivBelow(a, total, points);
      assert ScoreVerdict(passed, total, points).score == a / total;
    }
  }

  lemma MulLess(x: int, y: int, c: int)
    requires x < y && c > 0
    ensures x * c < y * c
  {
    MulLe(x + 1, y, c);
    assert (x + 1) * c == x * c + c;
  }

  lemma DivBelow(a: int, b: int, c: int)
    requires 0 <= a < b * c && b > 0
    ensures a / b < c
  {
    var q := a / b;
    assert q * b <= a;
    MulCancelLess(q, c, b);
  }

  lemma MulCancelLess(x: int, y: int, d: int)
    requires d > 0 && x * d < y * d
    ensures x < y
  {
    assert (y - x) * d > 0;
  }

  lemma MulLe(x: int, y: int, c: int)
    requires x <= y && c >= 0
    ensures x * c <= y * c
  {
    assert (y - x) * c >= 0;
  }

  lemma DivMonotone(a: int, b: int, d: int)
    requires 0 <= a <= b && d > 0
    ensures a / d <= b / d
  {
    var qa, qb := a / d, b / d;
    assert qa * d <= a;
    assert b < (qb + 1) * d;
    MulCancelLess(qa, qb + 1, d);
  }

  lemma MulDivCancel(c: int, d: int)
    requires d > 0
    ensures (c * d) / d == c
  {
    var q, r := (c * d) / d, (c * d) % d;
    assert q * d + r == c * d && 0 <= r < d;
    assert (c - q) * d == r;
    if c - q >= 1 {
      MulLe(1, c - q, d);
    } else if c - q <= -1 {
      MulLe(c - q, -1, d);
    }
  }

  /** The score never decreases when one more test case passes (points not negative). */
  lemma ScoreMonotone(passed: nat, total: nat, points: int)
    requires passed < total && points >= 0
    ensures ScoreVerdict(passed, total, points).score <= ScoreVerdict(passed + 1, total, points).score
  {
    if passed > 0 {
      MulLe(passed, passed + 1, points);
      DivMonotone(passed * points, (passed + 1) * points, total);
      if passed + 1 == total {
        MulDivCancel(points, total);
      }
    } else if total > 1 {
      assert points >= 0;
    }
  }

  /** 3 of 4 cases of a 100-point problem is partial, 75 points; no test cases at all is
      accepted with full points. */
  lemma ScoreExamples()
    ensures ScoreVerdict(3, 4, 100) == Verdict(Partial, 75)
    ensures ScoreVerdict(0, 0, 100) == Verdict(Accepted, 100)
    ensures ScoreVerdict(0, 4, 100) == Verdict(WrongAnswer, 0)
  {
  }

  datatype SubmitResponse =
    | Rejected(error: string)
    | Graded(status: SubmissionStatus, score: int, passedTests: nat, totalTests: nat, message: string)

  function PassMessage(passed: nat, total: nat): string {
    NatToString(passed) + "/" + NatToString(total) + " test cases passed"
  }

  /** `submit_solution`: `testCases` are the problem's test cases in stored order and
      `runs[i]` is what happened on the i-th. Returns the response, the submission row
      and the result rows written. */
  method SubmitSolution(contest: Contest, problem: ContestProblem, now: int, submissionId: nat, userId: nat,
                        code: string, language: string, testCases: seq<ContestTestCase>, runs: seq<CaseRun>)
    returns (response: SubmitResponse, submission: Option<ContestSubmission>, rows: seq<ContestTestResult>)
    requires |runs| == |testCases|
    ensures SubmissionGate(contest, now, code).Some? ==>
              response == Rejected(SubmissionGate(contest, now, code).value) && submission.None? && rows == []
    ensures SubmissionGate(contest, now, code).None? ==>
              && |rows| == |testCases|
              && (forall i :: 0 <= i < |rows| ==> rows[i] == ResultRow(submissionId, testCases[i], language, runs[i]))
              && var v := ScoreVerdict(CountPassed(rows), |testCases|, problem.points);
                 && response == Graded(v.status, v.score, CountPassed(rows), |testCases|, PassMessage(CountPassed(rows), |testCases|))
                 && submission == Some(NewSubmission(submissionId, contest.id, problem.id, userId, code, language)
                                         .(status := v.status, score := v.score))
  {
    var gate := SubmissionGate(contest, now, code);
    if gate.Some? {
      return Rejected(gate.value), None, [];
    }
    var sub := NewSubmission(submissionId, contest.id, problem.id, userId, code, language);
    var passedTests;
    rows, passedTests := GradeCases(submissionId, testCases, language, runs);
    var totalTests := |testCases|;
    var v := ScoreVerdict(passedTests, totalTests, problem.points);
    sub := sub.(status := v.status, score := v.score);
    response := Graded(v.status, v.score, passedTests, totalTests, PassMessage(passedTests, totalTests));
    submission := Some(sub);
  }

  /** The loop of `submit_solution`: one result row per test case, in order, and the number
      of passes among them. */
  method GradeCases(submissionId: nat, testCases: seq<ContestTestCase>, language: string, runs: seq<CaseRun>)
    returns (rows: seq<ContestTestResult>, passedTests: nat)
    requires |runs| == |testCases|
    ensures |rows| == |testCases|
    ensures forall k :: 0 <= k < |rows| ==> rows[k] == ResultRow(submissionId, testCases[k], language, runs[k])
    ensures passedTests == CountPassed(rows)
  {
    passedTests := 0;
    rows := [];
    var i := 0;
    while i < |testCases|
      invariant 0 <= i <= |testCases|
      invariant |rows| == i
      invariant forall k :: 0 <= k < i ==> rows[k] == ResultRow(submissionId, testCases[k], language, runs[k])
      invariant passedTests == CountPassed(rows)
    {
      var row := ResultRow(submissionId, testCases[i], language, runs[i]);
      if row.status == ResultPassed {
        passedTests := passedTests + 1;
      }
      GradeStep(submissionId, testCases, language, runs, rows, row);
      rows := rows + [row];
      i := i + 1;
    }
  }

  /** One more graded case extends the rows and the pass count as the loop body does. */
  lemma GradeStep(submissionId: nat, testCases: seq<ContestTestCase>, language: string, runs: seq<CaseRun>,
                  rows: seq<ContestTestResult>, row: ContestTestResult)
    requires |runs| == |testCases| && |rows| < |testCases|
    requires forall k :: 0 <= k < |rows| ==> rows[k] == ResultRow(submissionId, testCases[k], language, runs[k])
    requires row == ResultRow(submissionId, testCases[|rows|], language, runs[|rows|])
    ensures forall k :: 0 <= k < |rows| + 1 ==> (rows + [row])[k] == ResultRow(submissionId, testCases[k], language, runs[k])
    ensures CountPassed(rows + [row]) == CountPassed(rows) + (if row.status == ResultPassed then 1 else 0)
  {
    assert (rows + [row])[..|rows + [row]| - 1] == rows;
  }

  lemma {:induction false} CountPassedNone(rows: seq<ContestTestResult>)
    requires forall i :: 0 <= i < |rows| ==> rows[i].status != ResultPassed
    ensures CountPassed(rows) == 0
  {
    if rows != [] {
      CountPassedNone(rows[..|rows| - 1]);
    }
  }

  /** Java, C++ and C results carry no 'success' key, so in `submit_solution` every one of
      their test cases that reaches the sandbox is stored as an 'error' row, and a
      submission in those languages is never accepted unless the problem has no test case
      or every case raised before running. */
  lemma CompiledLanguageRowsAreErrors(submissionId: nat, tc: ContestTestCase, language: string, attempt: Attempt)
    requires ParseLanguage(language).Some? && ParseLanguage(language).value != Python
    ensures ResultRow(submissionId, tc, language, Ran(attempt)).status == ResultError
  {
    SuccessKeyPresence(language, RouteTimeLimit, attempt);
  }

  /** Consequently a compiled-language submission with at least one test case scores 0. */
  lemma CompiledSubmissionScoresZero(submissionId: nat, testCases: seq<ContestTestCase>, language: string,
                                     runs: seq<CaseRun>, rows: seq<ContestTestResult>, points: int)
    requires ParseLanguage(language).Some? && ParseLanguage(language).value != Python
    requires |runs| == |testCases| == |rows| > 0
    requires forall i :: 0 <= i < |rows| ==> rows[i] == ResultRow(submissionId, testCases[i], language, runs[i])
    ensures ScoreVerdict(CountPassed(rows), |testCases|, points) == Verdict(WrongAnswer, 0)
  {
    forall i | 0 <= i < |rows| ensures rows[i].status != ResultPassed {
      if runs[i].Ran? {
        CompiledLanguageRowsAreErrors(submissionId, testCases[i], language, runs[i].attempt);
      }
    }
    CountPassedNone(rows);
  }

  // ---------------------------------------------------------------------------
  // run_code

  /** One entry of `run_code`'s `test_results`. */
  datatype SampleRow = SampleRow(
    testNumber: nat,
    input: string,
    expected: string,
    actual: string,
    passed: bool,
    executionTime: real,
    error: Option<string>)

  datatype RunResponse =
    | RunRejected(error: string)
    | CustomRun(success: bool, output: string, error: string, executionTime: real)
    | SampleRun(testResults: seq<SampleRow>, allPassed: bool, totalTests: nat, passedTests: nat)

  /** The sample cases among a problem's test cases, in stored order. */
  function Samples(testCases: seq<ContestTestCase>): (r: seq<ContestTestCase>)
    ensures |r| <= |testCases|
    ensures forall t :: t in r <==> t in testCases && t.isSample
  {
    if testCases == [] then []
    else (if testCases[0].isSample then [testCases[0]] else []) + Samples(testCases[1..])
  }

  /** A sample case whose run neither raised nor produced a result without 'success'. */
  predicate RunsCleanly(language: string, run: CaseRun) {
    run.Ran? && ExecuteCode(language, RouteTimeLimit, run.attempt).success.Some?
  }

  /** The message of the exception that aborts the whole trial run. */
  function AbortMessage(language: string, run: CaseRun): string
    requires !RunsCleanly(language, run)
  {
    match run
    case TemplateRaised(message) => message
    case Ran(_) => MissingSuccessKey
  }

  /** The first sample whose run raises, if any. */
  function FirstAbort(language: string, runs: seq<CaseRun>): (k: Option<nat>)
    ensures k.None? <==> forall i :: 0 <= i < |runs| ==> RunsCleanly(language, runs[i])
    ensures k.Some? ==> k.value < |runs| && !RunsCleanly(language, runs[k.value])
                        && forall i :: 0 <= i < k.value ==> RunsCleanly(language, runs[i])
  {
    if runs == [] then None
    else if !RunsCleanly(language, runs[0]) then Some(0)
    else match FirstAbort(language, runs[1..])
      case None => None
      case Some(j) => Some(j + 1)
  }

  lemma FirstAbortAt(language: string, runs: seq<CaseRun>, i: nat)
    requires i < |runs| && !RunsCleanly(language, runs[i])
    requires forall k :: 0 <= k < i ==> RunsCleanly(language, runs[k])
    ensures FirstAbort(language, runs) == Some(i)
  {
  }

  /** The entry for the `index`-th sample (counted from 0). */
  function SampleRowOf(index: nat, tc: ContestTestCase, language: string, run: CaseRun): (row: SampleRow)
    requires RunsCleanly(language, run)
    ensures row.testNumber == index + 1 && row.input == tc.inputData
    ensures row.passed <==>
              ExecuteCode(language, RouteTimeLimit, run.attempt).success == Some(true)
              && Strip(ExecuteCode(language, RouteTimeLimit, run.attempt).output) == Strip(tc.expectedOutput)
    ensures !row.passed <==> row.actual != row.expected || row.error.Some?
  {
    var res := ExecuteCode(language, RouteTimeLimit, run.attempt);
    if res.success.value then
      var actual := Strip(res.output);
      var expected := Strip(tc.expectedOutput);
      SampleRow(index + 1, tc.inputData, expected, actual, actual == expected, res.executionTime, None)
    else
      SampleRow(index + 1, tc.inputData, tc.expectedOutput, "", false, 0.0, Some(res.error))
  }

  function CountSamplePasses(rows: seq<SampleRow>): (n: nat)
    ensures n <= |rows|
    ensures n == |rows| <==> forall i :: 0 <= i < |rows| ==> rows[i].passed
  {
    if rows == [] then 0
    else CountSamplePasses(rows[..|rows| - 1]) + (if rows[|rows| - 1].passed then 1 else 0)
  }

  /** The sample loop of `run_code`: an exception on any sample aborts the whole trial with
      its message; otherwise one entry per sample, with the tallies of the response. */
  method RunSamples(language: string, samples: seq<ContestTestCase>, runs: seq<CaseRun>)
    returns (response: RunResponse)
    requires |runs| == |samples|
    ensures FirstAbort(language, runs).Some? ==>
              response == RunRejected(AbortMessage(language, runs[FirstAbort(language, runs).value]))
    ensures FirstAbort(language, runs).None? ==>
              && response.SampleRun?
              && |response.testResults| == response.totalTests == |samples|
              && (forall i :: 0 <= i < |samples| ==>
                    response.testResults[i] == SampleRowOf(i, samples[i], language, runs[i]))
              && response.passedTests == CountSamplePasses(response.testResults)
              && (response.allPassed <==> response.passedTests == response.totalTests)
  {
    var testResults: seq<SampleRow> := [];
    var allPassed := true;
    var i := 0;
    while i < |samples|
      invariant 0 <= i <= |samples|
      invariant |testResults| == i
      invariant forall k :: 0 <= k < i ==> RunsCleanly(language, runs[k])
      invariant forall k :: 0 <= k < i ==> testResults[k] == SampleRowOf(k, samples[k], language, runs[k])
      invariant allPassed <==> forall k :: 0 <= k < i ==> testResults[k].passed
    {
      if !RunsCleanly(language, runs[i]) {
        FirstAbortAt(language, runs, i);
        return RunRejected(AbortMessage(language, runs[i]));
      }
      var row := SampleRowOf(i, samples[i], language, runs[i]);
      if !row.passed {
        allPassed := false;
      }
      SampleStep(language, samples, runs, testResults, row);
      testResults := testResults + [row];
      i := i + 1;
    }
    response := SampleRun(testResults, allPassed, |testResults|, CountSamplePasses(testResults));
  }

  /** One more clean sample extends the entries as the loop body does. */
  lemma SampleStep(language: string, samples: seq<ContestTestCase>, runs: seq<CaseRun>, testResults: seq<SampleRow>, row: SampleRow)
    requires |runs| == |samples| && |testResults| < |samples|
    requires forall k :: 0 <= k < |testResults| ==> RunsCleanly(language, runs[k])
    requires forall k :: 0 <= k < |testResults| ==> testResults[k] == SampleRowOf(k, samples[k], language, runs[k])
    requires RunsCleanly(language, runs[|testResults|])
    requires row == SampleRowOf(|testResults|, samples[|testResults|], language, runs[|testResults|])
    ensures forall k :: 0 <= k < |testResults| + 1 ==> RunsCleanly(language, runs[k])
    ensures forall k :: 0 <= k < |testResults| + 1 ==>
              (testResults + [row])[k] == SampleRowOf(k, samples[k], language, runs[k])
  {
  }

  /** The response of `run_code` before the sample loop, or `None` when it goes on to run
      the samples. */
  function RunCodeFront(contest: Contest, now: int, code: string, language: string, customInput: string,
                        customRun: Attempt, testCases: seq<ContestTestCase>): (r: Option<RunResponse>)
    ensures SubmissionGate(contest, now, code).Some? ==> r == Some(RunRejected(SubmissionGate(contest, now, code).value))
    ensures r.None? <==> SubmissionGate(contest, now, code).None? && Strip(customInput) == "" && Samples(testCases) != []
    ensures SubmissionGate(contest, now, code).None? && Strip(customInput) != "" ==>
              var res := ExecuteCode(language, RouteTimeLimit, customRun);
              r == Some(if res.success.None? then RunRejected(MissingSuccessKey)
                        else CustomRun(res.success.value, res.output, res.error, res.executionTime))
  {
    var gate := SubmissionGate(contest, now, code);
    if gate.Some? then Some(RunRejected(gate.value))
    else if Strip(customInput) != "" then
      var res := ExecuteCode(language, RouteTimeLimit, customRun);
      if res.success.None? then Some(RunRejected(MissingSuccessKey))
      else Some(CustomRun(res.success.value, res.output, res.error, res.executionTime))
    else if Samples(testCases) == [] then Some(RunRejected("No sample test cases available"))
    else None
  }

  /** `run_code`. With a non-blank custom input the code runs once on it (`customRun`);
      otherwise it runs on each sample case (`runs[i]` for the i-th sample). Nothing is
      stored. */
  method RunCode(contest: Contest, now: int, code: string, language: string, customInput: string,
                 customRun: Attempt, testCases: seq<ContestTestCase>, runs: seq<CaseRun>)
    returns (response: RunResponse)
    requires |runs| == |Samples(testCases)|
    ensures RunCodeFront(contest, now, code, language, customInput, customRun, testCases).Some? ==>
              response == RunCodeFront(contest, now, code, language, customInput, customRun, testCases).value
    ensures RunCodeFront(contest, now, code, language, customInput, customRun, testCases).None? ==>
              && (FirstAbort(language, runs).Some? ==>
                    response == RunRejected(AbortMessage(language, runs[FirstAbort(language, runs).value])))
              && (FirstAbort(language, runs).None? ==>
                    && response.SampleRun?
                    && |response.testResults| == response.totalTests == |runs| > 0
                    && (forall i :: 0 <= i < |runs| ==>
                          response.testResults[i] == SampleRowOf(i, Samples(testCases)[i], language, runs[i]))
                    && response.passedTests == CountSamplePasses(response.testResults)
                    && (response.allPassed <==> response.passedTests == response.totalTests))
  {
    var front := RunCodeFront(contest, now, code, language, customInput, customRun, testCases);
    if front.Some? {
      return front.value;
    }
    response := RunSamples(language, Samples(testCases), runs);
  }
}
