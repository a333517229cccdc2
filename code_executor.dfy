/**
  The contest sandbox runner and test harness of `code_executor.py`.

  The operating system is not modelled: what the compiler and the child process
  did (exit code, captured stdout/stderr, elapsed time, timeout, failure to
  spawn) is an input, an `Attempt`. What is modelled is how `execute_code`
  turns that into a result dictionary, and how `run_test_cases` turns each
  result into a passed / failed / error row.
*/
module CodeExecutor {

  import opened Wrappers
  import opened Text

  /** The keys of `supported_languages`. */
  datatype Language = Python | Java | Cpp | C

  function ParseLanguage(name: string): (r: Option<Language>)
    ensures r.Some? <==> name == "python" || name == "java" || name == "cpp" || name == "c"
  {
    if name == "python" then Some(Python)
    else if name == "java" then Some(Java)
    else if name == "cpp" then Some(Cpp)
    else if name == "c" then Some(C)
    else None
  }

  /** The `status` strings of a result dictionary; `Error` is the source's 'error'. */
  datatype ExecStatus = Success | RuntimeError | TimeLimitExceeded | CompilationError | Error

  /** A result dictionary. `success` is `None` when the dictionary has no 'success' key,
      which is the case for every result the compiled-language path builds itself. */
  datatype ExecResult = ExecResult(
    success: Option<bool>,
    status: ExecStatus,
    output: string,
    error: string,
    executionTime: real,
    memoryUsed: int)

  /** What `communicate` observed of the child process. For a compiled language the
      elapsed time is counted from before the compile step. */
  datatype RunOutcome =
    | Exited(returnCode: int, stdout: string, stderr: string, elapsed: real)
    | TimedOut
    | SpawnFailed(message: string, elapsed: real)

  /** What the compile step (`javac`, `g++`, `gcc`, fixed 10-second timeout) did. */
  datatype CompileOutcome =
    | CompileExited(returnCode: int, stderr: string, elapsed: real)
    | CompileTimedOut
    | CompileSpawnFailed(message: string)

  /** One invocation of the sandbox: the compile step (ignored for Python) and the run. */
  datatype Attempt = Attempt(compile: CompileOutcome, run: RunOutcome)

  /** The fixed ceiling of the compile step, in seconds. */
  const CompileTimeout: int := 10

  function TimeLimitMessage(timeLimit: int): string {
    "Time limit exceeded (" + IntToString(timeLimit) + "s)"
  }

  /** A result built by `execute_code`'s own handlers, which always carry 'success': False. */
  function ErrorResult(message: string, time: real): ExecResult {
    ExecResult(Some(false), Error, "", message, time, 0)
  }

  /** The interpreted path of `_execute_in_sandbox`. */
  function ExecuteInterpreted(run: RunOutcome, timeLimit: int): ExecResult {
    match run
    case Exited(code, out, err, t) =>
      if code == 0 then ExecResult(Some(true), Success, Strip(out), Strip(err), t, 0)
      else ExecResult(Some(false), RuntimeError, Strip(out), Strip(err), t, 0)
    case TimedOut =>
      ExecResult(Some(false), TimeLimitExceeded, "", TimeLimitMessage(timeLimit), timeLimit as real, 0)
    case SpawnFailed(message, t) =>
      ErrorResult(message, t)
  }

  /** `_execute_java`, which `_execute_compiled` also uses for C and C++. A failure to
      spawn either process is not caught there and reaches `execute_code`'s handler. */
  function ExecuteCompiled(compile: CompileOutcome, run: RunOutcome, timeLimit: int): ExecResult {
    match compile
    case CompileSpawnFailed(message) => ErrorResult(message, 0.0)
    case CompileTimedOut =>
      ExecResult(None, CompilationError, "", "Compilation timeout", CompileTimeout as real, 0)
    case CompileExited(code, err, t) =>
      if code != 0 then ExecResult(None, CompilationError, "", err, t, 0)
      else
        match run
        case Exited(rc, out, stderr, t') =>
          if rc == 0 then ExecResult(None, Success, Strip(out), Strip(stderr), t', 0)
          else ExecResult(None, RuntimeError, Strip(out), Strip(stderr), t', 0)
        case TimedOut =>
          ExecResult(None, TimeLimitExceeded, "", TimeLimitMessage(timeLimit), timeLimit as real, 0)
        case SpawnFailed(message, _) => ErrorResult(message, 0.0)
  }

  /** `execute_code(code, language, input_data, time_limit)`. The source text and the
      input only reach the child process, so they are folded into `attempt`. */
  function ExecuteCode(language: string, timeLimit: int, attempt: Attempt): ExecResult {
    match ParseLanguage(language)
    case None => ErrorResult("Unsupported language: " + language, 0.0)
    case Some(Python) => ExecuteInterpreted(attempt.run, timeLimit)
    case Some(_) => ExecuteCompiled(attempt.compile, attempt.run, timeLimit)
  }

  /** The compile step finished with exit code 0 (always so for Python, which has none). */
  predicate CompiledOk(language: Language, compile: CompileOutcome) {
    language == Python || (compile.CompileExited? && compile.returnCode == 0)
  }

  /** An unsupported language is rejected with an 'error' result and nothing is run:
      the result does not depend on what the compiler or program would have done. */
  lemma UnsupportedLanguageRunsNothing(language: string, timeLimit: int, a: Attempt, b: Attempt)
    requires ParseLanguage(language).None?
    ensures ExecuteCode(language, timeLimit, a) == ExecuteCode(language, timeLimit, b)
    ensures var r := ExecuteCode(language, timeLimit, a);
            r.success == Some(false) && r.status == Error && r.output == ""
            && r.executionTime == 0.0 && r.error == "Unsupported language: " + language
  {
  }

  /** A compile failure or compile timeout gives 'compilation_error' and the run phase is
      never entered: the result is the same whatever the program would have done. */
  lemma CompileFailureSkipsRun(language: string, timeLimit: int, compile: CompileOutcome, run1: RunOutcome, run2: RunOutcome)
    requires ParseLanguage(language).Some? && ParseLanguage(language).value != Python
    requires compile.CompileTimedOut? || (compile.CompileExited? && compile.returnCode != 0)
    ensures ExecuteCode(language, timeLimit, Attempt(compile, run1)) == ExecuteCode(language, timeLimit, Attempt(compile, run2))
    ensures ExecuteCode(language, timeLimit, Attempt(compile, run1)).status == CompilationError
    ensures compile.CompileTimedOut? ==> ExecuteCode(language, timeLimit, Attempt(compile, run1)).executionTime == CompileTimeout as real
  {
  }

  /** How the exit code, a timeout and a spawn failure of the run are classified, for
      every supported language whose compile step (if any) succeeded. */
  lemma RunClassification(language: string, timeLimit: int, compile: CompileOutcome, run: RunOutcome)
    requires ParseLanguage(language).Some? && CompiledOk(ParseLanguage(language).value, compile)
    ensures var r := ExecuteCode(language, timeLimit, Attempt(compile, run));
            && (run.Exited? && run.returnCode == 0 ==> r.status == Success && r.output == Strip(run.stdout) && r.error == Strip(run.stderr))
            && (run.Exited? && run.returnCode != 0 ==> r.status == RuntimeError && r.output == Strip(run.stdout) && r.error == Strip(run.stderr))
            && (run.TimedOut? ==>
                  r.status == TimeLimitExceeded && r.output == "" && r.executionTime == timeLimit as real
                  && r.error == TimeLimitMessage(timeLimit))
            && (run.SpawnFailed? ==> r.status == Error && r.output == "" && r.error == run.message)
  {
  }

  /** Only a run that exited with code 0 is a 'success'. */
  lemma SuccessIffExitZero(language: string, timeLimit: int, a: Attempt)
    ensures ExecuteCode(language, timeLimit, a).status == Success
            <==> ParseLanguage(language).Some? && CompiledOk(ParseLanguage(language).value, a.compile)
                 && a.run.Exited? && a.run.returnCode == 0
  {
  }

  /** The 'success' key is present exactly for Python results and for results built by
      `execute_code`'s own handlers (status 'error'); it is true exactly for a Python success. */
  lemma SuccessKeyPresence(language: string, timeLimit: int, a: Attempt)
    ensures var r := ExecuteCode(language, timeLimit, a);
            && (r.success.Some? <==> ParseLanguage(language) == Some(Python) || r.status == Error)
            && (r.success == Some(true) <==> ParseLanguage(language) == Some(Python) && r.status == Success)
  {
  }

  /** The reported output never carries leading or trailing whitespace. */
  lemma OutputIsStripped(language: string, timeLimit: int, a: Attempt)
    ensures Strip(ExecuteCode(language, timeLimit, a).output) == ExecuteCode(language, timeLimit, a).output
  {
    var out := ExecuteCode(language, timeLimit, a).output;
    OutputComesFromStdout(language, timeLimit, a);
    if out == "" {
      assert Strip("") == "";
    } else {
      StripIdempotent(a.run.stdout);
    }
  }

  /** The output is either empty or the stripped standard output of a run that exited. */
  lemma OutputComesFromStdout(language: string, timeLimit: int, a: Attempt)
    ensures var r := ExecuteCode(language, timeLimit, a);
            r.output == "" || (a.run.Exited? && r.output == Strip(a.run.stdout))
  {
    match ParseLanguage(language)
    case None =>
    case Some(Python) =>
    case Some(_) =>
  }

  // ---------------------------------------------------------------------------
  // _extract_java_classname: re.search(r'public\s+class\s+(\w+)', code)

  /** The first index at or after `i` that is not whitespace. */
  function SkipSpaces(s: string, i: nat): (k: nat)
    requires i <= |s|
    ensures i <= k <= |s|
    ensures forall j :: i <= j < k ==> IsSpace(s[j])
    ensures k == |s| || !IsSpace(s[k])
    decreases |s| - i
  {
    if i < |s| && IsSpace(s[i]) then SkipSpaces(s, i + 1) else i
  }

  /** The first index at or after `i` that is not a word character. */
  function SkipWord(s: string, i: nat): (k: nat)
    requires i <= |s|
    ensures i <= k <= |s|
    ensures forall j :: i <= j < k ==> IsWordChar(s[j])
    ensures k == |s| || !IsWordChar(s[k])
    decreases |s| - i
  {
    if i < |s| && IsWordChar(s[i]) then SkipWord(s, i + 1) else i
  }

  /** The group the pattern captures when a match starts at `i`. Both `\s+` are followed
      by something that is not whitespace, so the greedy maximal run is the only choice. */
  function MatchClassAt(code: string, i: nat): (r: Option<string>)
    requires i <= |code|
    ensures r.Some? ==> |r.value| > 0 && forall c :: c in r.value ==> IsWordChar(c)
  {
    if !OccursAt(code, "public", i) then None
    else
      var k := SkipSpaces(code, i + 6);
      if k == i + 6 || !OccursAt(code, "class", k) then None
      else
        var m := SkipSpaces(code, k + 5);
        var e := SkipWord(code, m);
        if m == k + 5 || e == m then None
        else Some(code[m..e])
  }

  /** The leftmost match at or after `i`. */
  function SearchClass(code: string, i: nat): (r: Option<string>)
    requires i <= |code|
    ensures r.Some? ==> |r.value| > 0 && forall c :: c in r.value ==> IsWordChar(c)
    decreases |code| - i
  {
    match MatchClassAt(code, i)
    case Some(name) => Some(name)
    case None => if i == |code| then None else SearchClass(code, i + 1)
  }

  /** `_extract_java_classname`: the identifier after the first `public class`, else 'Main'.
      The result is always a non-empty identifier. */
  function ExtractJavaClassname(code: string): (r: string)
    ensures |r| > 0 && forall c :: c in r ==> IsWordChar(c)
  {
    match SearchClass(code, 0)
    case Some(name) => name
    case None => "Main"
  }

  lemma {:induction false} SearchWithoutPublic(code: string, i: nat)
    requires i <= |code|
    requires !Contains(code, "public")
    ensures SearchClass(code, i) == None
    decreases |code| - i
  {
    assert !OccursAt(code, "public", i);
    if i < |code| {
      SearchWithoutPublic(code, i + 1);
    }
  }

  /** Source without `public` gets the class name 'Main'. */
  lemma NoPublicClassIsMain(code: string)
    requires !Contains(code, "public")
    ensures ExtractJavaClassname(code) == "Main"
  {
    SearchWithoutPublic(code, 0);
  }

  /** A source that starts with `public class <name>` gets `<name>` back. */
  lemma ClassnameRoundTrip(name: string, rest: string)
    requires |name| > 0 && forall c :: c in name ==> IsWordChar(c)
    requires rest == [] || !IsWordChar(rest[0])
    ensures ExtractJavaClassname("public class " + name + rest) == name
  {
    var code := "public class " + name + rest;
    assert code[..6] == "public";
    assert OccursAt(code, "public", 0);
    assert code[6] == ' ' && code[7] == 'c';
    assert SkipSpaces(code, 7) == 7;
    assert SkipSpaces(code, 6) == 7;
    assert code[7..12] == "class";
    assert code[12] == ' ';
    assert code[13..13 + |name|] == name;
    assert SkipSpaces(code, 13) == 13 by {
      assert name[0] in name;
      assert code[13] == name[0];
    }
    assert SkipSpaces(code, 12) == 13;
    assert forall j :: 13 <= j < 13 + |name| ==> IsWordChar(code[j]) by {
      forall j | 13 <= j < 13 + |name| ensures IsWordChar(code[j]) {
        assert code[j] == name[j - 13];
        assert name[j - 13] in name;
      }
    }
    SkipWordRun(code, 13, 13 + |name|);
    assert MatchClassAt(code, 0) == Some(name);
  }

  lemma {:induction false} SkipWordRun(s: string, i: nat, e: nat)
    requires i <= e <= |s|
    requires forall j :: i <= j < e ==> IsWordChar(s[j])
    requires e == |s| || !IsWordChar(s[e])
    ensures SkipWord(s, i) == e
    decreases e - i
  {
    if i < e {
      SkipWordRun(s, i + 1, e);
    }
  }

  // ---------------------------------------------------------------------------
  // run_test_cases

  datatype CaseStatus = Passed | Failed | Errored

  /** One row of `run_test_cases`' result list. */
  datatype CaseResult = CaseResult(
    testCase: nat,
    status: CaseStatus,
    input: string,
    expected: string,
    actual: string,
    executionTime: real,
    error: string)

  /** The row for the `index`-th test case (counted from 0) given its sandbox result. */
  function ClassifyCase(index: nat, input: string, expected: string, res: ExecResult): (r: CaseResult)
    ensures r.testCase == index + 1 && r.input == input && r.executionTime == res.executionTime
    ensures r.status == Passed <==> res.status == Success && Strip(res.output) == Strip(expected)
    ensures r.status == Failed <==> res.status == Success && Strip(res.output) != Strip(expected)
    ensures r.status == Failed ==> r.error == "Wrong answer" && r.actual == Strip(res.output)
    ensures r.status == Errored <==> res.status != Success
    ensures r.status == Errored ==> r.actual == "" && r.error == res.error && r.expected == expected
  {
    if res.status == Success then
      var actual := Strip(res.output);
      var exp := Strip(expected);
      if actual == exp then CaseResult(index + 1, Passed, input, exp, actual, res.executionTime, "")
      else CaseResult(index + 1, Failed, input, exp, actual, res.executionTime, "Wrong answer")
    else CaseResult(index + 1, Errored, input, expected, "", res.executionTime, res.error)
  }

  /** `run_test_cases`: one sandbox invocation per `(input, expected_output)` pair, in
      order; `attempts[i]` is what the sandbox did on the i-th pair. */
  method RunTestCases(language: string, testCases: seq<(string, string)>, timeLimit: int, attempts: seq<Attempt>)
    returns (results: seq<CaseResult>)
    requires |attempts| == |testCases|
    ensures |results| == |testCases|
    ensures forall i :: 0 <= i < |testCases| ==>
              results[i] == ClassifyCase(i, testCases[i].0, testCases[i].1, ExecuteCode(language, timeLimit, attempts[i]))
  {
    results := [];
    var i := 0;
    while i < |testCases|
      invariant 0 <= i <= |testCases|
      invariant |results| == i
      invariant forall k :: 0 <= k < i ==>
                  results[k] == ClassifyCase(k, testCases[k].0, testCases[k].1, ExecuteCode(language, timeLimit, attempts[k]))
    {
      var (input, expected) := testCases[i];
      var result := ExecuteCode(language, timeLimit, attempts[i]);
      var row := ClassifyCase(i, input, expected, result);
      CaseStep(language, testCases, timeLimit, attempts, results, row);
      results := results + [row];
      i := i + 1;
    }
  }

  /** Appending the next case's row keeps every row equal to its case's classification. */
  lemma CaseStep(language: string, testCases: seq<(string, string)>, timeLimit: int, attempts: seq<Attempt>, results: seq<CaseResult>, row: CaseResult)
    requires |attempts| == |testCases| && |results| < |testCases|
    requires forall k :: 0 <= k < |results| ==>
               results[k] == ClassifyCase(k, testCases[k].0, testCases[k].1, ExecuteCode(language, timeLimit, attempts[k]))
    requires row == ClassifyCase(|results|, testCases[|results|].0, testCases[|results|].1, ExecuteCode(language, timeLimit, attempts[|results|]))
    ensures forall k :: 0 <= k < |results| + 1 ==>
              (results + [row])[k] == ClassifyCase(k, testCases[k].0, testCases[k].1, ExecuteCode(language, timeLimit, attempts[k]))
  {
  }

  /** One row per test case, numbered 1..n in input order; a timed-out case is an 'error'
      row carrying the time-limit message. */
  lemma RunTestCasesRows(language: string, testCases: seq<(string, string)>, timeLimit: int, attempts: seq<Attempt>, results: seq<CaseResult>, i: nat)
    requires |attempts| == |testCases| == |results| && i < |results|
    requires forall k :: 0 <= k < |testCases| ==>
               results[k] == ClassifyCase(k, testCases[k].0, testCases[k].1, ExecuteCode(language, timeLimit, attempts[k]))
    requires ParseLanguage(language).Some? && CompiledOk(ParseLanguage(language).value, attempts[i].compile)
    requires attempts[i].run.TimedOut?
    ensures results[i].testCase == i + 1
    ensures results[i].status == Errored && results[i].error == TimeLimitMessage(timeLimit)
    ensures results[i].executionTime == timeLimit as real
  {
    RunClassification(language, timeLimit, attempts[i].compile, attempts[i].run);
  }
}
