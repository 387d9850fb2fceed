/** `run_test_cases`, which both copies of the runner share line for line:
    one result record per test case, built from whatever `run_user_code`
    gives for that case's input. */
module CaseRunner {
  import opened PyModel

  /** One test case: a JSON object, read with `case.get(key)`. */
  type TestCase = map<string, Value>

  /** `case.get(key)`: a missing key reads as `None`, never as an error. */
  function Get(c: TestCase, key: string): (v: Value)
    ensures key !in c ==> v == NoneV
    ensures key in c ==> v == c[key]
  {
    if key in c then c[key] else NoneV
  }

  /** The record `run_test_cases` appends for one case (the measured
      `execution_time` is not part of the model). */
  datatype TestResult = TestResult(
    testCase: nat,
    input: Value,
    expectedOutput: Value,
    userOutput: Value,
    success: bool)

  /** The record for case number `index`, given what running it gave; an
      exception here is one the `except Exception` around the call caught. */
  function Record(index: nat, c: TestCase, outcome: Outcome): (r: TestResult)
    ensures r.testCase == index
    ensures r.input == Get(c, "input") && r.expectedOutput == Get(c, "expected_output")
    ensures r.success <==> outcome.Ok? && PyEq(outcome.value, Get(c, "expected_output"))
    ensures outcome.Ok? ==> r.userOutput == outcome.value
    ensures outcome.Raised? ==> r.userOutput == StrV(outcome.exc.message) && !r.success
  {
    var expected := Get(c, "expected_output");
    match outcome
    case Ok(v) => TestResult(index, Get(c, "input"), expected, v, PyEq(v, expected))
    case Raised(e) => TestResult(index, Get(c, "input"), expected, StrV(e.message), false)
  }

  /** True when running a case raises an exception that `except Exception`
      lets through, which ends `run_test_cases` itself. */
  predicate Escapes(o: Outcome) {
    o.Raised? && !Caught(o.exc)
  }

  /** How `run_test_cases` ends: it returns its list of records, or it is
      left by the exception one case raised past `except Exception`. */
  datatype Report = Completed(results: seq<TestResult>) | Aborted(exc: Exc)

  /** The loop over `enumerate(test_cases)`: `run` is `run_user_code` with
      the user's code fixed. */
  method RunTestCases(run: Value -> Outcome, cases: seq<TestCase>) returns (report: Report)
    // the list is returned exactly when no case raises past the handler
    ensures report.Completed? <==> forall i :: 0 <= i < |cases| ==> !Escapes(run(Get(cases[i], "input")))
    // one record per case, in order
    ensures report.Completed? ==> |report.results| == |cases|
    ensures report.Completed? ==>
              forall i :: 0 <= i < |cases| ==> report.results[i] == Record(i, cases[i], run(Get(cases[i], "input")))
    // otherwise the first case whose exception escapes ends the run with it
    ensures report.Aborted? ==>
              exists j :: 0 <= j < |cases| && run(Get(cases[j], "input")) == Raised(report.exc) &&
                          !Caught(report.exc) &&
                          forall i :: 0 <= i < j ==> !Escapes(run(Get(cases[i], "input")))
  {
    var results := [];
    for index := 0 to |cases|
      invariant |results| == index
      invariant forall i :: 0 <= i < index ==> !Escapes(run(Get(cases[i], "input")))
      invariant forall i :: 0 <= i < index ==> results[i] == Record(i, cases[i], run(Get(cases[i], "input")))
    {
      var c := cases[index];
      var inputData := Get(c, "input");
      var expectedOutput := Get(c, "expected_output");
      var userOutput: Value;
      var success: bool;
      match run(inputData) {
        case Ok(v) =>
          userOutput := v;
          success := PyEq(userOutput, expectedOutput);
        case Raised(e) =>
          if !Caught(e) {
            return Aborted(e);
          }
          userOutput := StrV(e.message);
          success := false;
      }
      results := results + [TestResult(index, inputData, expectedOutput, userOutput, success)];
    }
    return Completed(results);
  }
}
