/** `run_user_code` and `run_test_cases` of codedriver/driver.py, the
    earlier runner: no import check, no sanitising, no restricted builtins,
    and the output of `solution` returned as it is. */
module LegacyDriver {
  import opened PyModel
  import CaseRunner

  /** What this runner asks of the Python implementation: `exec` runs the
      source text with empty globals and a fresh local namespace (a syntax
      error is one of the exceptions it raises); `call` invokes the function
      object with the given id on positional arguments. */
  datatype Python = Python(
    exec: string -> ExecResult,
    call: (nat, seq<Value>) -> Outcome)

  const CompileFailed := "Error compiling user code: "
  const NoSolution := "User code must define a function named 'solution'"

  /** `run_user_code(user_code, input_data)`. */
  function RunUserCode(py: Python, code: string, input: Value): (r: Outcome)
    // an `Exception` from `exec` becomes a RuntimeError
    ensures py.exec(code).ExecRaised? && Caught(py.exec(code).exc) ==>
              r == Raised(Exc(RuntimeError, CompileFailed + py.exec(code).exc.message))
    // a `BaseException` outside `Exception` passes the handler unchanged
    ensures py.exec(code).ExecRaised? && !Caught(py.exec(code).exc) ==> r == Raised(py.exec(code).exc)
    // code that runs but leaves no callable `solution` raises ValueError
    ensures py.exec(code).Finished? && !DefinesSolution(py.exec(code).namespace) ==>
              r == Raised(Exc(ValueError, NoSolution))
    // otherwise the outcome is exactly that of the call: its value unwrapped,
    // or its exception unchanged
    ensures py.exec(code).Finished? && DefinesSolution(py.exec(code).namespace) ==>
              r == py.call(py.exec(code).namespace["solution"].fn, Args(input))
  {
    match py.exec(code)
    case ExecRaised(e) =>
      if Caught(e) then Raised(Exc(RuntimeError, CompileFailed + e.message)) else Raised(e)
    case Finished(ns) =>
      if !DefinesSolution(ns) then Raised(Exc(ValueError, NoSolution))
      else py.call(ns["solution"].fn, Args(input))
  }

  /** An exception that escapes `run_user_code` here is one the user's code
      raised itself: the runner's own exceptions are all `Exception`s. */
  lemma EscapingComesFromUserCode(py: Python, code: string, input: Value)
    requires CaseRunner.Escapes(RunUserCode(py, code, input))
    ensures (py.exec(code).ExecRaised? && RunUserCode(py, code, input).exc == py.exec(code).exc) ||
            (py.exec(code).Finished? && DefinesSolution(py.exec(code).namespace) &&
             RunUserCode(py, code, input) == py.call(py.exec(code).namespace["solution"].fn, Args(input)))
  {
  }

  /** `run_test_cases` of this file: one record per case, in order, unless a
      case raises past `except Exception`. */
  method RunTestCases(py: Python, code: string, cases: seq<CaseRunner.TestCase>)
    returns (report: CaseRunner.Report)
    ensures report.Completed? <==>
              forall i :: 0 <= i < |cases| ==> !CaseRunner.Escapes(RunUserCode(py, code, CaseRunner.Get(cases[i], "input")))
    ensures report.Completed? ==> |report.results| == |cases|
    ensures report.Completed? ==>
              forall i :: 0 <= i < |cases| ==>
                report.results[i] == CaseRunner.Record(i, cases[i], RunUserCode(py, code, CaseRunner.Get(cases[i], "input")))
    ensures report.Aborted? ==>
              exists j :: 0 <= j < |cases| && RunUserCode(py, code, CaseRunner.Get(cases[j], "input")) == Raised(report.exc) &&
                          !Caught(report.exc) &&
                          forall i :: 0 <= i < j ==> !CaseRunner.Escapes(RunUserCode(py, code, CaseRunner.Get(cases[i], "input")))
  {
    report := CaseRunner.RunTestCases(input => RunUserCode(py, code, input), cases);
  }
}
