/** `run_user_code` and `run_test_cases` of codedriver/services/driver.py:
    the sandboxed runner. The parser, the compiler, `exec` and the call of
    `solution` are an oracle (`Python`); the model fixes the order of the
    checks, the exceptions each failure turns into, the unpacking of the
    input and the shape of the result. */
module ServicesDriver {
  import opened Wrappers
  import opened PyModel
  import opened PyAst
  import CaseRunner

  /** What the runner asks of the Python implementation. `parse` is
      `ast.parse` (deterministic: both parses of the same code agree);
      `compile` gives the message of the exception `compile` raises, if any;
      `exec` runs the compiled sanitised tree in the restricted globals, whose
      `__import__` is `restricted_import`; `call` invokes the function object
      with the given id on positional arguments. `compile` and `exec` see the
      source text as well as the sanitised statement kinds, since the kinds
      alone do not determine what the code does. */
  datatype Python = Python(
    parse: string -> ParseResult,
    compile: (string, seq<Stmt>) -> Option<string>,
    exec: (string, seq<Stmt>) -> ExecResult,
    call: (nat, seq<Value>) -> Outcome)

  const CouldNotParse := "Could not parse user code: "
  const CompileFailed := "Error compiling user code: "
  const ExecFailed := "Error during user code execution: "
  const NoSolution := "User code must define a callable function named 'solution'."
  const SolutionFailed := "Error running 'solution': "

  /** `run_user_code(user_code, input_data)`. */
  function RunUserCode(py: Python, code: string, input: Value): (r: Outcome)
    // a syntax error escapes from the import check as the parser's own exception
    ensures py.parse(code).ParseFailed? ==> r == Raised(Exc(SyntaxError, py.parse(code).message))
    // a disallowed import anywhere in the tree fails with ValueError, whatever the code would do when run
    ensures py.parse(code).Parsed? && !ImportsAllowed(py.parse(code).body, AllowedModules) ==>
              r.Raised? && r.exc.cls == ValueError
    // a success is the one-element list holding what `solution` returned
    ensures r.Ok? ==> r.value.ListV? && |r.value.items| == 1
  {
    match ImportCheck(py.parse(code), AllowedModules)
    case Some(e) =>
      assert py.parse(code).Parsed? ==> FirstOffence(py.parse(code).body, AllowedModules).Some?;
      Raised(e)
    case None =>
      FirstOffenceCorrect(py.parse(code).body, AllowedModules);
      match py.parse(code)
      case ParseFailed(msg) => Raised(Exc(RuntimeError, CouldNotParse + msg))
      case Parsed(tree) =>
        var sanitized := KeepTopLevel(tree);
        match py.compile(code, sanitized)
        case Some(msg) => Raised(Exc(RuntimeError, CompileFailed + msg))
        case None =>
          match py.exec(code, sanitized)
          case ExecRaised(e) =>
            if Caught(e) then Raised(Exc(RuntimeError, ExecFailed + e.message)) else Raised(e)
          case Finished(globals) =>
            if !DefinesSolution(globals) then Raised(Exc(ValueError, NoSolution))
            else
              match py.call(globals["solution"].fn, Args(input))
              case Raised(e) =>
                if Caught(e) then Raised(Exc(RuntimeError, SolutionFailed + e.message)) else Raised(e)
              case Ok(v) => Ok(ListV([v]))
  }

  /** The tree handed to `compile` and `exec` once the checks passed. */
  function SanitizedTree(py: Python, code: string): seq<Stmt>
    requires py.parse(code).Parsed?
  {
    KeepTopLevel(py.parse(code).body)
  }

  /** The call `run_user_code` makes when every earlier step passed. */
  lemma RunUserCodeCalls(py: Python, code: string, input: Value)
    requires py.parse(code).Parsed? && ImportsAllowed(py.parse(code).body, AllowedModules)
    requires py.compile(code, SanitizedTree(py, code)).None?
    requires py.exec(code, SanitizedTree(py, code)).Finished?
    requires DefinesSolution(py.exec(code, SanitizedTree(py, code)).namespace)
    ensures var fn := py.exec(code, SanitizedTree(py, code)).namespace["solution"].fn;
            match py.call(fn, Args(input))
            case Ok(v) => RunUserCode(py, code, input) == Ok(ListV([v]))
            case Raised(e) =>
              RunUserCode(py, code, input) ==
                if Caught(e) then Raised(Exc(RuntimeError, SolutionFailed + e.message)) else Raised(e)
  {
    FirstOffenceCorrect(py.parse(code).body, AllowedModules);
  }

  /** A rejected import fails before anything runs: two interpreters that
      parse the code alike give the same outcome, however differently they
      compile, execute or call. */
  lemma RejectedBeforeExecution(py1: Python, py2: Python, code: string, input: Value)
    requires py1.parse(code) == py2.parse(code)
    requires py1.parse(code).Parsed? && !ImportsAllowed(py1.parse(code).body, AllowedModules)
    ensures RunUserCode(py1, code, input) == RunUserCode(py2, code, input)
    ensures RunUserCode(py1, code, input).exc.cls == ValueError
  {
    FirstOffenceCorrect(py1.parse(code).body, AllowedModules);
  }

  /** Code that runs but leaves no callable `solution` fails with
      `ValueError`, and nothing is called. */
  lemma MissingSolution(py: Python, code: string, input: Value)
    requires py.parse(code).Parsed? && ImportsAllowed(py.parse(code).body, AllowedModules)
    requires py.compile(code, SanitizedTree(py, code)).None?
    requires py.exec(code, SanitizedTree(py, code)).Finished?
    requires !DefinesSolution(py.exec(code, SanitizedTree(py, code)).namespace)
    ensures RunUserCode(py, code, input) == Raised(Exc(ValueError, NoSolution))
  {
    FirstOffenceCorrect(py.parse(code).body, AllowedModules);
  }

  /** Compile and execution failures, and exceptions raised by `solution`,
      all surface as `RuntimeError`, except a `BaseException` outside
      `Exception`, which passes through unchanged. */
  lemma FailuresAfterCheckAreRuntimeErrors(py: Python, code: string, input: Value)
    requires py.parse(code).Parsed? && ImportsAllowed(py.parse(code).body, AllowedModules)
    requires RunUserCode(py, code, input).Raised?
    requires RunUserCode(py, code, input).exc.message != NoSolution
    ensures Caught(RunUserCode(py, code, input).exc) ==> RunUserCode(py, code, input).exc.cls == RuntimeError
  {
    FirstOffenceCorrect(py.parse(code).body, AllowedModules);
  }

  /** The `BaseException`s that escape the handlers of `run_user_code` are
      exactly those raised by executing the code or by calling `solution`. */
  lemma EscapingComesFromUserCode(py: Python, code: string, input: Value)
    requires py.parse(code).Parsed? && ImportsAllowed(py.parse(code).body, AllowedModules)
    requires py.compile(code, SanitizedTree(py, code)).None?
    ensures var x := py.exec(code, SanitizedTree(py, code));
            x.ExecRaised? && !Caught(x.exc) ==> RunUserCode(py, code, input) == Raised(x.exc)
    ensures var x := py.exec(code, SanitizedTree(py, code));
            x.Finished? && DefinesSolution(x.namespace) ==>
              var o := py.call(x.namespace["solution"].fn, Args(input));
              o.Raised? && !Caught(o.exc) ==> RunUserCode(py, code, input) == o
    ensures CaseRunner.Escapes(RunUserCode(py, code, input)) ==>
              var x := py.exec(code, SanitizedTree(py, code));
              (x.ExecRaised? && !Caught(x.exc)) ||
              (x.Finished? && DefinesSolution(x.namespace) &&
               CaseRunner.Escapes(py.call(x.namespace["solution"].fn, Args(input))))
  {
    FirstOffenceCorrect(py.parse(code).body, AllowedModules);
  }

  /** The `RuntimeError` for an unparsable program at the second parse can
      never be raised: the first parse, outside the `try`, already failed
      with the parser's own exception. */
  lemma SecondParseNeverFails(py: Python, code: string, input: Value)
    ensures var r := RunUserCode(py, code, input);
            !(r.Raised? && r.exc.cls == RuntimeError && CouldNotParse <= r.exc.message)
  {
    if py.parse(code).Parsed? && ImportsAllowed(py.parse(code).body, AllowedModules) {
      FirstOffenceCorrect(py.parse(code).body, AllowedModules);
      var tree := SanitizedTree(py, code);
      match py.compile(code, tree) {
        case Some(m) => assert (CompileFailed + m)[0] == 'E';
        case None =>
          match py.exec(code, tree) {
            case ExecRaised(e) =>
              if Caught(e) { assert (ExecFailed + e.message)[0] == 'E'; }
            case Finished(g) =>
              if DefinesSolution(g) {
                match py.call(g["solution"].fn, Args(input)) {
                  case Raised(e) =>
                    if Caught(e) { assert (SolutionFailed + e.message)[0] == 'E'; }
                  case Ok(_) =>
                }
              }
          }
      }
    } else if py.parse(code).Parsed? {
      FirstOffenceCorrect(py.parse(code).body, AllowedModules);
    }
  }

  /** `run_test_cases` of this file: one record per case, in order, unless a
      case raises past `except Exception`. */
  method RunTestCases(py: Python, code: string, cases: seq<CaseRunner.TestCase>)
    returns (report: CaseRunner.Report)
    ensures report.Completed? <==>
              forall i :: 0 <= i < |cases| ==> !CaseRunner.Escapes(RunUserCode(py, code, CaseRunner.Get(cases[i], "input")))
    ensures report.Completed? ==> |report.results| == |cases|
    ensures report.Completed? ==>
              forall i :: 0 <= i < |cases| ==>
                report.results[i] == CaseRunner.Record(i, cases[i], RunUserCode(py, code, CaseRunner.Get(cases[i], "input")))
    ensures report.Aborted? ==>
              exists j :: 0 <= j < |cases| && RunUserCode(py, code, CaseRunner.Get(cases[j], "input")) == Raised(report.exc) &&
                          !Caught(report.exc) &&
                          forall i :: 0 <= i < j ==> !CaseRunner.Escapes(RunUserCode(py, code, CaseRunner.Get(cases[i], "input")))
  {
    report := CaseRunner.RunTestCases(input => RunUserCode(py, code, input), cases);
  }

  /** Because the output is wrapped in a list, a case only succeeds when its
      expected output is a one-element list equal to `[result]`. */
  lemma SuccessNeedsSingletonExpected(py: Python, code: string, c: CaseRunner.TestCase, index: nat)
    requires CaseRunner.Record(index, c, RunUserCode(py, code, CaseRunner.Get(c, "input"))).success
    ensures var e := CaseRunner.Get(c, "expected_output");
            e.ListV? && |e.items| == 1
  {
    var r := RunUserCode(py, code, CaseRunner.Get(c, "input"));
    SingletonListEq(r.value.items[0], CaseRunner.Get(c, "expected_output"));
  }
}
