/** The two runners side by side, and the sample test file both were written
    against (`solution(a, b) = a + b` with five cases). */
module DriverComparison {
  import opened Wrappers
  import opened PyModel
  import opened PyAst
  import CaseRunner
  import ServicesDriver
  import LegacyDriver

  /** When both runners reach the same `solution` and its call gives `v`,
      the sandboxed runner reports `[v]` and the earlier one `v`; so on an
      expected output that is not a list, the sandboxed runner always
      reports a failure while the earlier one reports success exactly when
      `v == expected`. */
  lemma WrappingIsTheDifference(
    sp: ServicesDriver.Python, lp: LegacyDriver.Python, code: string,
    c: CaseRunner.TestCase, index: nat, v: Value)
    requires sp.parse(code).Parsed? && ImportsAllowed(sp.parse(code).body, AllowedModules)
    requires sp.compile(code, ServicesDriver.SanitizedTree(sp, code)).None?
    requires sp.exec(code, ServicesDriver.SanitizedTree(sp, code)).Finished?
    requires DefinesSolution(sp.exec(code, ServicesDriver.SanitizedTree(sp, code)).namespace)
    requires sp.call(sp.exec(code, ServicesDriver.SanitizedTree(sp, code)).namespace["solution"].fn,
                     Args(CaseRunner.Get(c, "input"))) == Ok(v)
    requires lp.exec(code).Finished? && DefinesSolution(lp.exec(code).namespace)
    requires lp.call(lp.exec(code).namespace["solution"].fn, Args(CaseRunner.Get(c, "input"))) == Ok(v)
    ensures ServicesDriver.RunUserCode(sp, code, CaseRunner.Get(c, "input")) == Ok(ListV([v]))
    ensures LegacyDriver.RunUserCode(lp, code, CaseRunner.Get(c, "input")) == Ok(v)
    ensures !CaseRunner.Get(c, "expected_output").ListV? ==>
              !CaseRunner.Record(index, c, ServicesDriver.RunUserCode(sp, code, CaseRunner.Get(c, "input"))).success
    ensures (CaseRunner.Record(index, c, LegacyDriver.RunUserCode(lp, code, CaseRunner.Get(c, "input"))).success
             <==> PyEq(v, CaseRunner.Get(c, "expected_output")))
  {
    ServicesDriver.RunUserCodeCalls(sp, code, CaseRunner.Get(c, "input"));
  }

  /** The sample solution. */
  const AdderSource := "\ndef solution(a, b):\n    return a + b\n"

  /** `a + b` on two integers; any other argument list is a `TypeError`. */
  function Add(args: seq<Value>): Outcome {
    if |args| == 2 && args[0].IntV? && args[1].IntV? then Ok(IntV(args[0].i + args[1].i))
    else Raised(Exc(OtherError("TypeError"), "unsupported arguments for solution"))
  }

  /** What the sample source leaves behind in the namespace. */
  const AdderNamespace: map<string, Value> := map["solution" := FunctionV(0)]

  /** A Python implementation as the sandboxed runner sees it running the
      sample source. */
  function AdderServices(): ServicesDriver.Python {
    ServicesDriver.Python(
      c => if c == AdderSource then Parsed([FunctionDef("solution", [Simple])]) else ParseFailed("invalid syntax"),
      (c, t) => None,
      (c, t) => if c == AdderSource then Finished(AdderNamespace) else ExecRaised(Exc(OtherError("NameError"), "not the sample")),
      (f, args) => Add(args))
  }

  /** The same, as the earlier runner sees it. */
  function AdderLegacy(): LegacyDriver.Python {
    LegacyDriver.Python(
      c => if c == AdderSource then Finished(AdderNamespace) else ExecRaised(Exc(SyntaxError, "invalid syntax")),
      (f, args) => Add(args))
  }

  function Case(a: int, b: int, expected: int): CaseRunner.TestCase {
    map["input" := ListV([IntV(a), IntV(b)]), "expected_output" := IntV(expected)]
  }

  /** The sample test file. */
  function SampleCases(): seq<CaseRunner.TestCase> {
    [Case(1, 2, 3), Case(5, 7, 12), Case(0, 0, 0), Case(-1, 1, 0), Case(10, -5, 5)]
  }

  /** The earlier runner reports success on all five sample cases. */
  lemma LegacySamplesPass()
    ensures forall i :: 0 <= i < |SampleCases()| ==>
              var c := SampleCases()[i];
              CaseRunner.Record(i, c, LegacyDriver.RunUserCode(AdderLegacy(), AdderSource, CaseRunner.Get(c, "input"))).success
  {
    var cases := SampleCases();
    forall i | 0 <= i < |cases|
      ensures CaseRunner.Record(i, cases[i], LegacyDriver.RunUserCode(AdderLegacy(), AdderSource, CaseRunner.Get(cases[i], "input"))).success
    {
      var c := cases[i];
      assert CaseRunner.Get(c, "input") == c["input"];
      assert Args(c["input"]) == c["input"].items;
    }
  }

  /** The sandboxed runner reports failure on all five, because it compares
      `[a + b]` with the expected number. */
  lemma ServicesSamplesFail()
    ensures forall i :: 0 <= i < |SampleCases()| ==>
              var c := SampleCases()[i];
              var r := ServicesDriver.RunUserCode(AdderServices(), AdderSource, CaseRunner.Get(c, "input"));
              r.Ok? && !CaseRunner.Record(i, c, r).success
  {
    var py := AdderServices();
    var body := [FunctionDef("solution", [Simple])];
    assert FirstOffence(body, AllowedModules).None? by {
      SizeAppend(body[1..], Children(body[0]));
      assert body[1..] + Children(body[0]) == [Simple];
      SizeAppend([Simple][1..], Children(Simple));
      assert [Simple][1..] + Children(Simple) == [];
    }
    var cases := SampleCases();
    forall i | 0 <= i < |cases|
      ensures var r := ServicesDriver.RunUserCode(py, AdderSource, CaseRunner.Get(cases[i], "input"));
              r.Ok? && !CaseRunner.Record(i, cases[i], r).success
    {
      var c := cases[i];
      assert CaseRunner.Get(c, "input") == c["input"];
      assert Args(c["input"]) == c["input"].items;
    }
  }
}
