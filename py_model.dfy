/** The slice of the Python runtime the code runner depends on: the values
    that flow through `run_user_code`, the exceptions it raises and catches,
    the result of executing code, and Python's `==` on those values. */
module PyModel {

  /** A Python value as it appears in a test case or as the return value of
      `solution`. `DictV` is a dictionary with string keys, the form a JSON
      object takes once loaded; `FunctionV` stands for any callable the
      executed code binds (a function, a class, a builtin or an object with
      `__call__`); `ObjectV` stands for any other object, compared by
      identity. */
  datatype Value =
    | NoneV
    | BoolV(b: bool)
    | IntV(i: int)
    | StrV(s: string)
    | ListV(items: seq<Value>)
    | TupleV(items: seq<Value>)
    | DictV(entries: map<string, Value>)
    | FunctionV(fn: nat)
    | ObjectV(id: nat)

  /** The exception classes the runner raises or lets through. `OtherError`
      is any other subclass of `Exception`; `BaseOnly` is a class that derives
      from `BaseException` but not from `Exception` (`SystemExit`,
      `KeyboardInterrupt`, `GeneratorExit`). */
  datatype ExcClass =
    | SyntaxError | RuntimeError | ValueError | ImportError
    | OtherError(name: string)
    | BaseOnly(name: string)

  /** An exception; `message` is what `str(e)` gives. */
  datatype Exc = Exc(cls: ExcClass, message: string)

  /** Whether `except Exception` catches `e`. */
  predicate Caught(e: Exc) {
    !e.cls.BaseOnly?
  }

  /** What evaluating a call gives: a value or a raised exception. */
  datatype Outcome = Ok(value: Value) | Raised(exc: Exc)

  /** What running `exec` gives: the exception it raised, or the namespace
      the code left behind. */
  datatype ExecResult = ExecRaised(exc: Exc) | Finished(namespace: map<string, Value>)

  /** `callable(v)`: true exactly for the callables `FunctionV` stands for. */
  predicate Callable(v: Value) {
    v.FunctionV?
  }

  /** True when `namespace` holds a callable named `solution`. */
  predicate DefinesSolution(namespace: map<string, Value>) {
    "solution" in namespace && Callable(namespace["solution"])
  }

  /** The positional arguments `solution` receives for a test input: a list
      or a tuple is spread (`solution(*input_data)`), anything else is passed
      as the single argument (`solution(input_data)`). */
  function Args(input: Value): (args: seq<Value>)
    ensures input.ListV? || input.TupleV? ==> args == input.items
    ensures !(input.ListV? || input.TupleV?) ==> args == [input]
  {
    match input
    case ListV(items) => items
    case TupleV(items) => items
    case _ => [input]
  }

  /** True for `bool` and `int`, which Python compares numerically. */
  predicate IsNumber(v: Value) {
    v.BoolV? || v.IntV?
  }

  /** The numeric value of a `bool` or `int` (`True == 1`, `False == 0`). */
  function NumberOf(v: Value): int
    requires IsNumber(v)
  {
    if v.BoolV? then (if v.b then 1 else 0) else v.i
  }

  /** Python's `a == b` on the values modelled here: numbers by value (so
      `True == 1`), strings by contents, a list only equals a list and a
      tuple only a tuple of the same length with equal elements, a dictionary
      only a dictionary with the same keys and equal values under each key,
      and functions and other objects by identity. */
  predicate PyEq(a: Value, b: Value)
    decreases a
  {
    match a
    case NoneV => b.NoneV?
    case BoolV(_) => IsNumber(b) && NumberOf(a) == NumberOf(b)
    case IntV(_) => IsNumber(b) && NumberOf(a) == NumberOf(b)
    case StrV(s) => b.StrV? && b.s == s
    case ListV(xs) => b.ListV? && |xs| == |b.items| && forall k :: 0 <= k < |xs| ==> PyEq(xs[k], b.items[k])
    case TupleV(xs) => b.TupleV? && |xs| == |b.items| && forall k :: 0 <= k < |xs| ==> PyEq(xs[k], b.items[k])
    case DictV(m) => b.DictV? && m.Keys == b.entries.Keys && forall k :: k in m ==> PyEq(m[k], b.entries[k])
    case FunctionV(f) => b.FunctionV? && b.fn == f
    case ObjectV(id) => b.ObjectV? && b.id == id
  }

  /** Every value equals itself. */
  lemma {:induction false} PyEqReflexive(a: Value)
    ensures PyEq(a, a)
    decreases a
  {
    match a
    case ListV(xs) =>
      forall k | 0 <= k < |xs| ensures PyEq(xs[k], xs[k]) { PyEqReflexive(xs[k]); }
    case TupleV(xs) =>
      forall k | 0 <= k < |xs| ensures PyEq(xs[k], xs[k]) { PyEqReflexive(xs[k]); }
    case DictV(m) =>
      forall k | k in m ensures PyEq(m[k], m[k]) { PyEqReflexive(m[k]); }
    case _ =>
  }

  /** `==` is symmetric. */
  lemma {:induction false} PyEqSymmetric(a: Value, b: Value)
    requires PyEq(a, b)
    ensures PyEq(b, a)
    decreases a
  {
    match a
    case ListV(xs) =>
      forall k | 0 <= k < |xs| ensures PyEq(b.items[k], xs[k]) { PyEqSymmetric(xs[k], b.items[k]); }
    case TupleV(xs) =>
      forall k | 0 <= k < |xs| ensures PyEq(b.items[k], xs[k]) { PyEqSymmetric(xs[k], b.items[k]); }
    case DictV(m) =>
      forall k | k in b.entries ensures PyEq(b.entries[k], m[k]) { PyEqSymmetric(m[k], b.entries[k]); }
    case _ =>
  }

  /** A one-element list equals only a one-element list. */
  lemma SingletonListEq(v: Value, e: Value)
    requires PyEq(ListV([v]), e)
    ensures e.ListV? && |e.items| == 1 && PyEq(v, e.items[0])
  {
  }
}
