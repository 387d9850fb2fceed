/** The syntax-tree side of the sandboxed runner in
    codedriver/services/driver.py: the import whitelist check that walks the
    whole tree, the `__import__` replacement the executed code sees, and the
    sanitiser that keeps only definitions at the top level. */
module PyAst {
  import opened Wrappers
  import opened PyModel

  /** The value of an expression statement: a string constant (a docstring),
      any other constant, or anything that is not a constant. */
  datatype ExprValue = StrConstant(s: string) | OtherConstant | NonConstant

  /** A statement of Python's `ast`. Definitions and compound statements keep
      their nested statements in `body`; for a compound statement (`if`,
      `for`, `while`, `with`, `try`, `match`) `body` holds all its nested
      statement lists one after another. `Simple` is every statement with no
      nested statements that is not listed separately (`return`, `pass`,
      `raise`, `del`, `global`, augmented assignment, ...). */
  datatype Stmt =
    | FunctionDef(name: string, body: seq<Stmt>)
    | AsyncFunctionDef(name: string, body: seq<Stmt>)
    | ClassDef(name: string, body: seq<Stmt>)
    | Import(names: seq<string>)
    | ImportFrom(from: Option<string>, names: seq<string>, level: nat)
    | Assign
    | AnnAssign
    | Expr(value: ExprValue)
    | Compound(body: seq<Stmt>)
    | Simple

  /** What `ast.parse` gives: the module body, or the `SyntaxError` message. */
  datatype ParseResult = Parsed(body: seq<Stmt>) | ParseFailed(message: string)

  /** The statements directly nested in `s`. */
  function Children(s: Stmt): seq<Stmt> {
    match s
    case FunctionDef(_, body) => body
    case AsyncFunctionDef(_, body) => body
    case ClassDef(_, body) => body
    case Compound(body) => body
    case _ => []
  }

  // ---------------------------------------------------------------------
  // The whitelist
  // ---------------------------------------------------------------------

  /** The set `run_user_code` installs as `ALLOWED_MODULES`. */
  const AllowedModules: set<string> := {"math"}

  /** The module an import statement names: `Some(alias.name)` for `import`,
      `node.module` for `from ... import`, which is `None` for `from . import x`. */
  predicate ModuleAllowed(m: Option<string>, allowed: set<string>) {
    m.Some? && m.value in allowed
  }

  /** The module names the statement itself imports (not its nested ones). */
  function OwnModules(s: Stmt): set<Option<string>> {
    match s
    case Import(names) => set n | n in names :: Some(n)
    case ImportFrom(m, _, _) => {m}
    case _ => {}
  }

  /** Every module name imported anywhere in `body`, at any depth. */
  function ModulesIn(body: seq<Stmt>): set<Option<string>>
    decreases body
  {
    if body == [] then {}
    else
      var nested := match body[0]
        case FunctionDef(_, b) => ModulesIn(b)
        case AsyncFunctionDef(_, b) => ModulesIn(b)
        case ClassDef(_, b) => ModulesIn(b)
        case Compound(b) => ModulesIn(b)
        case _ => {};
      OwnModules(body[0]) + nested + ModulesIn(body[1..])
  }

  lemma ModulesInUnfold(body: seq<Stmt>)
    requires body != []
    ensures ModulesIn(body) == OwnModules(body[0]) + ModulesIn(Children(body[0])) + ModulesIn(body[1..])
  {
  }

  /** No statement anywhere in `body` imports a module outside `allowed`. */
  predicate ImportsAllowed(body: seq<Stmt>, allowed: set<string>) {
    forall m :: m in ModulesIn(body) ==> ModuleAllowed(m, allowed)
  }

  /** The import that made the check fail. */
  datatype Offence = PlainImport(name: string) | FromImport(from: Option<string>)

  /** The module an offence names. */
  function OffendingModule(o: Offence): Option<string> {
    match o
    case PlainImport(n) => Some(n)
    case FromImport(m) => m
  }

  /** How Python's f-string renders an optional module name. */
  function ShowModule(m: Option<string>): string {
    match m
    case Some(n) => n
    case None => "None"
  }

  /** The `ValueError` the check raises for an offence. */
  function OffenceError(o: Offence): (e: Exc)
    ensures e.cls == ValueError
  {
    match o
    case PlainImport(n) => Exc(ValueError, "Import of '" + n + "' is not allowed.")
    case FromImport(m) => Exc(ValueError, "Import from '" + ShowModule(m) + "' is not allowed.")
  }

  /** The first alias of an `import` statement that is not allowed. */
  function FirstDisallowed(names: seq<string>, allowed: set<string>): (r: Option<string>)
    ensures r.None? <==> forall n :: n in names ==> n in allowed
    ensures r.Some? ==> r.value in names && r.value !in allowed
  {
    if names == [] then None
    else if names[0] !in allowed then Some(names[0])
    else FirstDisallowed(names[1..], allowed)
  }

  lemma {:induction false} FirstDisallowedAt(names: seq<string>, allowed: set<string>, i: nat)
    requires i < |names| && names[i] !in allowed
    requires forall j :: 0 <= j < i ==> names[j] in allowed
    ensures FirstDisallowed(names, allowed) == Some(names[i])
  {
    if i > 0 {
      FirstDisallowedAt(names[1..], allowed, i - 1);
    }
  }

  /** The offence of a single node, looked at on its own. */
  function NodeOffence(s: Stmt, allowed: set<string>): (r: Option<Offence>)
    ensures r.None? <==> forall m :: m in OwnModules(s) ==> ModuleAllowed(m, allowed)
    ensures r.Some? ==> OffendingModule(r.value) in OwnModules(s) && !ModuleAllowed(OffendingModule(r.value), allowed)
  {
    match s
    case Import(names) =>
      var bad := FirstDisallowed(names, allowed);
      if bad.Some? then
        assert Some(bad.value) in OwnModules(s);
        Some(PlainImport(bad.value))
      else
        assert forall m :: m in OwnModules(s) ==> ModuleAllowed(m, allowed) by {
          forall m | m in OwnModules(s) ensures ModuleAllowed(m, allowed) {
            var n :| n in names && m == Some(n);
          }
        }
        None
    case ImportFrom(m, _, _) =>
      if !ModuleAllowed(m, allowed) then Some(FromImport(m)) else None
    case _ => None
  }

  /** The number of statements in `body`, counting nested ones. */
  function Size(body: seq<Stmt>): nat
    decreases body
  {
    if body == [] then 0
    else
      var nested := match body[0]
        case FunctionDef(_, b) => Size(b)
        case AsyncFunctionDef(_, b) => Size(b)
        case ClassDef(_, b) => Size(b)
        case Compound(b) => Size(b)
        case _ => 0;
      1 + nested + Size(body[1..])
  }

  lemma SizeUnfold(body: seq<Stmt>)
    requires body != []
    ensures Size(body) == 1 + Size(Children(body[0])) + Size(body[1..])
  {
  }

  lemma {:induction false} SizeAppend(a: seq<Stmt>, b: seq<Stmt>)
    ensures Size(a + b) == Size(a) + Size(b)
    decreases a
  {
    if a != [] {
      assert (a + b)[0] == a[0] && (a + b)[1..] == a[1..] + b;
      SizeAppend(a[1..], b);
      SizeUnfold(a);
      SizeUnfold(a + b);
    } else {
      assert a + b == b;
    }
  }

  lemma {:induction false} ModulesInAppend(a: seq<Stmt>, b: seq<Stmt>)
    ensures ModulesIn(a + b) == ModulesIn(a) + ModulesIn(b)
    decreases a
  {
    if a != [] {
      assert (a + b)[0] == a[0] && (a + b)[1..] == a[1..] + b;
      ModulesInAppend(a[1..], b);
      ModulesInUnfold(a);
      ModulesInUnfold(a + b);
    } else {
      assert a + b == b;
    }
  }

  /** The offence `ast.walk` meets first: a breadth-first walk that takes
      nodes from the front of `queue` and puts each node's children at the
      back. */
  function FirstOffence(queue: seq<Stmt>, allowed: set<string>): Option<Offence>
    decreases Size(queue)
  {
    if queue == [] then None
    else
      var own := NodeOffence(queue[0], allowed);
      if own.Some? then own
      else
        SizeAppend(queue[1..], Children(queue[0]));
        FirstOffence(queue[1..] + Children(queue[0]), allowed)
  }

  /** The walk finds nothing exactly when every import anywhere in the tree,
      including inside function, class and compound bodies, is allowed; when
      it finds something, that is a disallowed import of the tree. */
  lemma {:induction false} FirstOffenceCorrect(queue: seq<Stmt>, allowed: set<string>)
    ensures FirstOffence(queue, allowed).None? <==> ImportsAllowed(queue, allowed)
    ensures FirstOffence(queue, allowed).Some? ==>
              var m := OffendingModule(FirstOffence(queue, allowed).value);
              m in ModulesIn(queue) && !ModuleAllowed(m, allowed)
    decreases Size(queue)
  {
    if queue != [] {
      var own := NodeOffence(queue[0], allowed);
      if own.None? {
        var next := queue[1..] + Children(queue[0]);
        SizeAppend(queue[1..], Children(queue[0]));
        FirstOffenceCorrect(next, allowed);
        ModulesInAppend(queue[1..], Children(queue[0]));
        assert ModulesIn(queue) == OwnModules(queue[0]) + ModulesIn(next);
      }
    }
  }

  /** A relative `from . import x` has no module and never passes. */
  lemma RelativeImportRejected(names: seq<string>, level: nat, allowed: set<string>)
    ensures FirstOffence([ImportFrom(None, names, level)], allowed) == Some(FromImport(None))
  {
  }

  /** What the import check raises, if anything: the parser's own syntax
      error, or the error for the first disallowed import in breadth-first
      order. */
  function ImportCheck(parsed: ParseResult, allowed: set<string>): (err: Option<Exc>)
    ensures parsed.ParseFailed? ==> err == Some(Exc(SyntaxError, parsed.message))
    ensures parsed.Parsed? ==> (err.None? <==> ImportsAllowed(parsed.body, allowed))
    ensures parsed.Parsed? && err.Some? ==> err.value.cls == ValueError
  {
    match parsed
    case ParseFailed(msg) => Some(Exc(SyntaxError, msg))
    case Parsed(body) =>
      FirstOffenceCorrect(body, allowed);
      match FirstOffence(body, allowed)
      case Some(o) => Some(OffenceError(o))
      case None => None
  }

  /** `_ast_check_no_imports` after parsing: walk the tree breadth-first and
      stop at the first disallowed import, or at a syntax error from the
      parser, which escapes as the parser's own exception. */
  method CheckNoImports(parsed: ParseResult, allowed: set<string>) returns (err: Option<Exc>)
    ensures err == ImportCheck(parsed, allowed)
  {
    if parsed.ParseFailed? {
      return Some(Exc(SyntaxError, parsed.message));
    }
    assert ImportCheck(parsed, allowed) == match FirstOffence(parsed.body, allowed)
                                           case Some(o) => Some(OffenceError(o))
                                           case None => None;
    var todo := parsed.body;
    while todo != []
      invariant FirstOffence(todo, allowed) == FirstOffence(parsed.body, allowed)
      decreases Size(todo)
    {
      var node := todo[0];
      SizeAppend(todo[1..], Children(node));
      todo := todo[1..] + Children(node);
      match node
      case Import(names) =>
        for i := 0 to |names|
          invariant forall j :: 0 <= j < i ==> names[j] in allowed
        {
          if names[i] !in allowed {
            FirstDisallowedAt(names, allowed, i);
            return Some(OffenceError(PlainImport(names[i])));
          }
        }
      case ImportFrom(m, _, _) =>
        if m.None? || m.value !in allowed {
          return Some(OffenceError(FromImport(m)));
        }
      case _ =>
    }
    return None;
  }

  // ---------------------------------------------------------------------
  // The import hook seen by the executed code
  // ---------------------------------------------------------------------

  /** `restricted_import`: the name check it makes before handing over to
      the real `__import__` (the import itself is not modelled). */
  function RestrictedImport(name: string, allowed: set<string>): (err: Option<Exc>)
    ensures err.None? <==> name in allowed
    ensures err.Some? ==> err.value.cls == ImportError
  {
    if name !in allowed then Some(Exc(ImportError, "Importing '" + name + "' is not allowed."))
    else None
  }

  /** Once the tree passed the check, every `import` or `from ... import` it
      contains gets past `restricted_import` with the name it was checked
      under. */
  lemma CheckedImportsPassHook(body: seq<Stmt>, allowed: set<string>)
    requires FirstOffence(body, allowed).None?
    ensures forall m :: m in ModulesIn(body) ==> m.Some? && RestrictedImport(m.value, allowed).None?
  {
    FirstOffenceCorrect(body, allowed);
  }

  // ---------------------------------------------------------------------
  // The top-level sanitiser
  // ---------------------------------------------------------------------

  /** The statements `_sanitize_top_level` keeps: function and class
      definitions, imports, assignments and string-constant expressions
      (docstrings). An `async def` is not among them. */
  predicate Kept(s: Stmt) {
    || s.FunctionDef? || s.ClassDef? || s.Import? || s.ImportFrom?
    || s.Assign? || s.AnnAssign?
    || (s.Expr? && s.value.StrConstant?)
  }

  /** The kept statements of `body`, in their original order. */
  function KeepTopLevel(body: seq<Stmt>): seq<Stmt> {
    if body == [] then []
    else (if Kept(body[0]) then [body[0]] else []) + KeepTopLevel(body[1..])
  }

  lemma {:induction false} KeepTopLevelSnoc(body: seq<Stmt>, s: Stmt)
    ensures KeepTopLevel(body + [s]) == KeepTopLevel(body) + (if Kept(s) then [s] else [])
  {
    if body != [] {
      assert (body + [s])[1..] == body[1..] + [s];
      KeepTopLevelSnoc(body[1..], s);
    }
  }

  /** `r` can be obtained from `s` by deleting elements. */
  predicate IsSubsequence(r: seq<Stmt>, s: seq<Stmt>)
    decreases s
  {
    if r == [] then true
    else if s == [] then false
    else (r[0] == s[0] && IsSubsequence(r[1..], s[1..])) || IsSubsequence(r, s[1..])
  }

  /** The sanitised body is the input with exactly the non-kept statements
      deleted: a subsequence of it, made only of kept statements. Kept
      statements are carried over whole, nested bodies included. */
  lemma {:induction false} KeepTopLevelSubsequence(body: seq<Stmt>)
    ensures IsSubsequence(KeepTopLevel(body), body)
    ensures forall s :: s in KeepTopLevel(body) ==> Kept(s)
  {
    if body != [] {
      KeepTopLevelSubsequence(body[1..]);
      var rest := KeepTopLevel(body[1..]);
      if Kept(body[0]) {
        var r := KeepTopLevel(body);
        assert r[0] == body[0] && r[1..] == rest;
      } else if rest != [] {
        assert KeepTopLevel(body) == rest;
      }
    }
  }

  /** The sanitised body holds each kept statement exactly as often as the
      input does, and no other statement. */
  lemma {:induction false} KeepTopLevelCounts(body: seq<Stmt>)
    ensures forall s :: Kept(s) ==> multiset(KeepTopLevel(body))[s] == multiset(body)[s]
    ensures forall s :: !Kept(s) ==> multiset(KeepTopLevel(body))[s] == 0
  {
    if body != [] {
      KeepTopLevelCounts(body[1..]);
      assert body == [body[0]] + body[1..];
      assert multiset(body) == multiset([body[0]]) + multiset(body[1..]);
    }
  }

  /** Sanitising twice is the same as sanitising once. */
  lemma {:induction false} KeepTopLevelIdempotent(body: seq<Stmt>)
    ensures KeepTopLevel(KeepTopLevel(body)) == KeepTopLevel(body)
  {
    if body != [] {
      KeepTopLevelIdempotent(body[1..]);
      if Kept(body[0]) {
        var k := KeepTopLevel(body);
        assert k == [body[0]] + KeepTopLevel(body[1..]);
        assert k != [] && k[0] == body[0] && k[1..] == KeepTopLevel(body[1..]);
        assert KeepTopLevel(k) == [k[0]] + KeepTopLevel(k[1..]);
      } else {
        assert KeepTopLevel(body) == KeepTopLevel(body[1..]);
      }
    }
  }

  /** Sanitising never introduces an import, so a tree that passed the
      whitelist check still passes it after sanitising. */
  lemma {:induction false} KeepTopLevelModules(body: seq<Stmt>, allowed: set<string>)
    ensures ModulesIn(KeepTopLevel(body)) <= ModulesIn(body)
    ensures ImportsAllowed(body, allowed) ==> ImportsAllowed(KeepTopLevel(body), allowed)
  {
    if body != [] {
      KeepTopLevelModules(body[1..], allowed);
      var head := if Kept(body[0]) then [body[0]] else [];
      ModulesInAppend(head, KeepTopLevel(body[1..]));
      if Kept(body[0]) {
        assert ModulesIn(head) == OwnModules(body[0]) + ModulesIn(Children(body[0])) by {
          assert head[1..] == [];
        }
      }
    }
  }

  /** The `ast.Module` node whose `body` list the sanitiser overwrites. */
  class ModuleNode {
    var body: seq<Stmt>

    constructor (body: seq<Stmt>)
      ensures this.body == body
    {
      this.body := body;
    }
  }

  /** `_sanitize_top_level`: build the list of kept statements in one pass
      and store it as the tree's new body, in place; the same tree is
      returned. */
  method SanitizeTopLevel(tree: ModuleNode) returns (r: ModuleNode)
    modifies tree
    ensures r == tree
    ensures tree.body == KeepTopLevel(old(tree.body))
  {
    var newBody := [];
    var body := tree.body;
    for i := 0 to |body|
      invariant newBody == KeepTopLevel(body[..i])
    {
      assert body[..i + 1] == body[..i] + [body[i]];
      KeepTopLevelSnoc(body[..i], body[i]);
      match body[i]
      case FunctionDef(_, _) => newBody := newBody + [body[i]];
      case ClassDef(_, _) => newBody := newBody + [body[i]];
      case Import(_) => newBody := newBody + [body[i]];
      case ImportFrom(_, _, _) => newBody := newBody + [body[i]];
      case Assign => newBody := newBody + [body[i]];
      case AnnAssign => newBody := newBody + [body[i]];
      case Expr(value) =>
        if value.StrConstant? {
          newBody := newBody + [body[i]];
        }
      case _ =>
    }
    assert body[..|body|] == body;
    tree.body := newBody;
    return tree;
  }
}
