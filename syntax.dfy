/** The syntax tree the method extractor walks, and what extraction yields, stated as
    values: once as the visitor computes it (names prefixed as nesting unwinds) and once
    as a top-down reference (each function with the path of classes around it). */
module Syntax {
  import opened Text

  /** A Python statement, as far as method extraction tells statements apart. `Other`
      stands for every other statement kind (`if`, `with`, `async def`, ...) with the
      statements nested in it. */
  datatype Stmt =
    | FunctionDef(name: string, lineno: nat, body: seq<Stmt>)
    | ClassDef(name: string, body: seq<Stmt>)
    | Other(children: seq<Stmt>)

  /** The root node that `ast.parse(src, mode='exec')` returns. */
  datatype Module = Module(body: seq<Stmt>)

  /** The fields of one `Method` object: the file it came from, its bare and qualified
      names, its `FunctionDef` node and the stripped text of the whole file. */
  datatype MethodView = MethodView(filePath: string, name: string, fullName: string, node: Stmt, src: string)

  /** `extend_path(prefix)` applied to one method. */
  function Qualify(prefix: string, m: MethodView): MethodView {
    m.(fullName := prefix + "." + m.fullName)
  }

  function QualifyAll(prefix: string, ms: seq<MethodView>): seq<MethodView> {
    seq(|ms|, i requires 0 <= i < |ms| => Qualify(prefix, ms[i]))
  }

  /** What `Method(path, node.name, node, src)` holds right after construction. */
  function NewMethod(path: string, src: string, node: Stmt): MethodView
    requires node.FunctionDef?
  {
    MethodView(path, node.name, node.name, node, Strip(src))
  }

  /** The methods the visitor returns for one statement: a function yields itself (its
      own body is not visited), a class yields its body's methods with its name put in
      front, any other statement yields nothing. */
  function VisitStmt(path: string, src: string, st: Stmt): (r: seq<MethodView>)
    decreases st
    ensures forall m :: m in r ==> m.node.FunctionDef? && m.name == m.node.name
    ensures forall m :: m in r ==> EndsWith(m.fullName, m.name) && m.filePath == path && m.src == Strip(src)
  {
    match st
    case FunctionDef(_, _, _) => [NewMethod(path, src, st)]
    case ClassDef(name, body) =>
      var inner := VisitBody(path, src, body);
      var r := QualifyAll(name, inner);
      forall j | 0 <= j < |r|
        ensures EndsWith(r[j].fullName, r[j].name)
      {
        assert inner[j] in inner;
        EndsWithUnderPrefix(name + ".", inner[j].fullName, inner[j].name);
      }
      r
    case Other(_) => []
  }

  /** The methods the visitor collects from a module or class body, in statement order. */
  function VisitBody(path: string, src: string, body: seq<Stmt>): (r: seq<MethodView>)
    decreases body
    ensures forall m :: m in r ==> m.node.FunctionDef? && m.name == m.node.name
    ensures forall m :: m in r ==> EndsWith(m.fullName, m.name) && m.filePath == path && m.src == Strip(src)
  {
    if body == [] then []
    else VisitBody(path, src, body[..|body| - 1]) + VisitStmt(path, src, body[|body| - 1])
  }

  /** The reference reading of extraction: every function that stands directly in the
      module body or in a (possibly nested) class body, in source order, named by the
      classes around it, outermost first, followed by its own name. */
  function ScopedStmt(path: string, src: string, scope: seq<string>, st: Stmt): seq<MethodView>
    decreases st
  {
    match st
    case FunctionDef(name, _, _) => [MethodView(path, name, Dotted(scope + [name]), st, Strip(src))]
    case ClassDef(name, body) => ScopedBody(path, src, scope + [name], body)
    case Other(_) => []
  }

  function ScopedBody(path: string, src: string, scope: seq<string>, body: seq<Stmt>): seq<MethodView>
    decreases body
  {
    if body == [] then []
    else ScopedBody(path, src, scope, body[..|body| - 1]) + ScopedStmt(path, src, scope, body[|body| - 1])
  }

  lemma QualifyAllAppend(prefix: string, a: seq<MethodView>, b: seq<MethodView>)
    ensures QualifyAll(prefix, a + b) == QualifyAll(prefix, a) + QualifyAll(prefix, b)
  {
  }

  /** Opening one more class scope on the outside is the same as prefixing that class's
      name onto every method found inside. */
  lemma {:induction false} ScopedUnderClass(path: string, src: string, c: string, scope: seq<string>, st: Stmt)
    ensures ScopedStmt(path, src, [c] + scope, st) == QualifyAll(c, ScopedStmt(path, src, scope, st))
    decreases st
  {
    match st
    case FunctionDef(name, _, _) =>
      assert ([c] + scope + [name])[1..] == scope + [name];
    case ClassDef(name, body) =>
      assert [c] + scope + [name] == [c] + (scope + [name]);
      ScopedBodyUnderClass(path, src, c, scope + [name], body);
    case Other(_) =>
  }

  lemma {:induction false} ScopedBodyUnderClass(path: string, src: string, c: string, scope: seq<string>, body: seq<Stmt>)
    ensures ScopedBody(path, src, [c] + scope, body) == QualifyAll(c, ScopedBody(path, src, scope, body))
    decreases body
  {
    if body != [] {
      ScopedBodyUnderClass(path, src, c, scope, body[..|body| - 1]);
      ScopedUnderClass(path, src, c, scope, body[|body| - 1]);
      QualifyAllAppend(c, ScopedBody(path, src, scope, body[..|body| - 1]), ScopedStmt(path, src, scope, body[|body| - 1]));
    }
  }

  /** The visitor's bottom-up prefixing yields exactly the reference names: each method is
      named by its enclosing classes, outermost first, then its own name, joined by `.`. */
  lemma {:induction false} VisitStmtIsScoped(path: string, src: string, st: Stmt)
    ensures VisitStmt(path, src, st) == ScopedStmt(path, src, [], st)
    decreases st
  {
    match st
    case FunctionDef(name, _, _) =>
      assert [] + [name] == [name];
    case ClassDef(name, body) =>
      VisitBodyIsScoped(path, src, body);
      ScopedBodyUnderClass(path, src, name, [], body);
      assert [] + [name] == [name] + [];
    case Other(_) =>
  }

  lemma {:induction false} VisitBodyIsScoped(path: string, src: string, body: seq<Stmt>)
    ensures VisitBody(path, src, body) == ScopedBody(path, src, [], body)
    decreases body
  {
    if body != [] {
      VisitBodyIsScoped(path, src, body[..|body| - 1]);
      VisitStmtIsScoped(path, src, body[|body| - 1]);
    }
  }

  /** A class `Outer` holding a class `Inner` holding `def run` yields one method,
      named `Outer.Inner.run`. */
  lemma NestedClassName(path: string, src: string)
    ensures var run := FunctionDef("run", 3, []);
            VisitBody(path, src, [ClassDef("Outer", [ClassDef("Inner", [run])])])
              == [MethodView(path, "run", "Outer.Inner.run", run, Strip(src))]
  {
    var run := FunctionDef("run", 3, []);
    var inner := ClassDef("Inner", [run]);
    var outer := ClassDef("Outer", [inner]);
    var m := NewMethod(path, src, run);
    assert VisitBody(path, src, [run]) == [m];
    assert VisitStmt(path, src, inner) == [Qualify("Inner", m)];
    assert VisitBody(path, src, [inner]) == [Qualify("Inner", m)];
    assert VisitStmt(path, src, outer) == [Qualify("Outer", Qualify("Inner", m))];
    assert "Outer" + "." + ("Inner" + "." + "run") == "Outer.Inner.run";
  }
}
