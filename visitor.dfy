/** The method extractor as the program runs it: `Method` objects whose qualified name is
    rewritten in place as class frames unwind, collected by a visitor over the tree. */
module Visitor {
  import opened Wrappers
  import opened Text
  import opened Syntax

  /** One function or method found in a source file. Only `fullName` ever changes. */
  class Method {
    const filePath: string
    const node: Stmt
    const src: string
    const name: string
    var fullName: string

    constructor (path: string, name: string, node: Stmt, src: string)
      ensures filePath == path && this.node == node && this.name == name
      ensures this.src == Strip(src) && fullName == name
    {
      filePath := path;
      this.node := node;
      this.src := Strip(src);
      this.name := name;
      fullName := name;
    }

    /** `extend_path`: puts `prefix` and the separator in front of the qualified name. */
    method ExtendPath(prefix: string, separator: string)
      modifies this
      ensures fullName == prefix + separator + old(fullName)
    {
      fullName := prefix + separator + fullName;
    }

    /** `get_source`: the method's own text cut out of the file, or `None` when the
        segment lookup fails. */
    function GetSource(segment: (string, Stmt) -> Option<string>): (r: Option<string>)
      reads this
      ensures r == segment(View().src, View().node)
    {
      segment(src, node)
    }

    function View(): MethodView
      reads this
    {
      MethodView(filePath, name, fullName, node, src)
    }
  }

  /** The values of a list of `Method` objects. */
  function Views(ms: seq<Method>): (r: seq<MethodView>)
    reads ms
    ensures |r| == |ms| && forall i :: 0 <= i < |ms| ==> r[i] == ms[i].View()
  {
    seq(|ms|, i requires 0 <= i < |ms| reads ms => ms[i].View())
  }

  /** The qualified names of a list of `Method` objects. */
  function FullNames(ms: seq<Method>): (r: seq<string>)
    reads ms
    ensures |r| == |ms| && forall i :: 0 <= i < |ms| ==> r[i] == ms[i].fullName
  {
    seq(|ms|, i requires 0 <= i < |ms| reads ms => ms[i].fullName)
  }

  predicate Distinct<T(==)>(s: seq<T>) {
    forall i, j :: 0 <= i < j < |s| ==> s[i] != s[j]
  }

  lemma ViewsAppend(a: seq<Method>, b: seq<Method>)
    ensures Views(a + b) == Views(a) + Views(b)
  {
  }

  lemma DistinctAppend<T>(a: seq<T>, b: seq<T>)
    requires Distinct(a) && Distinct(b)
    requires forall x, y :: x in a && y in b ==> x != y
    ensures Distinct(a + b)
  {
    forall i, j | 0 <= i < j < |a + b|
      ensures (a + b)[i] != (a + b)[j]
    {
      if j < |a| {
      } else if i >= |a| {
        assert (a + b)[i] == b[i - |a|] && (a + b)[j] == b[j - |a|];
      } else {
        assert (a + b)[i] in a && (a + b)[j] in b;
      }
    }
  }

  /** One round of the renaming loop of `visit_ClassDef`: method `k` gets the class name
      in front; the others, being other objects, keep their names. */
  method QualifyAt(methods: seq<Method>, k: nat, prefix: string, ghost before: seq<MethodView>)
    requires k < |methods| == |before| && Distinct(methods)
    requires forall j :: 0 <= j < k ==> methods[j].View() == Qualify(prefix, before[j])
    requires forall j :: k <= j < |methods| ==> methods[j].View() == before[j]
    modifies methods[k]
    ensures forall j :: 0 <= j < k + 1 ==> methods[j].View() == Qualify(prefix, before[j])
    ensures forall j :: k + 1 <= j < |methods| ==> methods[j].View() == before[j]
  {
    methods[k].ExtendPath(prefix, ".");
  }

  /** `ASTMethodExtractor`: a visitor bound to one file's path and text. */
  class MethodExtractor {
    const filePath: string
    const src: string

    constructor (path: string, src: string)
      ensures filePath == path && this.src == src
    {
      filePath := path;
      this.src := src;
    }

    /** `visit_Module`: the methods of every top-level statement, in order. */
    method VisitModule(m: Module) returns (methods: seq<Method>)
      ensures Distinct(methods) && forall x :: x in methods ==> fresh(x)
      ensures Views(methods) == VisitBody(filePath, src, m.body)
    {
      methods := VisitStatements(m.body);
    }

    /** The loop shared by `visit_Module` and `visit_ClassDef`: visits each statement of a
        body and appends whatever it returns. */
    method VisitStatements(body: seq<Stmt>) returns (methods: seq<Method>)
      decreases body, 0
      ensures Distinct(methods) && forall x :: x in methods ==> fresh(x)
      ensures Views(methods) == VisitBody(filePath, src, body)
    {
      methods := [];
      for i := 0 to |body|
        invariant Distinct(methods) && forall x :: x in methods ==> fresh(x)
        invariant Views(methods) == VisitBody(filePath, src, body[..i])
      {
        assert body[..i + 1][..i] == body[..i];
        assert VisitBody(filePath, src, body[..i + 1])
            == VisitBody(filePath, src, body[..i]) + VisitStmt(filePath, src, body[i]);
        var result := Visit(body[i]);
        DistinctAppend(methods, result);
        ViewsAppend(methods, result);
        methods := methods + result;
      }
      assert body[..|body|] == body;
    }

    /** `NodeVisitor.visit`: dispatches on the node kind. Other statements go to
        `generic_visit`, which returns nothing. */
    method Visit(st: Stmt) returns (methods: seq<Method>)
      decreases st, 2
      ensures Distinct(methods) && forall x :: x in methods ==> fresh(x)
      ensures Views(methods) == VisitStmt(filePath, src, st)
    {
      match st
      case FunctionDef(_, _, _) =>
        methods := VisitFunctionDef(st);
      case ClassDef(_, _) =>
        methods := VisitClassDef(st);
      case Other(_) =>
        methods := [];
    }

    /** `visit_ClassDef`: collects the body's methods, then prefixes the class name onto
        each of them in place. */
    method VisitClassDef(node: Stmt) returns (methods: seq<Method>)
      requires node.ClassDef?
      decreases node, 1
      ensures Distinct(methods) && forall x :: x in methods ==> fresh(x)
      ensures Views(methods) == VisitStmt(filePath, src, node)
    {
      methods := VisitStatements(node.body);
      ghost var before := Views(methods);
      for k := 0 to |methods|
        invariant forall x :: x in methods ==> fresh(x)
        invariant forall j :: 0 <= j < k ==> methods[j].View() == Qualify(node.name, before[j])
        invariant forall j :: k <= j < |methods| ==> methods[j].View() == before[j]
      {
        assert methods[k] in methods;
        QualifyAt(methods, k, node.name, before);
      }
      assert Views(methods) == QualifyAll(node.name, before);
    }

    /** `visit_FunctionDef`: the function itself, as a new `Method`; its body is not visited. */
    method VisitFunctionDef(node: Stmt) returns (methods: seq<Method>)
      requires node.FunctionDef?
      ensures Distinct(methods) && forall x :: x in methods ==> fresh(x)
      ensures Views(methods) == VisitStmt(filePath, src, node)
    {
      var m := new Method(filePath, node.name, node, src);
      methods := [m];
    }
  }

  /** What `_extract_methods` returns, as values: nothing when there is no text or it does
      not parse, otherwise the methods of the parsed module. */
  function ExtractedViews(path: string, src: Option<string>, parse: string -> Option<Module>): seq<MethodView> {
    match src
    case None => []
    case Some(text) =>
      match parse(text)
      case None => []
      case Some(m) => VisitBody(path, text, m.body)
  }

  /** `_extract_methods`: parses the text and visits the module. Absent text (`None`) makes
      `ast.parse` raise just as a syntax error does; both are caught and give no methods. */
  method ExtractMethods(path: string, src: Option<string>, parse: string -> Option<Module>) returns (methods: seq<Method>)
    ensures Distinct(methods) && forall x :: x in methods ==> fresh(x)
    ensures Views(methods) == ExtractedViews(path, src, parse)
  {
    if src.None? {
      return [];
    }
    var tree := parse(src.value);
    if tree.None? {
      return [];
    }
    var extractor := new MethodExtractor(path, src.value);
    methods := extractor.VisitModule(tree.value);
  }
}
