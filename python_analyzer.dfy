/**
 * The class and method outline that `PythonAnalyzer` extracts from a parsed
 * Python module. The syntax tree is an input: producing it (`ast.parse`) is
 * not part of this model, and a tree that failed to parse is `None`.
 */
module PythonAnalyzer {
  import opened Text
  import opened Seqs
  import opened Outcomes

  /** The decorator expressions the analyzer tells apart; `OtherExpr` carries the text `ast.dump` would give. */
  datatype Expr =
    | Name(id: string)
    | Attribute(value: Expr, attr: string)
    | Call(func: Expr, args: seq<Expr>)
    | OtherExpr(dump: string)

  /** The statements the analyzer tells apart; every other statement is `OtherStmt`. */
  datatype Stmt =
    | ClassDef(name: string, body: seq<Stmt>)
    | FunctionDef(name: string, lineno: nat, decoratorList: seq<Expr>)
    | AsyncFunctionDef(name: string, lineno: nat, decoratorList: seq<Expr>)
    | OtherStmt

  /** One entry of a class's method list: name, line and decorator names. */
  datatype MethodInfo = MethodInfo(name: string, lineno: nat, decorators: seq<string>)

  /** The outline: class name to its methods. */
  type Outline = map<string, seq<MethodInfo>>

  // ---------------------------------------------------------------------
  // Decorator names
  // ---------------------------------------------------------------------

  /** The names along an attribute chain, root first; a root that is not a `Name` contributes nothing. */
  function ChainParts(e: Expr): seq<string>
  {
    match e
    case Name(id) => [id]
    case Attribute(value, attr) => ChainParts(value) + [attr]
    case _ => []
  }

  /** The readable name of a decorator expression. */
  function DecoratorName(d: Expr): string
  {
    match d
    case Name(id) => id
    case Attribute(_, _) => Join(ChainParts(d), ".")
    case Call(func, _) => DecoratorName(func)
    case OtherExpr(dump) => dump
  }

  /** `root.a1.….ak`: the attribute chain over `root` with the names `attrs`. */
  function AttributeChain(root: Expr, attrs: seq<string>): Expr
  {
    if |attrs| == 0 then root
    else Attribute(AttributeChain(root, attrs[..|attrs| - 1]), attrs[|attrs| - 1])
  }

  /** `_get_decorator_name`: climbs the attribute chain collecting names, then joins them reversed. */
  method GetDecoratorName(d: Expr) returns (name: string)
    ensures name == DecoratorName(d)
    decreases d
  {
    match d {
      case Name(id) =>
        name := id;
      case Attribute(_, _) =>
        var parts: seq<string> := [];
        var node := d;
        while node.Attribute?
          invariant ChainParts(d) == ChainParts(node) + Reverse(parts)
          decreases node
        {
          ReverseSnoc(parts, node.attr);
          parts := parts + [node.attr];
          node := node.value;
        }
        if node.Name? {
          ReverseSnoc(parts, node.id);
          parts := parts + [node.id];
        } else {
          assert ChainParts(node) == [];
          assert ChainParts(node) + Reverse(parts) == Reverse(parts);
        }
        assert ChainParts(d) == Reverse(parts);
        name := Join(Reverse(parts), ".");
      case Call(func, _) =>
        name := GetDecoratorName(func);
      case OtherExpr(dump) =>
        name := dump;
    }
  }

  lemma ReverseSnoc(s: seq<string>, x: string)
    ensures Reverse(s + [x]) == [x] + Reverse(s)
  {
    assert (s + [x])[..|s|] == s;
  }

  /** The decorator names of a whole decorator list, in order. */
  method DecoratorNames(list: seq<Expr>) returns (names: seq<string>)
    ensures names == Map(list, DecoratorName)
  {
    names := [];
    var i := 0;
    while i < |list|
      invariant 0 <= i <= |list|
      invariant names == Map(list[..i], DecoratorName)
    {
      var n := GetDecoratorName(list[i]);
      MapSnoc(list, i, DecoratorName);
      names := names + [n];
      i := i + 1;
    }
    assert list[..i] == list;
  }

  /** The chain over `root` lists the root's own parts, then the attribute names in source order. */
  lemma {:induction false} ChainPartsOfChain(root: Expr, attrs: seq<string>)
    ensures ChainParts(AttributeChain(root, attrs)) == ChainParts(root) + attrs
    decreases |attrs|
  {
    if |attrs| > 0 {
      var init := attrs[..|attrs| - 1];
      ChainPartsOfChain(root, init);
      assert init + [attrs[|attrs| - 1]] == attrs;
    }
  }

  /**
   * A dotted decorator `@n0.n1.….nk` is named by its parts joined with dots,
   * also when it is called with arguments (`@n0.….nk(args)`).
   */
  lemma DottedDecoratorName(names: seq<string>, args: seq<Expr>)
    requires |names| >= 1
    ensures DecoratorName(AttributeChain(Name(names[0]), names[1..])) == Join(names, ".")
    ensures DecoratorName(Call(AttributeChain(Name(names[0]), names[1..]), args)) == Join(names, ".")
  {
    var e := AttributeChain(Name(names[0]), names[1..]);
    ChainPartsOfChain(Name(names[0]), names[1..]);
    assert [names[0]] + names[1..] == names;
    if |names| == 1 {
      assert e == Name(names[0]);
    } else {
      assert e.Attribute?;
    }
  }

  /** The name of a dotted decorator splits back into the names it was built from. */
  lemma DottedNameRoundTrip(names: seq<string>)
    requires |names| >= 1
    requires forall i :: 0 <= i < |names| ==> '.' !in names[i]
    ensures Split(DecoratorName(AttributeChain(Name(names[0]), names[1..])), '.') == names
  {
    DottedDecoratorName(names, []);
    SplitJoin(names, '.');
  }

  /** An attribute chain over a root that is not a `Name` (a call, a subscript, ...) loses the root. */
  lemma ChainOverOtherRoot(root: Expr, attrs: seq<string>)
    requires !root.Name? && !root.Attribute?
    requires |attrs| >= 1
    ensures DecoratorName(AttributeChain(root, attrs)) == Join(attrs, ".")
  {
    ChainPartsOfChain(root, attrs);
    assert ChainParts(root) == [];
    assert [] + attrs == attrs;
  }

  // ---------------------------------------------------------------------
  // Class outline
  // ---------------------------------------------------------------------

  /** The method-list entry one class-body statement contributes: only a plain `def` counts. */
  function MethodEntry(item: Stmt): seq<MethodInfo>
  {
    if item.FunctionDef? then [MethodInfo(item.name, item.lineno, Map(item.decoratorList, DecoratorName))] else []
  }

  /** The method list of a class body, in source order. */
  function Methods(body: seq<Stmt>): seq<MethodInfo>
  {
    FlatMap(body, MethodEntry)
  }

  /** The outline of a module body: each top-level class, a later class replacing an earlier one of the same name. */
  function Classes(tree: seq<Stmt>): Outline
  {
    if |tree| == 0 then map[]
    else
      var node := tree[|tree| - 1];
      var earlier := Classes(tree[..|tree| - 1]);
      if node.ClassDef? then earlier[node.name := Methods(node.body)] else earlier
  }

  /** The method list of one class body. */
  method ClassMethods(body: seq<Stmt>) returns (methods: seq<MethodInfo>)
    ensures methods == Methods(body)
  {
    methods := [];
    var j := 0;
    while j < |body|
      invariant 0 <= j <= |body|
      invariant methods == Methods(body[..j])
    {
      var item := body[j];
      if item.FunctionDef? {
        var decorators := DecoratorNames(item.decoratorList);
        methods := methods + [MethodInfo(item.name, item.lineno, decorators)];
      }
      FlatMapSnoc(body, j, MethodEntry);
      j := j + 1;
    }
    assert body[..j] == body;
  }

  /** `parse_source`, from the parsed module body on. */
  method ParseSource(tree: seq<Stmt>) returns (classes: Outline)
    ensures classes == Classes(tree)
  {
    classes := map[];
    var i := 0;
    while i < |tree|
      invariant 0 <= i <= |tree|
      invariant classes == Classes(tree[..i])
    {
      var node := tree[i];
      if node.ClassDef? {
        var methods := ClassMethods(node.body);
        classes := classes[node.name := methods];
      }
      assert tree[..i + 1][..i] == tree[..i];
      i := i + 1;
    }
    assert tree[..i] == tree;
  }

  /**
   * What `parse_file` gives: a missing file is `FileNotFound`, text that does
   * not parse (`tree == None`) is `SyntaxError`, otherwise the outline.
   */
  function ParsedFile(path: string, fileExists: bool, tree: Option<seq<Stmt>>): Result<Outline>
  {
    if !fileExists then Failure(FileNotFound(path))
    else if tree.None? then Failure(SyntaxError(path))
    else Success(Classes(tree.value))
  }

  /** `parse_file`: the existence check comes first, then parsing. */
  method ParseFile(path: string, fileExists: bool, tree: Option<seq<Stmt>>) returns (r: Result<Outline>)
    ensures r == ParsedFile(path, fileExists, tree)
    ensures r.Failure? <==> !fileExists || tree.None?
  {
    if !fileExists {
      return Failure(FileNotFound(path));
    }
    if tree.None? {
      return Failure(SyntaxError(path));
    }
    var classes := ParseSource(tree.value);
    return Success(classes);
  }

  /** The outline's keys are exactly the names of the top-level classes. */
  lemma {:induction false} ClassesKeys(tree: seq<Stmt>, n: string)
    ensures n in Classes(tree) <==>
      exists i :: 0 <= i < |tree| && tree[i].ClassDef? && tree[i].name == n
  {
    if |tree| > 0 {
      var init := tree[..|tree| - 1];
      ClassesKeys(init, n);
      if n in Classes(init) {
        var i :| 0 <= i < |init| && init[i].ClassDef? && init[i].name == n;
        assert tree[i] == init[i];
      }
      if exists i :: 0 <= i < |tree| && tree[i].ClassDef? && tree[i].name == n {
        var i :| 0 <= i < |tree| && tree[i].ClassDef? && tree[i].name == n;
        if i < |tree| - 1 {
          assert init[i] == tree[i];
        }
      }
    }
  }

  /** A class's entry holds the methods of the last top-level class of that name. */
  lemma {:induction false} ClassesLastWins(tree: seq<Stmt>, i: nat)
    requires i < |tree| && tree[i].ClassDef?
    requires forall k :: i < k < |tree| ==> !(tree[k].ClassDef? && tree[k].name == tree[i].name)
    ensures tree[i].name in Classes(tree)
    ensures Classes(tree)[tree[i].name] == Methods(tree[i].body)
    decreases |tree|
  {
    if i < |tree| - 1 {
      var init := tree[..|tree| - 1];
      forall k | i < k < |init|
        ensures !(init[k].ClassDef? && init[k].name == init[i].name)
      {
        assert init[k] == tree[k];
      }
      ClassesLastWins(init, i);
    }
  }

  /** Two top-level classes with the same name leave one key, holding the later body. */
  lemma SameNameCollapses(n: string, first: seq<Stmt>, second: seq<Stmt>)
    ensures Classes([ClassDef(n, first), ClassDef(n, second)]) == map[n := Methods(second)]
  {
    var tree := [ClassDef(n, first), ClassDef(n, second)];
    assert tree[..1] == [ClassDef(n, first)];
    assert tree[..1][..0] == [];
    assert Classes(tree[..1]) == map[n := Methods(first)];
    assert map[n := Methods(first)][n := Methods(second)] == map[n := Methods(second)];
  }

  /** A method-list entry comes from a plain `def` of the body, and every plain `def` gives one. */
  lemma MethodsMembership(body: seq<Stmt>, m: MethodInfo)
    ensures m in Methods(body) <==>
      exists i :: 0 <= i < |body| && body[i].FunctionDef? && m == MethodInfo(body[i].name, body[i].lineno, Map(body[i].decoratorList, DecoratorName))
  {
    FlatMapMembership(body, MethodEntry, m);
    if m in Methods(body) {
      var i :| 0 <= i < |body| && m in MethodEntry(body[i]);
      assert body[i].FunctionDef?;
    }
  }

  /** The method list follows the class body: the methods of a split body are the two lists in order. */
  lemma MethodsInSourceOrder(first: seq<Stmt>, second: seq<Stmt>)
    ensures Methods(first + second) == Methods(first) + Methods(second)
  {
    FlatMapAppend(first, second, MethodEntry);
  }

  /** Async methods, nested classes and other statements add nothing to a class's method list. */
  lemma OnlyPlainDefsCount(body: seq<Stmt>, item: Stmt)
    requires !item.FunctionDef?
    ensures Methods(body + [item]) == Methods(body)
  {
    FlatMapAppend(body, [item], MethodEntry);
    assert [item][..0] == [];
  }
}
