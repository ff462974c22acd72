/**
 * `PybindCppGenerator.generate_cpp_code`: the pybind11 stub for the single
 * class of a Python file. The text is built piece by piece; a stub is the
 * concatenation of its pieces. The registration block walks an unordered
 * set, so the stub is specified for every enumeration of that set.
 */
module PybindStub {
  import opened Text
  import opened Seqs
  import opened Outcomes
  import opened PythonAnalyzer

  /** A special method: its name starts and ends with two underscores (`"__"` alone counts). */
  predicate IsDunder(name: string)
  {
    StartsWith(name, "__") && EndsWith(name, "__")
  }

  const Preamble: seq<string> := [
    "#include <pybind11/numpy.h>\n",
    "#include <pybind11/pybind11.h>\n\n",
    "namespace py = pybind11;\n\n",
    "void initialize(void) {}\n\n"
  ]

  function ClassComment(className: string): string
  {
    "// Class: " + className + "\n"
  }

  function MethodComment(name: string): string
  {
    "// Method: " + name + "\n"
  }

  /** The empty C++ function standing in for a method. */
  function MethodStub(name: string): string
  {
    "void " + name + "(void) {}\n\n"
  }

  function ModuleOpen(moduleName: string): string
  {
    "PYBIND11_MODULE(" + moduleName + ", m) {\n"
  }

  const InitRegistration: string := "    m.def(\"initialize\", &initialize, \"Initialize the module\");\n"

  /** The `m.def` line exporting the stub of one method. */
  function Registration(name: string): string
  {
    "    m.def(\"" + name + "\", &" + name + ", \"" + name + " method\");\n"
  }

  const ModuleClose: string := "}\n"

  /** The names a method contributes to the export set: none for a special method. */
  function ExportedName(m: MethodInfo): seq<string>
  {
    if IsDunder(m.name) then [] else [m.name]
  }

  /** The exported method names, one per method occurrence, in class order. */
  function ExportedNames(methods: seq<MethodInfo>): seq<string>
  {
    FlatMap(methods, ExportedName)
  }

  function Elems(s: seq<string>): set<string>
  {
    set x | x in s
  }

  /** The set of names the registration block exports. */
  function ExportedSet(methods: seq<MethodInfo>): set<string>
  {
    Elems(ExportedNames(methods))
  }

  /** The comment and stub a method contributes: none for a special method. */
  function Definition(m: MethodInfo): seq<string>
  {
    if IsDunder(m.name) then [] else [MethodComment(m.name), MethodStub(m.name)]
  }

  function Definitions(methods: seq<MethodInfo>): seq<string>
  {
    FlatMap(methods, Definition)
  }

  /** The registration block, with the exported names in the order `order`. */
  function Registrations(order: seq<string>): seq<string>
  {
    [InitRegistration] + Map(order, Registration)
  }

  /** The pieces of the stub for class `className`, registering the names in the order `order`. */
  function StubPieces(className: string, methods: seq<MethodInfo>, moduleName: string, order: seq<string>): seq<string>
  {
    Preamble + [ClassComment(className)] + Definitions(methods) + [ModuleOpen(moduleName)] + Registrations(order) + [ModuleClose]
  }

  /** `order` lists every element of `names` exactly once. */
  predicate Enumerates(order: seq<string>, names: set<string>)
  {
    NoDuplicates(order) && Elems(order) == names
  }

  /** `text` is the stub for the class, for some iteration order of the export set. */
  ghost predicate IsStubFor(text: string, className: string, methods: seq<MethodInfo>, moduleName: string)
  {
    exists order :: Enumerates(order, ExportedSet(methods)) && text == Concat(StubPieces(className, methods, moduleName, order))
  }

  /** The class the stub is generated for, or the error raised instead. */
  ghost function StubSource(path: string, fileExists: bool, tree: Option<seq<Stmt>>): Result<(string, seq<MethodInfo>)>
  {
    match ParsedFile(path, fileExists, tree)
    case Failure(e) => Failure(e)
    case Success(classes) =>
      if |classes| == 0 then Failure(NoClasses(path))
      else if |classes| > 1 then Failure(MultipleClasses(path))
      else
        var c :| c in classes;
        Success((c, classes[c]))
  }

  /** A map holding two distinct keys has at least two entries. */
  lemma TwoKeys(classes: Outline, c: string, d: string)
    requires c in classes && d in classes && c != d
    ensures |classes| >= 2
  {
    var rest := classes.Keys - {c};
    assert d in rest;
    assert classes.Keys == rest + {c};
    assert |rest| >= 1;
  }

  /**
   * `generate_cpp_code` without the file write: the stub text, or the error
   * raised for a missing file, a syntax error, no class or several classes.
   */
  method GenerateCppCode(path: string, fileExists: bool, tree: Option<seq<Stmt>>, moduleName: string) returns (r: Result<string>)
    ensures StubSource(path, fileExists, tree).Failure? ==> r == Failure(StubSource(path, fileExists, tree).error)
    ensures StubSource(path, fileExists, tree).Success? ==>
      r.Success? && IsStubFor(r.value, StubSource(path, fileExists, tree).value.0, StubSource(path, fileExists, tree).value.1, moduleName)
  {
    var classes :- ParseFile(path, fileExists, tree);
    if |classes| == 0 {
      return Failure(NoClasses(path));
    }
    if |classes| > 1 {
      return Failure(MultipleClasses(path));
    }
    // The loop over the classes runs exactly once.
    var className :| className in classes;
    var methods := classes[className];
    ghost var source := StubSource(path, fileExists, tree);
    if className != source.value.0 {
      TwoKeys(classes, className, source.value.0);
    }

    var codeText;
    ghost var pieces;
    codeText, pieces := EmitPreamble();
    codeText, pieces := Emit(codeText, pieces, ClassComment(className));
    var methodNames;
    codeText, pieces, methodNames := EmitDefinitions(codeText, pieces, methods);
    codeText, pieces := Emit(codeText, pieces, ModuleOpen(moduleName));
    ghost var head := pieces;
    codeText, pieces := Emit(codeText, pieces, InitRegistration);
    ghost var order;
    codeText, pieces, order := EmitRegistrations(codeText, pieces, methodNames);
    AppendAssoc(head, [InitRegistration], Map(order, Registration));
    codeText, pieces := Emit(codeText, pieces, ModuleClose);
    assert pieces == StubPieces(className, methods, moduleName, order);
    return Success(codeText);
  }

  /** The four fixed lines that open every stub. */
  method EmitPreamble() returns (codeText: string, ghost pieces: seq<string>)
    ensures pieces == Preamble
    ensures codeText == Concat(pieces)
  {
    codeText, pieces := "", [];
    codeText, pieces := Emit(codeText, pieces, "#include <pybind11/numpy.h>\n");
    codeText, pieces := Emit(codeText, pieces, "#include <pybind11/pybind11.h>\n\n");
    codeText, pieces := Emit(codeText, pieces, "namespace py = pybind11;\n\n");
    codeText, pieces := Emit(codeText, pieces, "void initialize(void) {}\n\n");
  }

  /** One `code_text +=`. */
  method Emit(codeText: string, ghost pieces: seq<string>, piece: string) returns (codeText': string, ghost pieces': seq<string>)
    requires codeText == Concat(pieces)
    ensures pieces' == pieces + [piece]
    ensures codeText' == Concat(pieces')
  {
    ConcatSnoc(pieces, piece);
    codeText' := codeText + piece;
    pieces' := pieces + [piece];
  }

  lemma ElemsAppend(a: seq<string>, b: seq<string>)
    ensures Elems(a + b) == Elems(a) + Elems(b)
  {
  }

  /** What one method adds to the definitions and to the export set. */
  lemma DefinitionStep(methods: seq<MethodInfo>, j: nat)
    requires j < |methods|
    ensures Definitions(methods[..j + 1]) == Definitions(methods[..j]) + Definition(methods[j])
    ensures ExportedSet(methods[..j + 1]) == ExportedSet(methods[..j]) + Elems(ExportedName(methods[j]))
  {
    FlatMapSnoc(methods, j, Definition);
    FlatMapSnoc(methods, j, ExportedName);
    ElemsAppend(ExportedNames(methods[..j]), ExportedName(methods[j]));
  }

  /** The comment and the stub of one method. */
  method EmitMethod(codeText: string, ghost pieces: seq<string>, ghost defs: seq<string>, ghost head: seq<string>, name: string)
    returns (codeText': string, ghost pieces': seq<string>)
    requires codeText == Concat(pieces) && pieces == head + defs
    ensures pieces' == head + (defs + [MethodComment(name), MethodStub(name)])
    ensures codeText' == Concat(pieces')
  {
    codeText', pieces' := Emit(codeText, pieces, MethodComment(name));
    codeText', pieces' := Emit(codeText', pieces', MethodStub(name));
    AppendAssoc(head, defs, [MethodComment(name)]);
    AppendAssoc(head, defs + [MethodComment(name)], [MethodStub(name)]);
    assert defs + [MethodComment(name)] + [MethodStub(name)] == defs + [MethodComment(name), MethodStub(name)];
  }

  /** The method loop: a comment and a stub per non-special method, collecting the export set. */
  method EmitDefinitions(codeText: string, ghost pieces: seq<string>, methods: seq<MethodInfo>)
    returns (codeText': string, ghost pieces': seq<string>, methodNames: set<string>)
    requires codeText == Concat(pieces)
    ensures pieces' == pieces + Definitions(methods)
    ensures codeText' == Concat(pieces')
    ensures methodNames == ExportedSet(methods)
  {
    codeText', pieces', methodNames := codeText, pieces, {};
    assert pieces + [] == pieces;
    var j := 0;
    while j < |methods|
      invariant 0 <= j <= |methods|
      invariant pieces' == pieces + Definitions(methods[..j])
      invariant codeText' == Concat(pieces')
      invariant methodNames == ExportedSet(methods[..j])
    {
      var name := methods[j].name;
      DefinitionStep(methods, j);
      if !IsDunder(name) {
        codeText', pieces' := EmitMethod(codeText', pieces', Definitions(methods[..j]), pieces, name);
        methodNames := methodNames + {name};
      } else {
        assert Definitions(methods[..j]) + Definition(methods[j]) == Definitions(methods[..j]);
      }
      j := j + 1;
    }
    assert methods[..j] == methods;
  }

  /** The `m.def` line of one name. */
  method EmitRegistration(codeText: string, ghost pieces: seq<string>, ghost head: seq<string>, ghost order: seq<string>, name: string)
    returns (codeText': string, ghost pieces': seq<string>)
    requires codeText == Concat(pieces) && pieces == head + Map(order, Registration)
    ensures pieces' == head + Map(order + [name], Registration)
    ensures codeText' == Concat(pieces')
  {
    codeText', pieces' := Emit(codeText, pieces, Registration(name));
    MapAppendOne(order, name, Registration);
    AppendAssoc(head, Map(order, Registration), [Registration(name)]);
  }

  /** Moving one name from the remaining set to the end of the order keeps a partial enumeration. */
  lemma EnumerationStep(order: seq<string>, remaining: set<string>, names: set<string>, name: string)
    requires NoDuplicates(order) && Elems(order) !! remaining && Elems(order) + remaining == names
    requires name in remaining
    ensures NoDuplicates(order + [name])
    ensures Elems(order + [name]) !! remaining - {name}
    ensures Elems(order + [name]) + (remaining - {name}) == names
  {
    assert Elems(order + [name]) == Elems(order) + {name};
    assert name !in order;
  }

  /** The registration loop: one `m.def` per name of the set, in whatever order the set yields them. */
  method EmitRegistrations(codeText: string, ghost pieces: seq<string>, methodNames: set<string>)
    returns (codeText': string, ghost pieces': seq<string>, ghost order: seq<string>)
    requires codeText == Concat(pieces)
    ensures Enumerates(order, methodNames)
    ensures pieces' == pieces + Map(order, Registration)
    ensures codeText' == Concat(pieces')
  {
    codeText', pieces', order := codeText, pieces, [];
    var remaining := methodNames;
    while remaining != {}
      invariant NoDuplicates(order)
      invariant Elems(order) !! remaining
      invariant Elems(order) + remaining == methodNames
      invariant pieces' == pieces + Map(order, Registration)
      invariant codeText' == Concat(pieces')
      decreases |remaining|
    {
      var name :| name in remaining;
      codeText', pieces' := EmitRegistration(codeText', pieces', pieces, order, name);
      EnumerationStep(order, remaining, methodNames, name);
      order := order + [name];
      remaining := remaining - {name};
    }
  }

  // ---------------------------------------------------------------------
  // Properties of the stub
  // ---------------------------------------------------------------------

  /** Distinct names give distinct registration lines, none of them the `initialize` line. */
  lemma RegistrationDistinct(a: string, b: string)
    ensures Registration(a) == Registration(b) ==> a == b
    ensures Registration(a) != InitRegistration
  {
    var ra, rb := Registration(a), Registration(b);
    if ra == rb {
      assert |a| == |b|;
      assert ra[11..11 + |a|] == a;
      assert rb[11..11 + |b|] == b;
    }
    assert ra[|ra| - 5] == 'd';
    assert InitRegistration[|InitRegistration| - 5] == 'e';
  }

  /** Distinct names give distinct stubs and comments, and a stub is never a comment. */
  lemma DefinitionDistinct(a: string, b: string)
    ensures MethodStub(a) == MethodStub(b) ==> a == b
    ensures MethodComment(a) == MethodComment(b) ==> a == b
    ensures MethodStub(a) != MethodComment(b)
  {
    if MethodStub(a) == MethodStub(b) {
      assert MethodStub(a)[5..5 + |a|] == a;
      assert MethodStub(b)[5..5 + |b|] == b;
    }
    if MethodComment(a) == MethodComment(b) {
      assert MethodComment(a)[11..11 + |a|] == a;
      assert MethodComment(b)[11..11 + |b|] == b;
    }
    assert MethodStub(a)[0] != MethodComment(b)[0];
  }

  /** Registering an order writes one line per occurrence of each name. */
  lemma {:induction false} RegistrationCount(order: seq<string>, n: string)
    ensures multiset(Map(order, Registration))[Registration(n)] == multiset(order)[n]
    ensures InitRegistration !in Map(order, Registration)
  {
    if order != [] {
      var init := order[..|order| - 1];
      var last := order[|order| - 1];
      RegistrationCount(init, n);
      RegistrationDistinct(last, n);
      assert order == init + [last];
    }
  }

  /**
   * The registration block registers `initialize` once and each exported
   * name once, and nothing else; in particular no special method.
   */
  lemma RegisteredOnce(order: seq<string>, names: set<string>, n: string)
    requires Enumerates(order, names)
    ensures multiset(Registrations(order))[InitRegistration] == 1
    ensures multiset(Registrations(order))[Registration(n)] == if n in names then 1 else 0
  {
    RegistrationCount(order, n);
    RegistrationDistinct(n, n);
    NoDuplicatesCount(order, n);
    assert n in order <==> n in Elems(order);
    assert multiset(Registrations(order)) == multiset{InitRegistration} + multiset(Map(order, Registration));
  }

  /** A name is exported exactly when it is not special and some method carries it. */
  lemma ExportedMembership(methods: seq<MethodInfo>, n: string)
    ensures n in ExportedSet(methods) <==>
      !IsDunder(n) && exists i :: 0 <= i < |methods| && methods[i].name == n
  {
    FlatMapMembership(methods, ExportedName, n);
    if n in ExportedNames(methods) {
      var i :| 0 <= i < |methods| && n in ExportedName(methods[i]);
      assert methods[i].name == n;
    }
    if !IsDunder(n) && exists i :: 0 <= i < |methods| && methods[i].name == n {
      var i :| 0 <= i < |methods| && methods[i].name == n;
      assert n in ExportedName(methods[i]);
    }
  }

  function NameOf(m: MethodInfo): string
  {
    m.name
  }

  /** The stubs and comments one method contributes for the name `n`. */
  lemma DefinitionOfCount(m: MethodInfo, n: string)
    ensures multiset(Definition(m))[MethodStub(n)] == if !IsDunder(n) && m.name == n then 1 else 0
    ensures multiset(Definition(m))[MethodComment(n)] == if !IsDunder(n) && m.name == n then 1 else 0
  {
    DefinitionDistinct(m.name, n);
    DefinitionDistinct(n, m.name);
    if !IsDunder(m.name) {
      assert multiset(Definition(m)) == multiset{MethodComment(m.name), MethodStub(m.name)};
    }
  }

  /**
   * The definitions hold one stub and one comment per occurrence of a
   * non-special name (a repeated method is defined twice), and none for a
   * special name.
   */
  lemma {:induction false} DefinitionCount(methods: seq<MethodInfo>, n: string)
    ensures multiset(Definitions(methods))[MethodStub(n)] == if IsDunder(n) then 0 else multiset(Map(methods, NameOf))[n]
    ensures multiset(Definitions(methods))[MethodComment(n)] == if IsDunder(n) then 0 else multiset(Map(methods, NameOf))[n]
  {
    if methods != [] {
      var init := methods[..|methods| - 1];
      var last := methods[|methods| - 1];
      DefinitionCount(init, n);
      DefinitionOfCount(last, n);
      assert Definitions(methods) == Definitions(init) + Definition(last);
      assert Map(methods, NameOf) == Map(init, NameOf) + [last.name];
      assert multiset(Definitions(methods)) == multiset(Definitions(init)) + multiset(Definition(last));
      assert multiset(Map(methods, NameOf)) == multiset(Map(init, NameOf)) + multiset{last.name};
    }
  }

  /** The methods of `sample/matrix/sample_matrix.py`: `__init__` and `add`. */
  const SampleMatrixMethods: seq<MethodInfo> := [MethodInfo("__init__", 5, []), MethodInfo("add", 8, [])]

  /** Of the sample class's two methods only `add` is exported. */
  lemma SampleMatrixExports()
    ensures ExportedSet(SampleMatrixMethods) == {"add"}
  {
    var ms := SampleMatrixMethods;
    assert IsDunder(ms[0].name);
    assert ExportedName(ms[1]) == ["add"];
    FlatMapSnoc(ms, 0, ExportedName);
    FlatMapSnoc(ms, 1, ExportedName);
    assert ms[..0] == [];
    assert ms[..2] == ms;
    assert ExportedNames(ms) == ["add"];
  }

  /** A set with one element has exactly one enumeration. */
  lemma SingletonEnumeration(order: seq<string>, x: string)
    requires Enumerates(order, {x})
    ensures order == [x]
  {
    assert x in Elems(order);
    NoDuplicatesCount(order, x);
    forall y
      ensures multiset(order)[y] == multiset{x}[y]
    {
      assert y in order ==> y in Elems(order);
    }
    assert multiset(order) == multiset{x};
    assert |order| == 1;
  }

  /** For the sample class, the registration block is exactly the `initialize` line and the `add` line. */
  lemma SampleMatrixRegistrations(order: seq<string>)
    requires Enumerates(order, ExportedSet(SampleMatrixMethods))
    ensures Registrations(order) == [InitRegistration, Registration("add")]
  {
    SampleMatrixExports();
    SingletonEnumeration(order, "add");
    MapAppendOne([], "add", Registration);
  }

  /** A module with no top-level class, or with two classes of different names, is rejected. */
  lemma ClassCountErrors(path: string, tree: seq<Stmt>, i: nat, j: nat)
    requires i < |tree| && j < |tree|
    requires tree[i].ClassDef? && tree[j].ClassDef? && tree[i].name != tree[j].name
    ensures StubSource(path, true, Some(tree)) == Failure(MultipleClasses(path))
    ensures StubSource(path, true, Some([])) == Failure(NoClasses(path))
  {
    ClassesKeys(tree, tree[i].name);
    ClassesKeys(tree, tree[j].name);
    TwoKeys(Classes(tree), tree[i].name, tree[j].name);
  }

  /** Two classes of the same name are not an error: the stub is for the later body. */
  lemma SameNameClassesAccepted(path: string, n: string, first: seq<Stmt>, second: seq<Stmt>)
    ensures StubSource(path, true, Some([ClassDef(n, first), ClassDef(n, second)])) == Success((n, Methods(second)))
  {
    SameNameCollapses(n, first, second);
    assert |map[n := Methods(second)]| == 1;
  }
}
