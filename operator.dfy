/**
 * The SIL operator: it checks the target file name, derives the pybind11
 * module name, finds the Python file under the working directory, decides
 * where the C++ stub goes, generates the stub when it is not there yet and
 * writes the CMake manifest into the SIL folder.
 *
 * The file system is a parameter: `walk` is the listing of the working
 * directory (in walk order), `existing` the set of paths that exist, and
 * `tree` what parsing the Python file yields (`None` for a syntax error).
 */
module Operator {
  import opened Text
  import opened Outcomes
  import opened Naming
  import opened SourceDiscovery
  import opened PythonAnalyzer
  import opened PybindStub
  import opened CmakeLists
  import opened Seqs

  /** The stub path for a Python file: everything before the first `.py`, plus `_SIL.cpp`. */
  function StubPathFor(pythonPath: string): (r: string)
    ensures var n := |r| - |"_SIL.cpp"|;
      0 <= n <= |pythonPath| && r == pythonPath[..n] + "_SIL.cpp" &&
      (forall j :: 0 <= j < n ==> !OccursAt(pythonPath, ".py", j)) &&
      (n < |pythonPath| ==> OccursAt(pythonPath, ".py", n))
  {
    BeforeFirst(pythonPath, ".py") + "_SIL.cpp"
  }

  /** The path of the manifest inside the SIL folder. */
  function ManifestPath(silFolder: string): string
  {
    JoinPath(silFolder, "CMakeLists.txt")
  }

  /**
   * A walk entry as the tree reads once the stub at `stubPath` has been
   * written: the stub's directory lists the stub's name (placed last).
   */
  function WithStub(e: WalkEntry, stubPath: string): WalkEntry
  {
    var name := LastSegment(stubPath);
    if e.dirpath == Dirname(stubPath) && name !in e.filenames then e.(filenames := e.filenames + [name]) else e
  }

  /** The walk of the working directory after the stub at `stubPath` has been written. */
  function WalkAfterStub(walk: seq<WalkEntry>, stubPath: string): (r: seq<WalkEntry>)
    ensures |r| == |walk|
  {
    Map(walk, e => WithStub(e, stubPath))
  }

  /** A file the operator writes: where, and what. */
  datatype TextFile = TextFile(path: string, text: string)

  /** What one build writes: the stub (unless it already existed) and the manifest. */
  datatype Generated = Generated(stub: Option<TextFile>, manifest: TextFile)

  class SilOperator {
    const rootPath: string
    /** The target's file name without `.py`. */
    const targetPythonFileName: string
    const moduleFileName: string
    const silFolder: string
    var cppFilePathToGenerate: string

    /** The state right after the `.py` check: `stem` has already lost its extension. */
    constructor (stem: string, silFolder: string, cwd: string)
      ensures rootPath == cwd && targetPythonFileName == stem && this.silFolder == silFolder
      ensures moduleFileName == ModuleName(stem)
      ensures cppFilePathToGenerate == ""
    {
      rootPath := cwd;
      targetPythonFileName := stem;
      moduleFileName := ModuleName(stem);
      this.silFolder := silFolder;
      cppFilePathToGenerate := "";
    }

    /** Constructing an operator: a name without `.py` is refused. */
    static method Create(targetPythonFileName: string, silFolder: string, cwd: string) returns (r: Result<SilOperator>)
      ensures r.Failure? <==> !EndsWith(targetPythonFileName, ".py")
      ensures r.Failure? ==> r.error == NotPythonFile(targetPythonFileName)
      ensures r.Success? ==>
        fresh(r.value) &&
        r.value.targetPythonFileName + ".py" == targetPythonFileName &&
        r.value.moduleFileName == ModuleName(r.value.targetPythonFileName) &&
        r.value.rootPath == cwd && r.value.silFolder == silFolder &&
        r.value.cppFilePathToGenerate == ""
    {
      var stem :- TargetStem(targetPythonFileName);
      var op := new SilOperator(stem, silFolder, cwd);
      return Success(op);
    }

    /** The generator set up for the Python file found at `pythonPath`. */
    function GeneratorFor(pythonPath: string): CmakeGenerator
    {
      CmakeGenerator(targetPythonFileName, Dirname(BeforeFirst(pythonPath, ".py")),
        LastSegment(StubPathFor(pythonPath)), moduleFileName, silFolder, rootPath)
    }

    /** The manifest written for the Python file found at `pythonPath`. */
    function ManifestFor(pythonPath: string, walk: seq<WalkEntry>): TextFile
    {
      TextFile(ManifestPath(silFolder),
        Concat(ManifestPieces(GeneratorFor(pythonPath),
          IncludeDirs(walk, HeaderExtensions), SourceFiles(walk, SourceExtensions))))
    }

    /**
     * Everything of a build except compiling: locate the Python file,
     * record the stub path, generate the stub unless that path exists,
     * and produce the manifest.
     */
    method BuildSilCode(walk: seq<WalkEntry>, existing: set<string>, tree: Option<seq<Stmt>>) returns (r: Result<Generated>)
      modifies this
      ensures var found := FindFile(walk, targetPythonFileName + ".py");
        found.Failure? ==> r == Failure(found.error) && cppFilePathToGenerate == old(cppFilePathToGenerate)
      ensures var found := FindFile(walk, targetPythonFileName + ".py");
        found.Success? ==> cppFilePathToGenerate == StubPathFor(found.value)
      ensures var found := FindFile(walk, targetPythonFileName + ".py");
        found.Success? && StubPathFor(found.value) in existing ==>
          r == Success(Generated(None, ManifestFor(found.value, walk)))
      ensures var found := FindFile(walk, targetPythonFileName + ".py");
        found.Success? && StubPathFor(found.value) !in existing ==>
          StubOutcome(found.value, walk, existing, tree, r)
    {
      var found := FindFilePath(targetPythonFileName + ".py", walk);
      if found.Failure? {
        return Failure(found.error);
      }
      var pythonPath := found.value;
      cppFilePathToGenerate := BeforeFirst(pythonPath, ".py") + "_SIL.cpp";
      var stub: Option<TextFile> := None;
      // The manifest's discovery walks run after the stub is written.
      var manifestWalk := walk;
      if cppFilePathToGenerate !in existing {
        var code := GenerateCppCode(pythonPath, pythonPath in existing, tree, moduleFileName);
        if code.Failure? {
          return Failure(code.error);
        }
        stub := Some(TextFile(cppFilePathToGenerate, code.value));
        manifestWalk := WalkAfterStub(walk, cppFilePathToGenerate);
      }
      var manifest := WriteManifestFor(pythonPath, manifestWalk);
      r := Success(Generated(stub, manifest));
    }

    /** The manifest step of a build, kept apart so its proof stays small. */
    method WriteManifestFor(pythonPath: string, walk: seq<WalkEntry>) returns (manifest: TextFile)
      ensures manifest == ManifestFor(pythonPath, walk)
    {
      var generator := GeneratorFor(pythonPath);
      var text := generator.GenerateCmakeListsTxt(walk);
      manifest := TextFile(ManifestPath(silFolder), text);
    }

    /**
     * A build that generates the stub: it fails with the stub generator's
     * error, or writes a stub for the file's single class at the stub path
     * and then a manifest over the tree that now holds that stub.
     */
    ghost predicate StubOutcome(pythonPath: string, walk: seq<WalkEntry>, existing: set<string>,
                                tree: Option<seq<Stmt>>, r: Result<Generated>)
    {
      var source := StubSource(pythonPath, pythonPath in existing, tree);
      (source.Failure? ==> r == Failure(source.error)) &&
      (source.Success? ==>
        r.Success? && r.value.manifest == ManifestFor(pythonPath, WalkAfterStub(walk, StubPathFor(pythonPath))) &&
        r.value.stub.Some? && r.value.stub.value.path == StubPathFor(pythonPath) &&
        IsStubFor(r.value.stub.value.text, source.value.0, source.value.1, moduleFileName))
    }

    /** The manifest lists, as its primary source, exactly the stub the build generates. */
    lemma PrimaryIsStub(pythonPath: string, dir: string, base: string)
      requires BeforeFirst(pythonPath, ".py") == dir + "/" + base
      requires '/' !in base
      requires |dir| > 0 && dir[|dir| - 1] != '/'
      ensures GeneratorFor(pythonPath).PrimarySource() == StubPathFor(pythonPath)
    {
      DirnameAndLastSegment(dir, base);
      assert StubPathFor(pythonPath) == dir + "/" + (base + "_SIL.cpp");
      assert '/' !in base + "_SIL.cpp";
      DirnameAndLastSegment(dir, base + "_SIL.cpp");
    }
  }

  /**
   * The stub path is cut at the FIRST `.py` in the whole path: with no `.py`
   * inside `stem`, whatever follows the first `.py` is dropped, so a file
   * under a directory such as `lib.pyd/` gets its stub beside that directory.
   */
  lemma {:induction false} StubPathCutsAtFirstPy(stem: string, rest: string)
    requires forall j :: 0 <= j < |stem| ==> !OccursAt(stem + ".py" + rest, ".py", j)
    ensures StubPathFor(stem + ".py" + rest) == stem + "_SIL.cpp"
  {
    var p := stem + ".py" + rest;
    assert p[|stem|..|stem| + 3] == ".py";
    assert OccursAt(p, ".py", |stem|);
    var k := FindFrom(p, ".py", 0);
    assert k == |stem|;
    assert p[..|stem|] == stem;
  }

  /** For a path whose only `.py` is its extension, the stub replaces that extension. */
  lemma PlainStubPath(stem: string)
    requires forall j :: 0 <= j < |stem| ==> !OccursAt(stem + ".py", ".py", j)
    ensures StubPathFor(stem + ".py") == stem + "_SIL.cpp"
  {
    assert stem + ".py" + "" == stem + ".py";
    StubPathCutsAtFirstPy(stem, "");
  }

  /**
   * On a first run the manifest sees the stub just written: the directory
   * holding the Python file becomes an include directory (when the filters
   * keep it), even if it held no C/C++ file before.
   */
  lemma StubDirectoryIncluded(walk: seq<WalkEntry>, pythonPath: string, dir: string, base: string, i: nat)
    requires BeforeFirst(pythonPath, ".py") == dir + "/" + base
    requires '/' !in base
    requires |dir| > 0 && dir[|dir| - 1] != '/'
    requires i < |walk| && walk[i].dirpath == dir && FilteredDir(walk[i]) != ""
    ensures FilteredDir(walk[i]) in IncludeDirs(WalkAfterStub(walk, StubPathFor(pythonPath)), HeaderExtensions)
  {
    var name := base + "_SIL.cpp";
    var stub := StubPathFor(pythonPath);
    assert stub == dir + "/" + name;
    assert '/' !in name;
    DirnameAndLastSegment(dir, name);
    var w := WalkAfterStub(walk, stub);
    MapAt(walk, e => WithStub(e, stub), i);
    var e := w[i];
    assert e.relpath == walk[i].relpath;
    assert FilteredDir(e) == FilteredDir(walk[i]);
    assert name in e.filenames;
    var k :| 0 <= k < |e.filenames| && e.filenames[k] == name;
    StubExtension(base);
    IncludeDirsMembership(w, HeaderExtensions, FilteredDir(walk[i]));
  }
}
