/**
 * `CmakeGenerator.generate_cmake_lists_txt`: the CMake manifest that builds
 * the pybind11 module from the generated stub, every discovered C/C++ source
 * file and every discovered include directory. The text is built piece by
 * piece; a manifest is the concatenation of its pieces.
 */
module CmakeLists {
  import opened Text
  import opened Seqs
  import SourceDiscovery

  /** The settings a generator is constructed with; none of them changes afterwards. */
  datatype CmakeGenerator = CmakeGenerator(
    originalPythonFileName: string,
    pythonFileDir: string,
    cppFileName: string,
    pybind11ModuleName: string,
    silFolder: string,
    rootPath: string)
  {
    /** The generated stub, listed first among the module's sources. */
    function PrimarySource(): string
    {
      pythonFileDir + "/" + cppFileName
    }

    /** `generate_cmake_lists_txt` without the file write, over the walk of the root directory. */
    method GenerateCmakeListsTxt(walk: seq<SourceDiscovery.WalkEntry>) returns (text: string)
      ensures text == Concat(ManifestPieces(this,
        SourceDiscovery.IncludeDirs(walk, SourceDiscovery.HeaderExtensions),
        SourceDiscovery.SourceFiles(walk, SourceDiscovery.SourceExtensions)))
    {
      var includeDirs := SourceDiscovery.DiscoverSourceIncludeDirs(walk, SourceDiscovery.HeaderExtensions);
      var sourceFileList := SourceDiscovery.DiscoverSourceFiles(walk, SourceDiscovery.SourceExtensions);
      text := WriteManifest(includeDirs, sourceFileList);
    }

    /** The text-building part of `generate_cmake_lists_txt`, once the tree has been scanned. */
    method WriteManifest(includeDirs: seq<string>, sourceFileList: seq<string>) returns (text: string)
      ensures text == Concat(ManifestPieces(this, includeDirs, sourceFileList))
    {
      ghost var pieces;
      text, pieces := EmitHead(pybind11ModuleName);
      ghost var head := pieces;
      text, pieces := Emit(text, pieces, ListLine(PrimarySource()));
      text, pieces := EmitExtraSources(text, pieces, sourceFileList, PrimarySource());
      ghost var extra := Map(ExtraSources(sourceFileList, PrimarySource()), ListLine);
      AppendAssoc(head, [ListLine(PrimarySource())], extra);
      MapAppend([PrimarySource()], ExtraSources(sourceFileList, PrimarySource()), ListLine);
      MapAppendOne([], PrimarySource(), ListLine);
      assert [PrimarySource()] + ExtraSources(sourceFileList, PrimarySource()) == SourceEntries(sourceFileList, PrimarySource());
      assert pieces == Head(pybind11ModuleName) + Map(SourceEntries(sourceFileList, PrimarySource()), ListLine);
      ghost var middle;
      text, pieces, middle := EmitMiddle(text, pieces, pybind11ModuleName);
      text, pieces := EmitIncludeDirs(text, pieces, includeDirs, rootPath);
      text, pieces := Emit(text, pieces, CloseList);
    }
  }

  /** One entry of a list inside a CMake command, on a line of its own. */
  function ListLine(entry: string): string
  {
    "    " + entry + "\n"
  }

  // The fixed lines of the manifest, in the order they are written.
  const MinimumVersion: string := "cmake_minimum_required(VERSION 3.14)\n"
  const PythonPolicy: string := "cmake_policy(SET CMP0148 NEW)\n\n"
  const CxxStandard: string := "set(CMAKE_CXX_STANDARD 11)\n"
  const CxxStandardRequired: string := "set(CMAKE_CXX_STANDARD_REQUIRED ON)\n"
  const DebugDefaultComment: string := "# Debug-friendly defaults: prefer Debug builds during development so symbols are available\n"
  const IfNoBuildType: string := "if(NOT CMAKE_BUILD_TYPE)\n"
  const DefaultBuildType: string := "  set(CMAKE_BUILD_TYPE Debug CACHE STRING \"Build type\" FORCE)\n"
  const EndIf: string := "endif()\n\n"
  const DebugFlags: string := "set(CMAKE_CXX_FLAGS_DEBUG \"-g -O0\")\n"
  const ReleaseFlags: string := "set(CMAKE_CXX_FLAGS_RELEASE \"-O2\")\n"
  const ReleaseLto: string := "set(CMAKE_CXX_FLAGS_RELEASE \"${CMAKE_CXX_FLAGS_RELEASE} -flto=auto\")\n\n"
  const FindPybind11: string := "find_package(pybind11 REQUIRED)\n\n"
  const CloseList: string := ")\n\n"
  const ReleaseWerrorComment: string := "# Treat warnings as errors only in Release builds to avoid blocking development\n"
  const IfRelease: string := "if(CMAKE_BUILD_TYPE STREQUAL \"Release\")\n"

  function ProjectLine(moduleName: string): string
  {
    "project(" + moduleName + ")\n\n"
  }

  function AddModuleLine(moduleName: string): string
  {
    "pybind11_add_module(" + moduleName + " \n"
  }

  function WerrorLine(moduleName: string): string
  {
    "  target_compile_options(" + moduleName + " PRIVATE -Werror)\n"
  }

  function IncludeDirectoriesLine(moduleName: string): string
  {
    "target_include_directories(" + moduleName + " PRIVATE\n"
  }

  /** The fixed settings and the opening of the `pybind11_add_module` command. */
  function Head(moduleName: string): seq<string>
  {
    [ MinimumVersion, PythonPolicy, ProjectLine(moduleName), CxxStandard, CxxStandardRequired,
      DebugDefaultComment, IfNoBuildType, DefaultBuildType, EndIf,
      DebugFlags, ReleaseFlags, ReleaseLto, FindPybind11, AddModuleLine(moduleName) ]
  }

  /** The close of the source list, the Release-only `-Werror`, and the opening of the include list. */
  function Middle(moduleName: string): seq<string>
  {
    [ CloseList, ReleaseWerrorComment, IfRelease, WerrorLine(moduleName), EndIf, IncludeDirectoriesLine(moduleName) ]
  }

  /** A discovered source file other than the primary one. */
  function KeepIfOther(primary: string, file: string): seq<string>
  {
    if file != primary then [file] else []
  }

  /** The discovered source files listed after the primary one: all that differ from it, in order. */
  function ExtraSources(files: seq<string>, primary: string): seq<string>
  {
    FlatMap(files, f => KeepIfOther(primary, f))
  }

  /** The include path of a non-empty discovered directory, under the root. */
  function IncludePath(root: string, dir: string): seq<string>
  {
    if dir != "" then [JoinPath(root, dir)] else []
  }

  function IncludePaths(root: string, dirs: seq<string>): seq<string>
  {
    FlatMap(dirs, d => IncludePath(root, d))
  }

  function IncludeLines(root: string, dirs: seq<string>): seq<string>
  {
    Map(IncludePaths(root, dirs), ListLine)
  }

  /** The entries of the `pybind11_add_module` source list. */
  function SourceEntries(files: seq<string>, primary: string): seq<string>
  {
    [primary] + ExtraSources(files, primary)
  }

  /** The pieces of the manifest for the discovered include directories and source files. */
  function ManifestPieces(g: CmakeGenerator, includeDirs: seq<string>, sourceFiles: seq<string>): seq<string>
  {
    Head(g.pybind11ModuleName)
      + Map(SourceEntries(sourceFiles, g.PrimarySource()), ListLine)
      + Middle(g.pybind11ModuleName)
      + IncludeLines(g.rootPath, includeDirs)
      + [CloseList]
  }

  /** One `code_text +=`. */
  method Emit(text: string, ghost pieces: seq<string>, piece: string) returns (text': string, ghost pieces': seq<string>)
    requires text == Concat(pieces)
    ensures pieces' == pieces + [piece]
    ensures text' == Concat(pieces')
  {
    ConcatSnoc(pieces, piece);
    text' := text + piece;
    pieces' := pieces + [piece];
  }

  method EmitHead(moduleName: string) returns (text: string, ghost pieces: seq<string>)
    ensures pieces == Head(moduleName)
    ensures text == Concat(pieces)
  {
    text, pieces := "", [];
    text, pieces := Emit(text, pieces, MinimumVersion);
    text, pieces := Emit(text, pieces, PythonPolicy);
    text, pieces := Emit(text, pieces, ProjectLine(moduleName));
    text, pieces := Emit(text, pieces, CxxStandard);
    text, pieces := Emit(text, pieces, CxxStandardRequired);
    text, pieces := Emit(text, pieces, DebugDefaultComment);
    text, pieces := Emit(text, pieces, IfNoBuildType);
    text, pieces := Emit(text, pieces, DefaultBuildType);
    text, pieces := Emit(text, pieces, EndIf);
    text, pieces := Emit(text, pieces, DebugFlags);
    text, pieces := Emit(text, pieces, ReleaseFlags);
    text, pieces := Emit(text, pieces, ReleaseLto);
    text, pieces := Emit(text, pieces, FindPybind11);
    text, pieces := Emit(text, pieces, AddModuleLine(moduleName));
  }

  method EmitMiddle(text: string, ghost pieces: seq<string>, moduleName: string)
    returns (text': string, ghost pieces': seq<string>, ghost middle: seq<string>)
    requires text == Concat(pieces)
    ensures middle == Middle(moduleName)
    ensures pieces' == pieces + middle
    ensures text' == Concat(pieces')
  {
    text', pieces' := text, pieces;
    text', pieces' := Emit(text', pieces', CloseList);
    text', pieces' := Emit(text', pieces', ReleaseWerrorComment);
    text', pieces' := Emit(text', pieces', IfRelease);
    text', pieces' := Emit(text', pieces', WerrorLine(moduleName));
    text', pieces' := Emit(text', pieces', EndIf);
    text', pieces' := Emit(text', pieces', IncludeDirectoriesLine(moduleName));
    middle := pieces'[|pieces|..];
    assert pieces' == pieces + middle;
  }

  /** The loop over the discovered source files, skipping the primary one. */
  method EmitExtraSources(text: string, ghost pieces: seq<string>, files: seq<string>, primary: string)
    returns (text': string, ghost pieces': seq<string>)
    requires text == Concat(pieces)
    ensures pieces' == pieces + Map(ExtraSources(files, primary), ListLine)
    ensures text' == Concat(pieces')
  {
    text', pieces' := text, pieces;
    assert pieces + [] == pieces;
    var i := 0;
    while i < |files|
      invariant 0 <= i <= |files|
      invariant pieces' == pieces + Map(ExtraSources(files[..i], primary), ListLine)
      invariant text' == Concat(pieces')
    {
      ghost var before := ExtraSources(files[..i], primary);
      FlatMapSnoc(files, i, f => KeepIfOther(primary, f));
      if files[i] != primary {
        text', pieces' := Emit(text', pieces', ListLine(files[i]));
        MapAppendOne(before, files[i], ListLine);
        AppendAssoc(pieces, Map(before, ListLine), [ListLine(files[i])]);
      } else {
        assert before + KeepIfOther(primary, files[i]) == before;
      }
      i := i + 1;
    }
    assert files[..i] == files;
  }

  /** The loop over the discovered include directories, skipping the empty one. */
  method EmitIncludeDirs(text: string, ghost pieces: seq<string>, dirs: seq<string>, root: string)
    returns (text': string, ghost pieces': seq<string>)
    requires text == Concat(pieces)
    ensures pieces' == pieces + IncludeLines(root, dirs)
    ensures text' == Concat(pieces')
  {
    text', pieces' := text, pieces;
    assert pieces + [] == pieces;
    var i := 0;
    while i < |dirs|
      invariant 0 <= i <= |dirs|
      invariant pieces' == pieces + IncludeLines(root, dirs[..i])
      invariant text' == Concat(pieces')
    {
      ghost var before := IncludePaths(root, dirs[..i]);
      FlatMapSnoc(dirs, i, d => IncludePath(root, d));
      var d := dirs[i];
      if d != "" {
        var path := JoinPath(root, d);
        text', pieces' := Emit(text', pieces', ListLine(path));
        MapAppendOne(before, path, ListLine);
        AppendAssoc(pieces, Map(before, ListLine), [ListLine(path)]);
      } else {
        assert before + IncludePath(root, d) == before;
      }
      i := i + 1;
    }
    assert dirs[..i] == dirs;
  }

  // ---------------------------------------------------------------------
  // Properties of the manifest
  // ---------------------------------------------------------------------

  /** The primary source is never among the extra ones; every other file stays, as often as it was found. */
  lemma {:induction false} ExtraSourcesCount(files: seq<string>, primary: string, f: string)
    ensures multiset(ExtraSources(files, primary))[f] == if f == primary then 0 else multiset(files)[f]
  {
    if files != [] {
      var init := files[..|files| - 1];
      var last := files[|files| - 1];
      ExtraSourcesCount(init, primary, f);
      assert files == init + [last];
      assert ExtraSources(files, primary) == ExtraSources(init, primary) + KeepIfOther(primary, last);
    }
  }

  /** The extra sources keep the discovery order: filtering a concatenation filters each part. */
  lemma ExtraSourcesOrder(first: seq<string>, second: seq<string>, primary: string)
    ensures ExtraSources(first + second, primary) == ExtraSources(first, primary) + ExtraSources(second, primary)
  {
    FlatMapAppend(first, second, f => KeepIfOther(primary, f));
  }

  /**
   * The source list opens with the primary source, which appears in it
   * exactly once; every other discovered file appears as often as it was
   * discovered.
   */
  lemma SourceListing(files: seq<string>, primary: string, f: string)
    ensures SourceEntries(files, primary)[0] == primary
    ensures multiset(SourceEntries(files, primary))[f] == if f == primary then 1 else multiset(files)[f]
  {
    ExtraSourcesCount(files, primary, f);
    assert multiset(SourceEntries(files, primary)) == multiset{primary} + multiset(ExtraSources(files, primary));
  }

  /** With no empty directory among them, every include directory gives one include path, in order. */
  lemma {:induction false} IncludePathsAll(root: string, dirs: seq<string>)
    requires "" !in dirs
    ensures |IncludePaths(root, dirs)| == |dirs|
    ensures forall k :: 0 <= k < |dirs| ==> IncludePaths(root, dirs)[k] == JoinPath(root, dirs[k])
  {
    if dirs != [] {
      var init := dirs[..|dirs| - 1];
      assert "" !in init by {
        forall k | 0 <= k < |init| ensures init[k] != "" { assert init[k] == dirs[k]; }
      }
      IncludePathsAll(root, init);
      assert dirs[|dirs| - 1] != "";
    }
  }

  /**
   * The discovered include directories each give exactly one include line,
   * in discovery order; the root directory gives none.
   */
  lemma DiscoveredIncludeLines(root: string, walk: seq<SourceDiscovery.WalkEntry>)
    ensures |IncludeLines(root, SourceDiscovery.IncludeDirs(walk, SourceDiscovery.HeaderExtensions))|
      == |SourceDiscovery.IncludeDirs(walk, SourceDiscovery.HeaderExtensions)|
    ensures forall k :: 0 <= k < |SourceDiscovery.IncludeDirs(walk, SourceDiscovery.HeaderExtensions)| ==>
      IncludeLines(root, SourceDiscovery.IncludeDirs(walk, SourceDiscovery.HeaderExtensions))[k]
        == ListLine(JoinPath(root, SourceDiscovery.IncludeDirs(walk, SourceDiscovery.HeaderExtensions)[k]))
  {
    var dirs := SourceDiscovery.IncludeDirs(walk, SourceDiscovery.HeaderExtensions);
    SourceDiscovery.IncludeDirsShape(walk, SourceDiscovery.HeaderExtensions);
    IncludePathsAll(root, dirs);
    forall k | 0 <= k < |dirs|
      ensures IncludeLines(root, dirs)[k] == ListLine(JoinPath(root, dirs[k]))
    {
      MapAt(IncludePaths(root, dirs), ListLine, k);
    }
  }
}
