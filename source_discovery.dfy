/**
 * Tree discovery of `CmakeGenerator` and `SIL_Operator.find_file_path`.
 *
 * A directory walk is given as the sequence of entries `os.walk` yields, in
 * its pre-order: the directory path as the walk names it, its path relative
 * to the walk root as `os.path.relpath` gives it ("." for the root), and the
 * names of the files directly inside it, in listing order.
 */
module SourceDiscovery {
  import opened Text
  import opened Outcomes
  import PathFilter
  import opened Seqs

  datatype WalkEntry = WalkEntry(dirpath: string, relpath: string, filenames: seq<string>)

  /** Default extensions of `discover_source_include_dirs`. */
  const HeaderExtensions: set<string> := {".c", ".h", ".cpp", ".hpp"}
  /** Default extensions of `discover_source_files`. */
  const SourceExtensions: set<string> := {".c", ".cpp"}

  /**
   * `os.path.splitext(filename)[1]` for a bare file name: the suffix from the
   * last dot, or "" when there is no dot or only dots precede it.
   */
  function Extension(filename: string): (ext: string)
    ensures ext == "" || (ext[0] == '.' && '.' !in ext[1..] && |ext| < |filename| && EndsWith(filename, ext))
  {
    var k := LastIndexOf(filename, '.');
    if k >= 0 && !AllDots(filename[..k]) then filename[k..] else ""
  }

  /** Every character of `s` is a dot. */
  predicate AllDots(s: string)
  {
    |s| == 0 || (s[0] == '.' && AllDots(s[1..]))
  }

  /** A stub's name `<base>_SIL.cpp` has the extension `.cpp`, whatever `base` is. */
  lemma StubExtension(base: string)
    ensures Extension(base + "_SIL.cpp") == ".cpp"
    ensures MatchesExtension(base + "_SIL.cpp", HeaderExtensions)
    ensures MatchesExtension(base + "_SIL.cpp", SourceExtensions)
  {
    var pre := base + "_SIL";
    var name := base + "_SIL.cpp";
    assert name == pre + ['.'] + "cpp";
    LastIndexOfBefore(pre, '.', "cpp");
    assert name[..|pre|] == pre;
    assert pre[|base|] == '_';
    if AllDots(pre) {
      AllDotsAt(pre, |base|);
    }
    assert name[|pre|..] == ".cpp";
    assert Lower(".cpp") == ".cpp";
  }

  lemma {:induction false} AllDotsAt(s: string, i: nat)
    requires AllDots(s) && i < |s|
    ensures s[i] == '.'
  {
    if i > 0 {
      AllDotsAt(s[1..], i - 1);
    }
  }

  predicate MatchesExtension(filename: string, exts: set<string>)
  {
    Lower(Extension(filename)) in exts
  }

  /** Some listed file has a wanted extension. */
  predicate HasMatchingFile(filenames: seq<string>, exts: set<string>)
  {
    AnyOf(filenames, fn => MatchesExtension(fn, exts))
  }

  /** The walk root, recognised as the walk's relative path "." after separator normalisation. */
  predicate IsWalkRoot(e: WalkEntry)
  {
    ReplaceChar(e.relpath, '\\', '/') == "."
  }

  /** The relative directory with forward slashes, "" standing for the root. */
  function RelativeDir(e: WalkEntry): string
  {
    var rel := ReplaceChar(e.relpath, '\\', '/');
    if rel == "." then "" else rel
  }

  /** The relative directory after the sample filter and then the build filter. */
  function FilteredDir(e: WalkEntry): string
  {
    PathFilter.CheckPathIsBuild(PathFilter.CheckPathIsSample(RelativeDir(e)))
  }

  // ----- include directories -----

  /** What one directory offers as an include directory: "" for nothing. */
  function Candidate(e: WalkEntry, exts: set<string>): string
  {
    if HasMatchingFile(e.filenames, exts) then FilteredDir(e) else ""
  }

  /** The candidate of every walked directory, in walk order. */
  function Candidates(walk: seq<WalkEntry>, exts: set<string>): seq<string>
  {
    Map(walk, e => Candidate(e, exts))
  }

  /** The non-empty elements of `s`, each kept at its first occurrence only. */
  function FirstSeen(s: seq<string>): (r: seq<string>)
    ensures |r| <= |s|
    ensures forall x :: x in r ==> x in s
  {
    if s == [] then []
    else
      var prev := FirstSeen(s[..|s| - 1]);
      var x := s[|s| - 1];
      if x != "" && x !in prev then prev + [x] else prev
  }

  /** The result of `discover_source_include_dirs` on a walk. */
  function IncludeDirs(walk: seq<WalkEntry>, exts: set<string>): seq<string>
  {
    FirstSeen(Candidates(walk, exts))
  }

  /** `FirstSeen` drops "" and repeats, and keeps every other element. */
  lemma {:induction false} FirstSeenContents(s: seq<string>)
    ensures NoDuplicates(FirstSeen(s))
    ensures forall x :: x in FirstSeen(s) <==> x in s && x != ""
  {
    if s != [] {
      var init := s[..|s| - 1];
      FirstSeenContents(init);
      assert s == init + [s[|s| - 1]];
    }
  }

  lemma FirstSeenSnoc(s: seq<string>, i: nat)
    requires i < |s|
    ensures FirstSeen(s[..i + 1]) ==
      var prev := FirstSeen(s[..i]);
      if s[i] != "" && s[i] !in prev then prev + [s[i]] else prev
  {
    assert s[..i + 1][..i] == s[..i];
  }

  /**
   * The path `discover_source_include_dirs` computes for a directory with a
   * matching file: relative, with forward slashes, "" for the root, then
   * through both filters.
   */
  method IncludeDirOf(entry: WalkEntry) returns (rel: string)
    ensures rel == FilteredDir(entry)
  {
    rel := ReplaceChar(entry.relpath, '\\', '/');
    if rel == "." {
      rel := "";
    }
    rel := PathFilter.CheckPathIsSample(rel);
    rel := PathFilter.CheckPathIsBuild(rel);
  }

  /**
   * The body of the walk loop of `discover_source_include_dirs` for one
   * directory: the first matching file adds the directory's filtered path,
   * unless it is "" or already seen, and ends the scan of the directory.
   */
  method VisitIncludeDir(entry: WalkEntry, exts: set<string>, includeDirs: seq<string>, seen: set<string>)
    returns (includeDirs': seq<string>, seen': set<string>)
    requires forall x :: x in seen <==> x in includeDirs
    ensures var c := Candidate(entry, exts);
      includeDirs' == if c != "" && c !in includeDirs then includeDirs + [c] else includeDirs
    ensures forall x :: x in seen' <==> x in includeDirs'
  {
    includeDirs', seen' := includeDirs, seen;
    var j := 0;
    while j < |entry.filenames|
      invariant 0 <= j <= |entry.filenames|
      invariant !HasMatchingFile(entry.filenames[..j], exts)
    {
      if MatchesExtension(entry.filenames[j], exts) {
        var rel := IncludeDirOf(entry);
        AnyOfMeaning(entry.filenames, fn => MatchesExtension(fn, exts));
        if rel !in seen' && rel != "" {
          seen' := seen' + {rel};
          includeDirs' := includeDirs' + [rel];
        }
        return;
      }
      AnyOfSnoc(entry.filenames, j, fn => MatchesExtension(fn, exts));
      j := j + 1;
    }
    assert entry.filenames[..j] == entry.filenames;
  }

  /** `discover_source_include_dirs`: the walk loop with its `seen` set. */
  method DiscoverSourceIncludeDirs(walk: seq<WalkEntry>, exts: set<string>) returns (includeDirs: seq<string>)
    ensures includeDirs == IncludeDirs(walk, exts)
  {
    includeDirs := [];
    var seen: set<string> := {};
    var i := 0;
    while i < |walk|
      invariant 0 <= i <= |walk|
      invariant includeDirs == IncludeDirs(walk[..i], exts)
      invariant forall x :: x in seen <==> x in includeDirs
    {
      includeDirs, seen := VisitIncludeDir(walk[i], exts, includeDirs, seen);
      MapSnoc(walk, i, e => Candidate(e, exts));
      FirstSeenSnoc(Candidates(walk[..i + 1], exts), i);
      i := i + 1;
    }
    assert walk[..|walk|] == walk;
  }

  /** The index of the first occurrence of `x` in `s`. */
  function FirstIndex<T(==)>(s: seq<T>, x: T): (k: nat)
    requires x in s
    ensures k < |s| && s[k] == x && x !in s[..k]
  {
    if s[0] == x then 0
    else
      assert s == [s[0]] + s[1..];
      var k := 1 + FirstIndex(s[1..], x);
      assert s[..k] == [s[0]] + s[1..][..k - 1];
      k
  }

  lemma FirstIndexUnique<T>(s: seq<T>, x: T, k: nat)
    requires k < |s| && s[k] == x && x !in s[..k]
    ensures FirstIndex(s, x) == k
  {
    var k' := FirstIndex(s, x);
    forall j | 0 <= j < k
      ensures s[j] != x
    {
      assert s[..k][j] == s[j];
    }
    forall j | 0 <= j < k'
      ensures s[j] != x
    {
      assert s[..k'][j] == s[j];
    }
  }

  lemma FirstIndexSnoc<T>(s: seq<T>, y: T, x: T)
    requires y in s
    ensures FirstIndex(s + [x], y) == FirstIndex(s, y)
  {
    var k := FirstIndex(s, y);
    assert (s + [x])[..k] == s[..k];
    FirstIndexUnique(s + [x], y, k);
  }

  /** `FirstSeen` keeps its elements in the order of their first occurrence. */
  lemma {:induction false} FirstSeenOrder(s: seq<string>)
    ensures forall i, j :: 0 <= i < j < |FirstSeen(s)| ==>
              FirstIndex(s, FirstSeen(s)[i]) < FirstIndex(s, FirstSeen(s)[j])
  {
    if s != [] {
      var init := s[..|s| - 1];
      var x := s[|s| - 1];
      var prev := FirstSeen(init);
      FirstSeenOrder(init);
      FirstSeenContents(init);
      assert s == init + [x];
      forall y | y in prev
        ensures FirstIndex(s, y) == FirstIndex(init, y) < |init|
      {
        FirstIndexSnoc(init, y, x);
      }
      if x != "" && x !in prev {
        assert x !in init;
        assert s[..|init|] == init;
        FirstIndexUnique(s, x, |init|);
        var r := FirstSeen(s);
        assert r == prev + [x];
        forall i, j | 0 <= i < j < |r|
          ensures FirstIndex(s, r[i]) < FirstIndex(s, r[j])
        {
          assert r[i] in prev;
          if j < |prev| {
            assert r[i] == prev[i] && r[j] == prev[j];
          }
        }
      }
    }
  }

  /** A directory offers its filtered path exactly when one of its files matches. */
  lemma CandidateMeaning(e: WalkEntry, exts: set<string>)
    ensures Candidate(e, exts) ==
      if exists k :: 0 <= k < |e.filenames| && MatchesExtension(e.filenames[k], exts) then FilteredDir(e) else ""
  {
    AnyOfMeaning(e.filenames, fn => MatchesExtension(fn, exts));
  }

  /** `discover_source_include_dirs` returns no duplicates, no "", and at most one path per directory. */
  lemma IncludeDirsShape(walk: seq<WalkEntry>, exts: set<string>)
    ensures NoDuplicates(IncludeDirs(walk, exts))
    ensures "" !in IncludeDirs(walk, exts)
    ensures |IncludeDirs(walk, exts)| <= |walk|
  {
    FirstSeenContents(Candidates(walk, exts));
  }

  /**
   * A path is an include directory exactly when it is non-empty and is the
   * filtered path of a walked directory holding a matching file.
   */
  lemma IncludeDirsMembership(walk: seq<WalkEntry>, exts: set<string>, x: string)
    ensures x in IncludeDirs(walk, exts) <==>
      x != "" &&
      exists i, k :: 0 <= i < |walk| && 0 <= k < |walk[i].filenames| &&
        MatchesExtension(walk[i].filenames[k], exts) && FilteredDir(walk[i]) == x
  {
    var c := Candidates(walk, exts);
    FirstSeenContents(c);
    if x in IncludeDirs(walk, exts) {
      var i :| 0 <= i < |c| && c[i] == x;
      MapAt(walk, e => Candidate(e, exts), i);
      CandidateMeaning(walk[i], exts);
    }
    if i, k :| 0 <= i < |walk| && 0 <= k < |walk[i].filenames| &&
               MatchesExtension(walk[i].filenames[k], exts) && FilteredDir(walk[i]) == x {
      MapAt(walk, e => Candidate(e, exts), i);
      CandidateMeaning(walk[i], exts);
      assert c[i] == FilteredDir(walk[i]);
    }
  }

  /** Every include directory is left alone by both filters. */
  lemma IncludeDirsFiltered(walk: seq<WalkEntry>, exts: set<string>, x: string)
    requires x in IncludeDirs(walk, exts)
    ensures PathFilter.CheckPathIsSample(x) == x && PathFilter.CheckPathIsBuild(x) == x
  {
    IncludeDirsMembership(walk, exts, x);
    var i, k :| 0 <= i < |walk| && 0 <= k < |walk[i].filenames| &&
      MatchesExtension(walk[i].filenames[k], exts) && FilteredDir(walk[i]) == x;
    PathFilter.FilteredIsFixed(RelativeDir(walk[i]));
  }

  /**
   * Include directories appear in walk order of the first directory that
   * offered them.
   */
  lemma IncludeDirsOrder(walk: seq<WalkEntry>, exts: set<string>)
    ensures var r := IncludeDirs(walk, exts);
      forall i, j :: 0 <= i < j < |r| ==>
        FirstIndex(Candidates(walk, exts), r[i]) < FirstIndex(Candidates(walk, exts), r[j])
  {
    FirstSeenOrder(Candidates(walk, exts));
  }

  // ----- source files -----

  /** A directory whose source files are listed: the walk root, or one the filters leave non-empty. */
  predicate Kept(e: WalkEntry)
  {
    IsWalkRoot(e) || FilteredDir(e) != ""
  }

  /** `os.path.join(dirpath, fn)` when `fn` has a wanted extension. */
  function PathIfMatching(dirpath: string, exts: set<string>, fn: string): seq<string>
  {
    if MatchesExtension(fn, exts) then [JoinPath(dirpath, fn)] else []
  }

  /** `os.path.join(dirpath, fn)` for each matching file, in listing order. */
  function MatchingPaths(dirpath: string, filenames: seq<string>, exts: set<string>): seq<string>
  {
    FlatMap(filenames, fn => PathIfMatching(dirpath, exts, fn))
  }

  /** What one walked directory contributes to the source list. */
  function DirectoryListing(e: WalkEntry, exts: set<string>): seq<string>
  {
    if Kept(e) then MatchingPaths(e.dirpath, e.filenames, exts) else []
  }

  /** The result of `discover_source_files` on a walk. */
  function SourceFiles(walk: seq<WalkEntry>, exts: set<string>): seq<string>
  {
    FlatMap(walk, e => DirectoryListing(e, exts))
  }

  /**
   * The file loop of `discover_source_files` for one walked directory: the
   * matching files, joined to the directory path, when the directory is kept.
   */
  method ListDirectory(entry: WalkEntry, exts: set<string>) returns (paths: seq<string>)
    ensures paths == DirectoryListing(entry, exts)
  {
    paths := [];
    var j := 0;
    while j < |entry.filenames|
      invariant 0 <= j <= |entry.filenames|
      invariant paths == if Kept(entry) then MatchingPaths(entry.dirpath, entry.filenames[..j], exts) else []
    {
      var fn := entry.filenames[j];
      if MatchesExtension(fn, exts) {
        var originalRel := ReplaceChar(entry.relpath, '\\', '/');
        var isRoot := originalRel == ".";
        var rel := if isRoot then "" else originalRel;
        rel := PathFilter.CheckPathIsSample(rel);
        rel := PathFilter.CheckPathIsBuild(rel);
        assert isRoot == IsWalkRoot(entry) && rel == FilteredDir(entry);
        if !(rel == "" && !isRoot) {
          paths := paths + [JoinPath(entry.dirpath, fn)];
        }
      }
      FlatMapSnoc(entry.filenames, j, fn => PathIfMatching(entry.dirpath, exts, fn));
      j := j + 1;
    }
    assert entry.filenames[..|entry.filenames|] == entry.filenames;
  }

  /** `discover_source_files`: the walk loop, without deduplication. */
  method DiscoverSourceFiles(walk: seq<WalkEntry>, exts: set<string>) returns (sourceFileList: seq<string>)
    ensures sourceFileList == SourceFiles(walk, exts)
  {
    sourceFileList := [];
    var i := 0;
    while i < |walk|
      invariant 0 <= i <= |walk|
      invariant sourceFileList == SourceFiles(walk[..i], exts)
    {
      var paths := ListDirectory(walk[i], exts);
      sourceFileList := sourceFileList + paths;
      FlatMapSnoc(walk, i, e => DirectoryListing(e, exts));
      i := i + 1;
    }
    assert walk[..|walk|] == walk;
  }

  /** A path is listed for one directory exactly when it joins a matching file name to it. */
  lemma MatchingPathsMembership(dirpath: string, filenames: seq<string>, exts: set<string>, x: string)
    ensures x in MatchingPaths(dirpath, filenames, exts) <==>
      exists j :: 0 <= j < |filenames| && MatchesExtension(filenames[j], exts) && x == JoinPath(dirpath, filenames[j])
  {
    FlatMapMembership(filenames, fn => PathIfMatching(dirpath, exts, fn), x);
  }

  /**
   * A path is listed by `discover_source_files` exactly when it joins a
   * matching file name to a kept directory of the walk.
   */
  lemma SourceFilesMembership(walk: seq<WalkEntry>, exts: set<string>, x: string)
    ensures x in SourceFiles(walk, exts) <==>
      exists i, j :: 0 <= i < |walk| && 0 <= j < |walk[i].filenames| && Kept(walk[i]) &&
        MatchesExtension(walk[i].filenames[j], exts) && x == JoinPath(walk[i].dirpath, walk[i].filenames[j])
  {
    FlatMapMembership(walk, e => DirectoryListing(e, exts), x);
    forall i | 0 <= i < |walk|
      ensures x in DirectoryListing(walk[i], exts) <==>
        Kept(walk[i]) &&
        exists j :: 0 <= j < |walk[i].filenames| &&
          MatchesExtension(walk[i].filenames[j], exts) && x == JoinPath(walk[i].dirpath, walk[i].filenames[j])
    {
      MatchingPathsMembership(walk[i].dirpath, walk[i].filenames, exts, x);
    }
  }

  /**
   * No deduplication across directories: the listing of two walks run one
   * after the other is the concatenation of their listings.
   */
  lemma SourceFilesAppend(w1: seq<WalkEntry>, w2: seq<WalkEntry>, exts: set<string>)
    ensures SourceFiles(w1 + w2, exts) == SourceFiles(w1, exts) + SourceFiles(w2, exts)
  {
    FlatMapAppend(w1, w2, e => DirectoryListing(e, exts));
  }

  /**
   * Every non-root directory that contributes a source file (with the
   * default extensions) is also listed as an include directory.
   */
  lemma SourceDirsAreIncluded(walk: seq<WalkEntry>, i: nat, j: nat)
    requires i < |walk| && j < |walk[i].filenames|
    requires MatchesExtension(walk[i].filenames[j], SourceExtensions)
    requires Kept(walk[i]) && !IsWalkRoot(walk[i])
    ensures FilteredDir(walk[i]) in IncludeDirs(walk, HeaderExtensions)
  {
    assert MatchesExtension(walk[i].filenames[j], HeaderExtensions);
    IncludeDirsMembership(walk, HeaderExtensions, FilteredDir(walk[i]));
  }

  // ----- find_file_path -----

  /** `find_file_path`: the first walked directory listing `fileName`, joined with it. */
  function FindFile(walk: seq<WalkEntry>, fileName: string): Result<string>
  {
    if walk == [] then Failure(FileNotFound(fileName))
    else if fileName in walk[0].filenames then Success(JoinPath(walk[0].dirpath, fileName))
    else FindFile(walk[1..], fileName)
  }

  /** `find_file_path`: the walk loop that returns at the first directory listing the name. */
  method FindFilePath(fileName: string, walk: seq<WalkEntry>) returns (r: Result<string>)
    ensures r == FindFile(walk, fileName)
  {
    var i := 0;
    while i < |walk|
      invariant 0 <= i <= |walk|
      invariant FindFile(walk[i..], fileName) == FindFile(walk, fileName)
    {
      assert walk[i..][1..] == walk[i + 1..];
      if fileName in walk[i].filenames {
        return Success(JoinPath(walk[i].dirpath, fileName));
      }
      i := i + 1;
    }
    return Failure(FileNotFound(fileName));
  }

  /**
   * `find_file_path` succeeds exactly when some directory lists the name, and
   * then names the first such directory in walk order; otherwise it raises
   * FileNotFoundError for that name.
   */
  lemma {:induction false} FindFileFirstMatch(walk: seq<WalkEntry>, fileName: string)
    ensures FindFile(walk, fileName).Success? <==> exists i :: 0 <= i < |walk| && fileName in walk[i].filenames
    ensures FindFile(walk, fileName).Failure? ==> FindFile(walk, fileName).error == FileNotFound(fileName)
    ensures FindFile(walk, fileName).Success? ==>
      exists i :: 0 <= i < |walk| && fileName in walk[i].filenames
        && (forall k :: 0 <= k < i ==> fileName !in walk[k].filenames)
        && FindFile(walk, fileName).value == JoinPath(walk[i].dirpath, fileName)
  {
    if walk != [] && fileName !in walk[0].filenames {
      var t := walk[1..];
      FindFileFirstMatch(t, fileName);
      if exists i :: 0 <= i < |walk| && fileName in walk[i].filenames {
        var i :| 0 <= i < |walk| && fileName in walk[i].filenames;
        assert t[i - 1] == walk[i];
      }
      if FindFile(t, fileName).Success? {
        var i :| 0 <= i < |t| && fileName in t[i].filenames
          && (forall k :: 0 <= k < i ==> fileName !in t[k].filenames)
          && FindFile(t, fileName).value == JoinPath(t[i].dirpath, fileName);
        assert walk[i + 1] == t[i];
        forall k | 0 <= k < i + 1
          ensures fileName !in walk[k].filenames
        {
          if k > 0 { assert walk[k] == t[k - 1]; }
        }
      }
    }
  }
}
