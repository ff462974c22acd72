/**
 * The two path filters of `CmakeGenerator`: a relative directory path is
 * either passed through unchanged or replaced by "" when it must not reach
 * the generated manifest.
 */
module PathFilter {
  import opened Text

  const ExternalLibraries: string := "external_libraries"
  const HelperFolders: set<string> := {"sample", "test_sil", "test_vs"}
  const BuildFolder: string := "build"

  predicate IsExternalLibraries(folder: string)
  {
    Lower(folder) == ExternalLibraries
  }

  predicate IsHelperFolder(folder: string)
  {
    Lower(folder) in HelperFolders
  }

  predicate IsBuildFolder(folder: string)
  {
    Lower(folder) == BuildFolder
  }

  /**
   * The two flags of the segment loop of `check_path_is_sample` after it has
   * visited `folders`, starting from `ext` and `helper`.
   */
  function SampleFlags(folders: seq<string>, ext: bool, helper: bool): (bool, bool)
  {
    if folders == [] then (ext, helper)
    else
      var ext' := ext || IsExternalLibraries(folders[0]);
      var helper' := helper || (ext' && IsHelperFolder(folders[0]));
      SampleFlags(folders[1..], ext', helper')
  }

  /** `check_path_is_sample`: "" for helper folders inside an external library, else `path`. */
  function CheckPathIsSample(path: string): (r: string)
    ensures r == path || r == ""
  {
    var flags := SampleFlags(Split(path, '/'), false, false);
    if flags.0 && flags.1 then "" else path
  }

  /** The early-return segment loop of `check_path_is_build`. */
  function HasBuildFolder(folders: seq<string>): bool
  {
    if folders == [] then false
    else if IsBuildFolder(folders[0]) then true
    else HasBuildFolder(folders[1..])
  }

  /** `check_path_is_build`: "" when some segment is a build folder, else `path`. */
  function CheckPathIsBuild(path: string): (r: string)
    ensures r == path || r == ""
  {
    if HasBuildFolder(Split(path, '/')) then "" else path
  }

  // ----- reference definitions over segment indices -----

  predicate AnyExternal(folders: seq<string>)
  {
    exists i :: 0 <= i < |folders| && IsExternalLibraries(folders[i])
  }

  predicate AnyHelper(folders: seq<string>)
  {
    exists j :: 0 <= j < |folders| && IsHelperFolder(folders[j])
  }

  /** Some segment is `external_libraries` and a later one is a helper folder (any case). */
  predicate HelperUnderExternal(folders: seq<string>)
  {
    exists i, j :: 0 <= i < j < |folders| && IsExternalLibraries(folders[i]) && IsHelperFolder(folders[j])
  }

  predicate AnyBuild(folders: seq<string>)
  {
    exists i :: 0 <= i < |folders| && IsBuildFolder(folders[i])
  }

  lemma ConsExternal(folders: seq<string>)
    requires folders != []
    ensures AnyExternal(folders) == (IsExternalLibraries(folders[0]) || AnyExternal(folders[1..]))
  {
    var t := folders[1..];
    if AnyExternal(folders) {
      var i :| 0 <= i < |folders| && IsExternalLibraries(folders[i]);
      if i > 0 { assert t[i - 1] == folders[i]; }
    }
    if AnyExternal(t) {
      var i :| 0 <= i < |t| && IsExternalLibraries(t[i]);
      assert folders[i + 1] == t[i];
    }
  }

  lemma ConsHelper(folders: seq<string>)
    requires folders != []
    ensures AnyHelper(folders) == (IsHelperFolder(folders[0]) || AnyHelper(folders[1..]))
  {
    var t := folders[1..];
    if AnyHelper(folders) {
      var j :| 0 <= j < |folders| && IsHelperFolder(folders[j]);
      if j > 0 { assert t[j - 1] == folders[j]; }
    }
    if AnyHelper(t) {
      var j :| 0 <= j < |t| && IsHelperFolder(t[j]);
      assert folders[j + 1] == t[j];
    }
  }

  lemma ConsHelperUnderExternal(folders: seq<string>)
    requires folders != []
    ensures HelperUnderExternal(folders) ==
            ((IsExternalLibraries(folders[0]) && AnyHelper(folders[1..])) || HelperUnderExternal(folders[1..]))
  {
    var t := folders[1..];
    if HelperUnderExternal(folders) {
      var i, j :| 0 <= i < j < |folders| && IsExternalLibraries(folders[i]) && IsHelperFolder(folders[j]);
      assert t[j - 1] == folders[j];
      if i > 0 { assert t[i - 1] == folders[i]; }
    }
    if IsExternalLibraries(folders[0]) && AnyHelper(t) {
      var j :| 0 <= j < |t| && IsHelperFolder(t[j]);
      assert folders[j + 1] == t[j];
    }
    if HelperUnderExternal(t) {
      var i, j :| 0 <= i < j < |t| && IsExternalLibraries(t[i]) && IsHelperFolder(t[j]);
      assert folders[i + 1] == t[i] && folders[j + 1] == t[j];
    }
  }

  lemma ConsBuild(folders: seq<string>)
    requires folders != []
    ensures AnyBuild(folders) == (IsBuildFolder(folders[0]) || AnyBuild(folders[1..]))
  {
    var t := folders[1..];
    if AnyBuild(folders) {
      var i :| 0 <= i < |folders| && IsBuildFolder(folders[i]);
      if i > 0 { assert t[i - 1] == folders[i]; }
    }
    if AnyBuild(t) {
      var i :| 0 <= i < |t| && IsBuildFolder(t[i]);
      assert folders[i + 1] == t[i];
    }
  }

  /** What the flag loop computes, stated over segment indices. */
  lemma {:induction false} SampleFlagsMeaning(folders: seq<string>, ext: bool, helper: bool)
    ensures SampleFlags(folders, ext, helper) ==
            (ext || AnyExternal(folders),
             helper || (ext && AnyHelper(folders)) || HelperUnderExternal(folders))
  {
    if folders != [] {
      var f := folders[0];
      var ext' := ext || IsExternalLibraries(f);
      var helper' := helper || (ext' && IsHelperFolder(f));
      SampleFlagsMeaning(folders[1..], ext', helper');
      ConsExternal(folders);
      ConsHelper(folders);
      ConsHelperUnderExternal(folders);
      assert !(IsExternalLibraries(f) && IsHelperFolder(f));
    }
  }

  /** `check_path_is_sample` empties exactly the paths with a helper folder below `external_libraries`. */
  lemma SampleRule(path: string)
    ensures CheckPathIsSample(path) == if HelperUnderExternal(Split(path, '/')) then "" else path
  {
    var folders := Split(path, '/');
    SampleFlagsMeaning(folders, false, false);
    if HelperUnderExternal(folders) {
      var i, j :| 0 <= i < j < |folders| && IsExternalLibraries(folders[i]) && IsHelperFolder(folders[j]);
      assert AnyExternal(folders);
    }
  }

  lemma {:induction false} HasBuildFolderMeaning(folders: seq<string>)
    ensures HasBuildFolder(folders) == AnyBuild(folders)
  {
    if folders != [] {
      HasBuildFolderMeaning(folders[1..]);
      ConsBuild(folders);
    }
  }

  /** `check_path_is_build` empties exactly the paths with a `build` segment (any case). */
  lemma BuildRule(path: string)
    ensures CheckPathIsBuild(path) == if AnyBuild(Split(path, '/')) then "" else path
  {
    HasBuildFolderMeaning(Split(path, '/'));
  }

  /** Applying the sample filter twice is the same as applying it once. */
  lemma SampleIdempotent(path: string)
    ensures CheckPathIsSample(CheckPathIsSample(path)) == CheckPathIsSample(path)
  {
    assert Split("", '/') == [""];
    assert !IsExternalLibraries("");
  }

  /** Applying the build filter twice is the same as applying it once. */
  lemma BuildIdempotent(path: string)
    ensures CheckPathIsBuild(CheckPathIsBuild(path)) == CheckPathIsBuild(path)
  {
    assert Split("", '/') == [""];
    assert !IsBuildFolder("");
  }

  /** A non-empty result of the two filters in sequence is left alone by both. */
  lemma FilteredIsFixed(rel: string)
    requires CheckPathIsBuild(CheckPathIsSample(rel)) != ""
    ensures var r := CheckPathIsBuild(CheckPathIsSample(rel));
            r == rel && CheckPathIsSample(r) == r && CheckPathIsBuild(r) == r
  {
  }
}
