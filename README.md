# SIL scaffolding generator, modelled in Dafny

The SIL operator turns a Python file holding a single class into two generated texts. One is a pybind11 C++ stub with an empty `void name(void) {}` per method and a `PYBIND11_MODULE` block that registers `initialize` and every method name. Dunder methods (names that start and end with `__`) get neither a stub nor a registration. The other is a CMake manifest (`CMakeLists.txt`) that builds that stub into a Python module, together with every C/C++ source file and include directory found under the working directory.

This project models that generator in `helper/SIL/SIL_operator.py`:

- `text.dfy` (`Text`): the pieces of Python's `str` and `posixpath` the generator uses. These are `split`, `join`, ASCII `lower`, `startswith`/`endswith`, `find`, `rfind`, `rstrip`, `posixpath.join`, `dirname` and `split('/')[-1]`.
- `seqs.dfy` (`Seqs`): the list-comprehension combinators the specifications are written with (`FlatMap`, `Map`, `AnyOf`).
- `outcomes.dfy` (`Outcomes`): `Option`, `Result`, and the exceptions the source raises, as an `Error` datatype.
- `path_filter.dfy` (`PathFilter`): `check_path_is_sample` and `check_path_is_build`.
- `source_discovery.dfy` (`SourceDiscovery`): `discover_source_include_dirs`, `discover_source_files` and `find_file_path`.
  - They run over a directory walk given as a sequence of `WalkEntry(dirpath, relpath, filenames)`, in the order `os.walk` yields them.
- `python_analyzer.dfy` (`PythonAnalyzer`):
  - a datatype for the part of the Python AST the analyzer inspects;
  - `_get_decorator_name`, `parse_source` and `parse_file`.
- `pybind_stub.dfy` (`PybindStub`): `generate_cpp_code`.
  - The order in which the registration block walks its `set` of names is left open: the method picks names in any order.
  - The specification holds for every enumeration of the set.
- `cmake_lists.dfy` (`CmakeLists`): `CmakeGenerator` and `generate_cmake_lists_txt`.
- `naming.dfy` (`Naming`): `snake_to_camel`, the `.py` check of `SIL_Operator.__init__`, and the module name `<CamelCase>SIL`.
- `operator.dfy` (`Operator`): the `SIL_Operator` class.
  - Its constructor is modelled, and so is `build_SIL_code` up to (not including) the CMake build.
  - This covers finding the Python file, the stub path, generating the stub only when it does not exist yet, and the manifest.

Each loop that builds a text by `+=` is a method. The text is tracked as the concatenation of a ghost list of pieces, and the method is proved equal to a specification function over those pieces. Properties of the generated texts are lemmas about those functions.

Behaviours of the code as written, which the model reproduces:

- the root directory is never an include directory, although the docstring of `discover_source_include_dirs` (lines 141-146) says `''` stands for the root;
- each method occurrence gets its own C++ stub (duplicates included), and only registrations are de-duplicated;
- two top-level classes with the same name collapse to one, and the later body wins;
- async methods are ignored;
- the stub path is cut at the first `.py` anywhere in the path.

## Model

| member | source | states |
|---|---|---|
| PathFilter.CheckPathIsSample | helper/SIL/SIL_operator.py:85-109 | the result is the path itself or the empty string |
| PathFilter.SampleFlagsMeaning | helper/SIL/SIL_operator.py:96-104 | the flag loop sets the external flag iff some segment lower-cases to `external_libraries`, and the helper flag iff such a segment is followed (at or after it) by one lower-casing to `sample`, `test_sil` or `test_vs` |
| PathFilter.SampleRule | helper/SIL/SIL_operator.py:92-109 | `check_path_is_sample(p)` is `""` exactly when an `external_libraries` segment has a `sample`/`test_sil`/`test_vs` segment after it, otherwise `p` |
| PathFilter.CheckPathIsBuild | helper/SIL/SIL_operator.py:112-124 | the result is the path itself or the empty string |
| PathFilter.HasBuildFolderMeaning | helper/SIL/SIL_operator.py:120-122 | the early-return loop finds a folder exactly when some segment lower-cases to `build` |
| PathFilter.BuildRule | helper/SIL/SIL_operator.py:118-124 | `check_path_is_build(p)` is `""` iff some `/`-segment lower-cases to `build`, otherwise `p` |
| PathFilter.SampleIdempotent | helper/SIL/SIL_operator.py:85-109 | applying the sample filter twice equals applying it once |
| PathFilter.BuildIdempotent | helper/SIL/SIL_operator.py:112-124 | applying the build filter twice equals applying it once |
| PathFilter.FilteredIsFixed | helper/SIL/SIL_operator.py:168-169 | a relative directory that survives both filters is returned unchanged and is a fixed point of each filter |
| SourceDiscovery.Extension | helper/SIL/SIL_operator.py:161 | `os.path.splitext(fn)[1]`: empty, or a suffix of the name that starts with its last dot, has no other dot and leaves something before it |
| SourceDiscovery.MatchesExtension | helper/SIL/SIL_operator.py:161-162 | the extension test of both discovery loops (also lines 195-196): the lower-cased extension is one of the wanted ones |
| SourceDiscovery.StubExtension | helper/SIL/SIL_operator.py:161-162 | a stub name `<base>_SIL.cpp` has extension `.cpp`, so both discovery loops match it |
| SourceDiscovery.FirstSeenContents | helper/SIL/SIL_operator.py:171-173 | the seen-set de-duplication yields no duplicates and exactly the non-empty candidates |
| SourceDiscovery.IncludeDirOf | helper/SIL/SIL_operator.py:163-169 | the relative directory of a walk entry, with `.` as `""`, passed through both filters |
| SourceDiscovery.VisitIncludeDir | helper/SIL/SIL_operator.py:159-174 | visiting one directory appends its candidate at most once (the `break` after the first matching file), only if it is new and non-empty, and keeps the seen set equal to the list's elements |
| SourceDiscovery.DiscoverSourceIncludeDirs | helper/SIL/SIL_operator.py:134-177 | the walk loop returns exactly the first-seen, non-empty, filtered directories holding a matching file |
| SourceDiscovery.IncludeDirsShape | helper/SIL/SIL_operator.py:171-174 | the include dirs have no duplicates, never contain `""`, and number at most one per walked directory |
| SourceDiscovery.IncludeDirsMembership | helper/SIL/SIL_operator.py:159-174 | a directory is listed iff some walked directory has a file with a matching extension and filters to it, and it is non-empty |
| SourceDiscovery.IncludeDirsFiltered | helper/SIL/SIL_operator.py:168-169 | every listed include dir is unchanged by both filters |
| SourceDiscovery.IncludeDirsOrder | helper/SIL/SIL_operator.py:158-174 | include dirs appear in the order in which the walk first produces them |
| SourceDiscovery.ListDirectory | helper/SIL/SIL_operator.py:193-208 | the file loop for one directory lists `join(dirpath, fn)` for each matching file in order, or nothing when the filters empty a non-root directory |
| SourceDiscovery.DiscoverSourceFiles | helper/SIL/SIL_operator.py:180-210 | the walk loop returns the concatenation of the per-directory listings, in walk and file order |
| SourceDiscovery.SourceFilesMembership | helper/SIL/SIL_operator.py:193-208 | a path is listed iff it is `join(dirpath, fn)` for a matching file of a directory that is the walk root or whose filtered relative path is non-empty |
| SourceDiscovery.SourceFilesAppend | helper/SIL/SIL_operator.py:193-208 | no de-duplication: the listing of two walk segments is the concatenation of their listings |
| SourceDiscovery.SourceDirsAreIncluded | helper/SIL/SIL_operator.py:151-208 | a non-root directory contributing a `.c`/`.cpp` source also appears among the include dirs |
| SourceDiscovery.FindFilePath | helper/SIL/SIL_operator.py:427-439 | the walk loop returns the path of the first directory listing the name, or `FileNotFound` |
| SourceDiscovery.FindFileFirstMatch | helper/SIL/SIL_operator.py:435-439 | success iff some walked directory lists the name; on success the path joins the first such directory with the name; otherwise the error is `FileNotFound` |
| PythonAnalyzer.GetDecoratorName | helper/SIL/SIL_operator.py:282-299 | the attribute-walking loop computes the decorator's name: `Name` gives its id, `Call` the name of its callee, an attribute chain its dotted parts |
| PythonAnalyzer.DecoratorNames | helper/SIL/SIL_operator.py:316-317 | one decorator name per decorator, in order |
| PythonAnalyzer.ChainPartsOfChain | helper/SIL/SIL_operator.py:289-293 | collecting an attribute chain yields the root's parts followed by the attributes in source order |
| PythonAnalyzer.DottedDecoratorName | helper/SIL/SIL_operator.py:284-297 | `@a.b.c` and `@a.b.c(args)` are both named `a.b.c`; arguments are ignored |
| PythonAnalyzer.DottedNameRoundTrip | helper/SIL/SIL_operator.py:289-294 | splitting a dotted decorator name on `.` gives back the chain's identifiers |
| PythonAnalyzer.ChainOverOtherRoot | helper/SIL/SIL_operator.py:291-294 | a chain rooted at something other than a name keeps only its attributes |
| PythonAnalyzer.ClassMethods | helper/SIL/SIL_operator.py:312-322 | the method loop of one class collects its direct `FunctionDef` items as (name, line, decorators) |
| PythonAnalyzer.ParseSource | helper/SIL/SIL_operator.py:302-325 | the class loop builds the class-to-methods map of the module body |
| PythonAnalyzer.ParseFile | helper/SIL/SIL_operator.py:328-339 | a missing file gives `FileNotFound`, a parse failure `SyntaxError`, otherwise the outline; failure iff one of the two |
| PythonAnalyzer.ClassesKeys | helper/SIL/SIL_operator.py:310-323 | a name is a key iff some top-level statement is a class of that name |
| PythonAnalyzer.ClassesLastWins | helper/SIL/SIL_operator.py:323 | a class's entry holds the methods of the last top-level class with its name |
| PythonAnalyzer.SameNameCollapses | helper/SIL/SIL_operator.py:323 | two top-level classes with one name give a single entry holding the second body's methods |
| PythonAnalyzer.MethodsMembership | helper/SIL/SIL_operator.py:314-322 | a method record is present iff a direct `FunctionDef` item has that name, line and decorator names |
| PythonAnalyzer.MethodsInSourceOrder | helper/SIL/SIL_operator.py:314-322 | the methods of a concatenated body are those of the first part followed by those of the second |
| PythonAnalyzer.OnlyPlainDefsCount | helper/SIL/SIL_operator.py:315 | an item that is not a plain `FunctionDef` (an async def, a nested class, any other statement) adds no method |
| PybindStub.GenerateCppCode | helper/SIL/SIL_operator.py:344-396 | the generator's errors are those of parsing and of the class count; otherwise the text is the preamble, the class comment, a comment and stub per non-dunder method, and the module block registering `initialize` and each exported name in some enumeration of the name set |
| PybindStub.EmitDefinitions | helper/SIL/SIL_operator.py:374-384 | the method loop emits one comment and stub per non-dunder method and collects exactly the exported name set |
| PybindStub.EmitRegistrations | helper/SIL/SIL_operator.py:390-391 | the registration loop emits one `m.def` line per name in a duplicate-free enumeration of the name set |
| PybindStub.RegisteredOnce | helper/SIL/SIL_operator.py:386-393 | the module block registers `initialize` exactly once and each name once if it is exported and never otherwise |
| PybindStub.RegistrationDistinct | helper/SIL/SIL_operator.py:388-391 | distinct names give distinct `m.def` lines, none equal to the `initialize` line |
| PybindStub.RegistrationCount | helper/SIL/SIL_operator.py:390-391 | a name's `m.def` line occurs as often as the name does in the enumeration |
| PybindStub.IsDunder | helper/SIL/SIL_operator.py:377 | the dunder test: the name starts with `__` and ends with `__`; its effect on the stub is stated by `PybindStub.ExportedMembership` and `PybindStub.DefinitionCount` |
| PybindStub.ExportedMembership | helper/SIL/SIL_operator.py:376-384 | a name is exported iff it is not dunder and some method has it |
| PybindStub.DefinitionDistinct | helper/SIL/SIL_operator.py:381-382 | method comments and stubs determine their name and never coincide |
| PybindStub.DefinitionCount | helper/SIL/SIL_operator.py:376-382 | each non-dunder name gets as many stubs and comments as methods carrying it (duplicates repeat), a dunder name none |
| PybindStub.SingletonEnumeration | helper/SIL/SIL_operator.py:390 | a one-name set can only be enumerated as that name |
| PybindStub.SampleMatrixExports | sample/matrix/sample_matrix.py:4-10 | the sample class `SampleMatrix` (`__init__`, `add`) exports just `add` |
| PybindStub.SampleMatrixRegistrations | sample/matrix/sample_matrix_SIL.cpp:71-74 | the sample's module block registers `initialize` and then `add` |
| PybindStub.TwoKeys | helper/SIL/SIL_operator.py:359-361 | an outline with two distinct class names counts at least two classes |
| PybindStub.ClassCountErrors | helper/SIL/SIL_operator.py:356-361 | two differently named top-level classes give the multiple-classes error; an empty module the no-classes error |
| PybindStub.SameNameClassesAccepted | helper/SIL/SIL_operator.py:323 | two same-named classes are not an error: the stub is generated for the second body |
| CmakeLists.CmakeGenerator.GenerateCmakeListsTxt | helper/SIL/SIL_operator.py:212-262 | the manifest text is the fixed header, the module source list, the Release `-Werror` block and one include line per discovered include dir, over the discovered dirs and files |
| CmakeLists.CmakeGenerator.WriteManifest | helper/SIL/SIL_operator.py:221-262 | the text built by `+=` is the concatenation of the manifest's pieces |
| CmakeLists.EmitExtraSources | helper/SIL/SIL_operator.py:241-244 | the source loop emits one list line per discovered file other than the primary source, in order |
| CmakeLists.EmitIncludeDirs | helper/SIL/SIL_operator.py:254-260 | the include loop emits one list line per include path |
| CmakeLists.SourceListing | helper/SIL/SIL_operator.py:239-244 | the module list starts with the stub path; it holds that path once and every other file as often as discovered |
| CmakeLists.ExtraSourcesCount | helper/SIL/SIL_operator.py:242-244 | a file equal to the primary source is dropped, and every other file is kept as often as it occurs |
| CmakeLists.ExtraSourcesOrder | helper/SIL/SIL_operator.py:241-244 | the kept files follow discovery order |
| CmakeLists.IncludePathsAll | helper/SIL/SIL_operator.py:255-260 | each non-empty include dir gives exactly one path, `join(root, dir)`, in order |
| CmakeLists.DiscoveredIncludeLines | helper/SIL/SIL_operator.py:253-262 | one include line per discovered include dir, in order, each naming `join(root, dir)` |
| Naming.SnakeToCamelRemovesUnderscores | helper/SIL/SIL_operator.py:26-31 | `snake_to_camel` equals title-casing the whole name and deleting the underscores, so no `_` remains |
| Naming.TitleAt | helper/SIL/SIL_operator.py:31 | title-casing upper-cases a letter that does not follow a letter (also after a digit) and lower-cases one that does |
| Naming.TwoFieldCamel | helper/SIL/SIL_operator.py:26-31 | a two-word snake name becomes the two title-cased words joined |
| Naming.SnakeToCamel | helper/SIL/SIL_operator.py:26-31 | `snake_to_camel`: the title-cased `_`-fields joined with nothing between them; characterized by `Naming.SnakeToCamelRemovesUnderscores` |
| Naming.ModuleName | helper/SIL/SIL_operator.py:413-415 | the module name is `snake_to_camel(stem) + "SIL"`, that is, the title-cased stem with its underscores removed, followed by `SIL` |
| Naming.TargetStem | helper/SIL/SIL_operator.py:407-411 | a name is accepted iff it ends in `.py`; the stem plus `.py` gives back the name; otherwise it fails with the not-a-Python-file error (the `ValueError`; the model's error value also carries the name, which the source's fixed message does not) |
| Naming.SampleMatrixStem | helper/SIL/SIL_operator.py:407-408 | `sample_matrix.py` is accepted with stem `sample_matrix` |
| Naming.SampleMatrixModuleName | sample/matrix/sample_matrix_SIL.cpp:71 | the module name derived from `sample_matrix` is `SampleMatrixSIL` |
| Operator.SilOperator.Create | helper/SIL/SIL_operator.py:400-424 | construction fails with the not-a-Python-file error iff the name lacks `.py`; otherwise the operator holds the stem, the module name derived from it, the working directory and the SIL folder, and an empty stub path |
| Operator.SilOperator.BuildSilCode | helper/SIL/SIL_operator.py:475-501 | a missing Python file fails with `FileNotFound`. Otherwise the stub path is recorded. The stub is generated (with its errors) only when that path does not exist. The manifest is written into the SIL folder, computed over the tree as it stands after the stub has been written |
| Operator.SilOperator.WriteManifestFor | helper/SIL/SIL_operator.py:494-501 | the manifest is generated for the found file's directory and stub name and written to `CMakeLists.txt` in the SIL folder |
| Operator.SilOperator.PrimaryIsStub | helper/SIL/SIL_operator.py:483-497 | for a file in a non-root directory, the manifest's primary source is exactly the stub path the build records |
| Operator.StubPathFor | helper/SIL/SIL_operator.py:483-485 | `path.split('.py')[0] + "_SIL.cpp"`: the path up to its first `.py` (the whole path when there is none), followed by `_SIL.cpp` |
| Operator.StubDirectoryIncluded | helper/SIL/SIL_operator.py:487-501 | on a first run the manifest's include dirs list the Python file's directory (when the filters keep it), because the stub written there (lines 395-396) is a `.cpp` file |
| Operator.StubPathCutsAtFirstPy | helper/SIL/SIL_operator.py:483-485 | the stub path keeps everything before the first `.py` anywhere in the path and drops the rest |
| Operator.PlainStubPath | helper/SIL/SIL_operator.py:483-485 | when the extension is the path's only `.py`, the stub path replaces it by `_SIL.cpp` |

## Left out

- `build_pybind11_code` and the call to it at the end of `build_SIL_code`: they shell out to `rm`, `mkdir`, `cmake` and `mv`, which is an external toolchain.
- File reads and writes.
  - The generators return their text. `BuildSilCode` returns the files it would write as `(path, text)` pairs.
  - The existence checks of `parse_file` and `build_SIL_code` are inputs: a flag, or a set of existing paths.
  - Reading the Python file can fail in other ways: a decoding error, a permission error, or a path that is a directory. These are not modelled; an existing file is always read.
- `os.walk` is an input sequence of walk entries, and `os.getcwd()` is an input.
  - `os.path.abspath` and `os.path.relpath` are not modelled: each entry carries its relative directory, and the root is taken to be already absolute and normalised.
  - Walks that fail, or follow links, are not modelled.
- `ast.parse` and `ast.dump` are foreign library calls.
  - The model takes the parsed module body as input, with `None` standing for a syntax error.
  - The `ast.dump` text of an unrecognised decorator is carried inside the AST value.
  - `lineno` is always present.
- `str.title` and `str.lower` are modelled for ASCII only. Python's Unicode case mapping is not modelled.
- `_check_sample_dir_direct_under_root` and `is_sample_dir_direct_under_root`: they depend on `realpath` and `isdir`, only print a warning, and their result is not used by the generator.
  - For the same reason `CmakeGenerator` is a value: no field the generator reads changes after construction.
- `folder_name` and `this_file_path` of `SIL_Operator`, and `original_python_file_name` of the manifest generator: they are computed or stored but never used in any generated text.
- `find_c_make_lists_txt`: nothing in the modelled core calls it.
- Dict order: `parse_source`'s dict is a `map`, which has no order. With only one class accepted, the order is never observable.
- `PybindStub.GenerateCppCode`: fixes the registration order only up to "some enumeration of the name set", because a Python `set` iterates in hash order. Registration properties are stated as counts and membership.
- `Operator.SilOperator.BuildSilCode`: the generated stub is returned, not written. Its effect on the manifest's discovery walks is modelled by adding its name to its directory's listing, placed last (a real listing has file-system order). A path that exists but cannot be written is not modelled.
- `Operator.SilOperator.PrimaryIsStub`: stated only for a Python file in a non-root directory. For a file directly under `/`, `dirname` keeps the slash and the manifest names `//<stub>`.
- Exception classes: all exceptions are `Error` values. `ValueError`, `FileNotFoundError` and `SyntaxError` are distinguished by constructor, not by class.
