# Code::Blocks project generators of CMake, modelled in Dafny

CMake writes a Code::Blocks project file (`.cbp`) in two places. The global
generator `cmGlobalCodeBlocksGenerator` writes one per project. The extra
generator `cmExtraCodeBlocksGenerator` does the same beside a makefile
generator. The two share near-identical code. This project models that code
and proves what it writes.

The modules follow the parts of the generators:

- `VirtualFolders` models the "CMake Files" virtual-folder tree (`CBTree` / `Tree`).
  - The datatype `Folder` is the reference model. `Insert` specifies `InsertPath` on it, and `NodeDecls` / `NodeUnits` specify the two renderers.
  - The class `CBTree` is the mutable tree the generator updates in place. Its fields are `path`, `folders` and `files`, and `Valid()` ties them to a ghost `Folder` model.
  - `CBTree.InsertPath` mutates the tree and is proved to produce `Insert` of the old model. The read-only `Build*` methods append to a string accumulator and are proved to append the text of the pure renderers.
  - `BuildTree` is the list-file loop that fills the tree.
  - Lemmas state the tree's properties:
    - sibling labels stay unique;
    - each insertion adds exactly one file, at the folder its path names, and leaves every other folder's files as they were;
    - there is one declaration per non-root folder and one unit per file, and every unit's folder is declared;
    - the file name and folder of each unit are built from the labels on its path.
- `SourceClassifier` models the loops that sort every source of every target into `cFiles` (implementation files) and `otherFiles`, and the header probe next to each implementation file.
  - The global generator's `cFiles` maps a path to its targets. The extra generator's maps a path to its source.
  - The loops are methods. Each is proved equal to a fold (`CFileTargets`, `CFileSources`, `OtherFiles`, `DiscoverHeaders`) over the sequence of `(target, source)` visits.
  - Lemmas characterise the folds: which keys `cFiles` has, the target list of each, which paths `otherFiles` holds, at most one header per implementation file, and the first-hit rule of the probe.
- `ProjectUnits` models the `<Unit>` section.
  - Implementation files come first, in `std::map` order; the global generator lists their targets under each. Other files follow, in `std::set` order, then the list-file units.
  - Lemmas state the order and that a source shared by several targets gets a single unit.
- `TargetRules` models the per-target rules:
  - the numeric target type and the compiler token;
  - which targets get a `<Target>` block and which the `All` alias lists, excluding the dashboard sub-targets;
  - the working directory, the output location and the `.objlib` marker name;
  - the compiler options and the sorted, duplicate-free include directories;
  - the global generator's `<Linker>` block.
- `BuildCommands` models the two command-line builders, `GenerateBuildCommand` and `BuildMakeCommand`.
- `BuildGraph` holds the build graph the generators read, as values. `Strings` holds string helpers, including the lexicographic order of `std::string` and the sorted sequence by which a `std::set<std::string>` (or the keys of a `std::map`) is iterated. `Wrappers` holds `Option`.

Foreign calls are parameters of the operations that use them:

- `relativePath` for `cmSystemTools::RelativePath` and `splitPath` for `SplitPath`;
- `expandList` for `ExpandListArgument`;
- `fileExists` for `FileExists` and `toOutputPath` for `ConvertToOutputPath`;
- `filenamePath` and `withoutExtension` for `GetFilenamePath` and `GetFilenameWithoutExtension`;
- `xmlSafe` for `cmXMLSafe`;
- `findTarget` for `cmMakefile::FindTargetToUse`.

Nothing is assumed about them. Output to the file stream is modelled as the string that is appended to.

Two behaviours of the source worth noting:

- The generators emit compile definitions and flags as they come, with no deduplication. Only the include directories pass through a `std::set`, and come out sorted.
- A list file directly in the home directory is not filtered out. Its split path is the root component followed by the file name. `InsertPath` is called with `start == 1` (cmGlobalCodeBlocksGenerator.cxx:313), so the file lands in the root node's files and is rendered with folder `CMake Files\`.

## Model

| member | source | states |
|---|---|---|
| VirtualFolders.ChildIndex | Source/cmGlobalCodeBlocksGenerator.cxx:55-72 | the folder search of InsertPath finds the first child whose label is the path component, and finds none exactly when no child has that label |
| VirtualFolders.InsertAddsOneFile | Source/cmExtraCodeBlocksGenerator.cxx:123-168 | every insertion adds exactly one file to the tree |
| VirtualFolders.InsertKeepsPath | Source/cmGlobalCodeBlocksGenerator.cxx:46-91 | insertion never relabels the node it starts from |
| VirtualFolders.InsertSiblings | Source/cmGlobalCodeBlocksGenerator.cxx:55-90 | the children's labels after insertion are the old ones, plus the path component at the end exactly when the path continues and no child had that label (insertion order kept, a new child only when none matches) |
| VirtualFolders.InsertKeepsLabelsUnique | Source/cmGlobalCodeBlocksGenerator.cxx:55-90 | if no two siblings anywhere in the tree share a label, this still holds after insertion; the same in cmExtraCodeBlocksGenerator.cxx, lines 123-168 |
| VirtualFolders.InsertAppendsAtPath | Source/cmGlobalCodeBlocksGenerator.cxx:46-91 | after InsertPath(splitted, start, f), the files of the folder reached by splitted[start..] are the old ones followed by f (at start == size, the current node's files) |
| VirtualFolders.InsertLeavesOtherPaths | Source/cmGlobalCodeBlocksGenerator.cxx:46-91 | the files of every folder reached by any other route are unchanged |
| VirtualFolders.UnitsTextAppend | Source/cmGlobalCodeBlocksGenerator.cxx:120-161 | the text of two unit runs is the text of one followed by the other |
| VirtualFolders.DeclsTextAppend | Source/cmGlobalCodeBlocksGenerator.cxx:107-117 | the text of two declaration runs is the text of one followed by the other |
| VirtualFolders.UnitsCount | Source/cmGlobalCodeBlocksGenerator.cxx:120-161 | BuildUnit renders exactly one unit per file in the tree |
| VirtualFolders.NodeUnitsCount | Source/cmGlobalCodeBlocksGenerator.cxx:140-161 | BuildUnitImpl renders one unit per file in or below the node |
| VirtualFolders.DeclsCount | Source/cmGlobalCodeBlocksGenerator.cxx:94-117 | BuildVirtualFolder declares exactly one folder per non-root node |
| VirtualFolders.NodeDeclsCount | Source/cmGlobalCodeBlocksGenerator.cxx:107-117 | BuildVirtualFolderImpl declares one folder per node in or below the node |
| VirtualFolders.UnitsDeclared | Source/cmExtraCodeBlocksGenerator.cxx:171-236 | the folder of every unit BuildUnit writes is the root folder or one BuildVirtualFolder declares |
| VirtualFolders.NodeUnitsDeclared | Source/cmGlobalCodeBlocksGenerator.cxx:107-161 | below a node, every unit's folder is one of the node's declarations, with the same prefix |
| VirtualFolders.UnitsLayout | Source/cmGlobalCodeBlocksGenerator.cxx:120-161 | units and files correspond both ways: every unit is that of a file reached by some route, and every file reached by a route has a unit; its filename is fsPath, then the route's labels each followed by "/", then the file, and its folder is the same labels each followed by "\" (empty for root files) |
| VirtualFolders.NodeUnitsLayout | Source/cmGlobalCodeBlocksGenerator.cxx:140-161 | both ways: every unit BuildUnitImpl writes for a node is that of a file in or below it, and every file in or below it gets its unit, with the node's label leading both paths |
| VirtualFolders.CBTree.constructor | Source/cmGlobalCodeBlocksGenerator.cxx:74-75 | a new folder has the given label, no children and no files |
| VirtualFolders.CBTree.PushFile | Source/cmGlobalCodeBlocksGenerator.cxx:51 | files.push_back: the file is appended, nothing else changes |
| VirtualFolders.CBTree.InsertPath | Source/cmGlobalCodeBlocksGenerator.cxx:46-91 | the in-place insertion keeps the tree valid and leaves it equal to Insert of the old tree; the same in cmExtraCodeBlocksGenerator.cxx, lines 123-168 |
| VirtualFolders.CBTree.ChildInsert | Source/cmGlobalCodeBlocksGenerator.cxx:58-71 | descending into the matching child k changes only child k, to Insert of it |
| VirtualFolders.CBTree.Descend | Source/cmGlobalCodeBlocksGenerator.cxx:62-70 | below the component at start, recurse while the path continues, else push the file (last part of splitted) |
| VirtualFolders.CBTree.AppendFolder | Source/cmGlobalCodeBlocksGenerator.cxx:80-88 | folders.push_back: the new child is appended after the existing ones |
| VirtualFolders.CBTree.BuildVirtualFolder | Source/cmGlobalCodeBlocksGenerator.cxx:94-104 | appends `<Option virtualFolders="CMake Files\;`, the declarations of all non-root folders in preorder, then `" />`; the same in cmExtraCodeBlocksGenerator.cxx, lines 171-181 |
| VirtualFolders.CBTree.BuildVirtualFolderImpl | Source/cmGlobalCodeBlocksGenerator.cxx:107-117 | appends `CMake Files\<prefix><label>\;` then the children's declarations with the extended prefix |
| VirtualFolders.CBTree.ChildDecls | Source/cmGlobalCodeBlocksGenerator.cxx:111-116 | the child loop appends each child's declarations in insertion order |
| VirtualFolders.CBTree.BuildUnit | Source/cmGlobalCodeBlocksGenerator.cxx:120-137 | appends the units of the root's files (folder `CMake Files\`), then those of every child, depth first; the same in cmExtraCodeBlocksGenerator.cxx, lines 197-213 |
| VirtualFolders.CBTree.BuildUnitImpl | Source/cmGlobalCodeBlocksGenerator.cxx:140-161 | appends the node's files as `fsPath + label + "/" + file` in `CMake Files\<path><label>\`, then the children's units |
| VirtualFolders.CBTree.ChildUnits | Source/cmGlobalCodeBlocksGenerator.cxx:154-160 | the child loop appends each child's units with the extended paths |
| VirtualFolders.AppendFileUnits | Source/cmGlobalCodeBlocksGenerator.cxx:124-132 | the file loop appends one unit per file, in order |
| VirtualFolders.PlaceListFile | Source/cmGlobalCodeBlocksGenerator.cxx:289-315 | a list file is skipped exactly when it starts with CMAKE_ROOT, the split of its relative path has fewer than two parts (root and file name), or the relative path contains "CMakeFiles"; otherwise it is placed with the leading parts and the last part as file name, which rejoin to the split path; the same in cmExtraCodeBlocksGenerator.cxx, lines 273-299 |
| VirtualFolders.ProjectListFiles | Source/cmGlobalCodeBlocksGenerator.cxx:274-285 | the collected list files are exactly those of the project's directories |
| VirtualFolders.CollectListFiles | Source/cmGlobalCodeBlocksGenerator.cxx:275-285 | the collecting loop yields ProjectListFiles |
| VirtualFolders.PlaceFilesShape | Source/cmGlobalCodeBlocksGenerator.cxx:289-315 | placing a project's list files adds one file per placed list file and keeps sibling labels unique |
| VirtualFolders.VirtualTreeShape | Source/cmGlobalCodeBlocksGenerator.cxx:268-316 | the tree built from all projects holds one file per placed list file and no two siblings share a label |
| VirtualFolders.PlaceListFileInto | Source/cmGlobalCodeBlocksGenerator.cxx:291-315 | one list file: the tree is unchanged when it is skipped, else it receives InsertPath(splitted, 1, fileName) |
| VirtualFolders.PlaceProjectFiles | Source/cmGlobalCodeBlocksGenerator.cxx:288-315 | the list-file loop of one project leaves the tree equal to the fold PlaceFiles |
| VirtualFolders.BuildTree | Source/cmGlobalCodeBlocksGenerator.cxx:266-316 | the loop over every project of the project map builds the tree VirtualTree describes; the same in cmExtraCodeBlocksGenerator.cxx, lines 250-300 |
| SourceClassifier.SourceEntries | Source/cmGlobalCodeBlocksGenerator.cxx:433-437 | one visit per source of a target, in order |
| SourceClassifier.HasSourceExtension | Source/cmGlobalCodeBlocksGenerator.cxx:448-459 | the extension loop finds a match exactly when the extension is in the list |
| SourceClassifier.IsCFile | Source/cmGlobalCodeBlocksGenerator.cxx:445-460 | a source is an implementation file exactly when its language is set and starts with 'C' and its extension is in the source-extension list |
| SourceClassifier.AddSourceGlobal | Source/cmGlobalCodeBlocksGenerator.cxx:438-482 | one source: generated sources are skipped, an implementation file appends the target to its path's list (creating it if new), any other file is inserted in otherFiles |
| SourceClassifier.AddTargetSourcesGlobal | Source/cmGlobalCodeBlocksGenerator.cxx:437-483 | the source loop of a target extends cFiles and otherFiles exactly as the folds over the new visits say |
| SourceClassifier.AddTargetSourcesExtra | Source/cmExtraCodeBlocksGenerator.cxx:413-447 | the same for the extra generator, where cFiles[path] = source |
| SourceClassifier.AddDirectoryGlobal | Source/cmGlobalCodeBlocksGenerator.cxx:420-485 | the target loop of one directory handles the sources of every target kind that can have sources |
| SourceClassifier.AddDirectoryExtra | Source/cmExtraCodeBlocksGenerator.cxx:397-450 | the same for the extra generator, with the top directory's source extensions |
| SourceClassifier.ClassifyGlobal | Source/cmGlobalCodeBlocksGenerator.cxx:414-486 | the classification loops yield CFileTargets and OtherFiles of all visits |
| SourceClassifier.ClassifyExtra | Source/cmExtraCodeBlocksGenerator.cxx:392-451 | the classification loops yield CFileSources and OtherFiles of all visits |
| SourceClassifier.CFileTargetsCharacterised | Source/cmGlobalCodeBlocksGenerator.cxx:463-478 | a path is a key of cFiles iff some non-generated implementation-file visit has it; its list is all the targets of those visits in order (never empty), so a repeated path adds a target, not an entry |
| SourceClassifier.CFileSourcesKeys | Source/cmExtraCodeBlocksGenerator.cxx:439-442 | the extra generator's cFiles has the same keys as the global one's |
| SourceClassifier.CFileSourcesLastWins | Source/cmExtraCodeBlocksGenerator.cxx:439-442 | each path maps to the source of the last implementation-file visit with that path |
| SourceClassifier.OtherFilesCharacterised | Source/cmGlobalCodeBlocksGenerator.cxx:478-481 | otherFiles holds exactly the paths of non-generated sources that are not implementation files |
| SourceClassifier.GeneratedSourcesSkipped | Source/cmGlobalCodeBlocksGenerator.cxx:439-443 | a path all of whose sources are GENERATED is in neither container; the same in cmExtraCodeBlocksGenerator.cxx, lines 415-419 |
| SourceClassifier.Probe | Source/cmGlobalCodeBlocksGenerator.cxx:506-527 | the header probe yields only a name that is not yet in otherFiles and exists |
| SourceClassifier.ProbeFirstHit | Source/cmGlobalCodeBlocksGenerator.cxx:506-527 | the probe inserts exactly the candidate of the first extension that is reached (no earlier candidate already in otherFiles or existing), not in otherFiles, and existing; none when there is no such extension |
| SourceClassifier.ProbeHeader | Source/cmGlobalCodeBlocksGenerator.cxx:506-527 | the extension loop adds to otherFiles exactly what Probe yields; the same in cmExtraCodeBlocksGenerator.cxx, lines 470-491 |
| SourceClassifier.Inserted | Source/cmGlobalCodeBlocksGenerator.cxx:517-527 | a probe inserts at most one name |
| SourceClassifier.DiscoverHeaders | Source/cmGlobalCodeBlocksGenerator.cxx:494-528 | header discovery never removes a name from otherFiles |
| SourceClassifier.DiscoverHeadersBound | Source/cmGlobalCodeBlocksGenerator.cxx:494-528 | probing n paths adds at most n names |
| SourceClassifier.DiscoveredHeadersExist | Source/cmGlobalCodeBlocksGenerator.cxx:500-527 | every added name exists and is `dir + "/" + name-without-extension + "." + ext` for some probed path and header extension |
| SourceClassifier.AddHeaders | Source/cmGlobalCodeBlocksGenerator.cxx:494-528 | the header loop probes the cFiles keys in ascending order, each against the otherFiles of the moment; the same in cmExtraCodeBlocksGenerator.cxx, lines 460-492 |
| SourceClassifier.AtMostOneHeaderEach | Source/cmGlobalCodeBlocksGenerator.cxx:494-528 | header discovery keeps every name of otherFiles and adds at most one header per cFiles entry |
| ProjectUnits.SourceUnitsTextAppend | Source/cmGlobalCodeBlocksGenerator.cxx:530-553 | the text of two unit runs is the text of one followed by the other |
| ProjectUnits.GlobalUnitsOrder | Source/cmGlobalCodeBlocksGenerator.cxx:530-553 | the units are first the cFiles keys, each once and in ascending order, each listing its targets, then the otherFiles, each once and in ascending order, listing none |
| ProjectUnits.ExtraUnitsOrder | Source/cmExtraCodeBlocksGenerator.cxx:494-511 | the units are the cFiles keys, then the otherFiles, each run sorted and duplicate-free, and no unit lists a target |
| ProjectUnits.SortedRunDistinct | Source/cmGlobalCodeBlocksGenerator.cxx:531-535 | iterating a std::map or std::set never visits a key twice |
| ProjectUnits.SharedSourceOneUnitGlobal | Source/cmGlobalCodeBlocksGenerator.cxx:463-545 | an implementation file used by several targets gets a single unit, which lists all those targets in visiting order |
| ProjectUnits.SharedSourceOneUnitExtra | Source/cmExtraCodeBlocksGenerator.cxx:441-504 | an implementation file used by several targets gets a single unit with no target option |
| ProjectUnits.TargetUnitsRun | Source/cmGlobalCodeBlocksGenerator.cxx:531-545 | the cFiles loop visits every key once, in ascending order, with its own target list |
| ProjectUnits.PlainUnitsRun | Source/cmGlobalCodeBlocksGenerator.cxx:546-553 | the otherFiles loop visits every path once, in ascending order |
| ProjectUnits.WriteTargetLines | Source/cmGlobalCodeBlocksGenerator.cxx:538-543 | the target loop writes one `<Option target>` line per target, in order |
| ProjectUnits.WriteSourceUnit | Source/cmGlobalCodeBlocksGenerator.cxx:537-544 | one unit: the opening line, its target lines, the closing line |
| ProjectUnits.WritePlainUnit | Source/cmGlobalCodeBlocksGenerator.cxx:551-552 | a unit without target options |
| ProjectUnits.WriteTargetUnits | Source/cmGlobalCodeBlocksGenerator.cxx:531-545 | the cFiles loop writes the units of the keys in std::map order |
| ProjectUnits.WritePlainUnits | Source/cmExtraCodeBlocksGenerator.cxx:505-511 | the otherFiles loop writes the units of its paths in std::set order |
| ProjectUnits.WriteUnitsGlobal | Source/cmGlobalCodeBlocksGenerator.cxx:530-556 | the source section is GlobalSourceUnits followed by the list-file units |
| ProjectUnits.WriteUnitsExtra | Source/cmExtraCodeBlocksGenerator.cxx:494-514 | the source section is ExtraSourceUnits followed by the list-file units |
| ProjectUnits.WriteSourceSectionGlobal | Source/cmGlobalCodeBlocksGenerator.cxx:411-556 | classification with each directory's extensions, header discovery with the top directory's header extensions, then the units |
| ProjectUnits.WriteSourceSectionExtra | Source/cmExtraCodeBlocksGenerator.cxx:389-514 | classification and header discovery with the top directory's extensions, then the units |
| TargetRules.TargetTypeCode | Source/cmGlobalCodeBlocksGenerator.cxx:839-865 | 0 for a WIN32/bundle executable, 1 for another executable, 2 for static and object libraries, 3 for shared and module libraries, 4 otherwise, each in both directions; the same in cmExtraCodeBlocksGenerator.cxx, lines 758-783 |
| TargetRules.TableLookup | Source/cmGlobalCodeBlocksGenerator.cxx:811-835 | the value of the first matching row of a translation table, or the default when no row matches |
| TargetRules.CompilerToken | Source/cmGlobalCodeBlocksGenerator.cxx:811-835 | MSVC -> msvc8, Borland -> bcc, SDCC -> sdcc, Intel -> icc, Watcom -> ow, each in both directions; gcc exactly for every other id (GNU, unknown ids and the empty id); equal to the first-match lookup in the compiler table; the same in cmExtraCodeBlocksGenerator.cxx, lines 728-752 |
| TargetRules.CodeBlocksCompilerId | Source/cmGlobalCodeBlocksGenerator.cxx:794-837 | the token of the C++ compiler id, or the C one when C++ is not enabled; gcc when the id variable is unset; the same in cmExtraCodeBlocksGenerator.cxx, lines 715-754 |
| TargetRules.IsDashboardSubTarget | Source/cmGlobalCodeBlocksGenerator.cxx:369-378 | a utility target is skipped iff its name has Nightly, Continuous or Experimental as a proper prefix; the same in cmExtraCodeBlocksGenerator.cxx, lines 339-345 |
| TargetRules.AppendedTargets | Source/cmGlobalCodeBlocksGenerator.cxx:355-397 | a target gets a block exactly when it is buildable, or a utility target that is not a dashboard sub-target; no other target is kept |
| TargetRules.AliasTargets | Source/cmGlobalCodeBlocksGenerator.cxx:383-391 | the alias lists exactly the names of the buildable targets, and no more names than there are targets |
| TargetRules.AliasTargetsAppend | Source/cmGlobalCodeBlocksGenerator.cxx:390 | push_back keeps discovery order across directories |
| TargetRules.UtilityTargetsNotInAlias | Source/cmExtraCodeBlocksGenerator.cxx:335-361 | no utility target is listed by the All alias |
| TargetRules.SelectTargets | Source/cmGlobalCodeBlocksGenerator.cxx:355-397 | the target loop passes AppendedTargets to AppendTarget and collects AliasTargets; the same in cmExtraCodeBlocksGenerator.cxx, lines 323-365 |
| TargetRules.AliasLine | Source/cmGlobalCodeBlocksGenerator.cxx:401-408 | the alias line is the fixed prefix, the name list, the fixed suffix; the list splits back at ';' into the names when none is empty or contains ';' |
| TargetRules.AliasListRoundTrip | Source/cmExtraCodeBlocksGenerator.cxx:370-375 | splitting the written list at ';' gives back the names |
| BuildGraph.AllTargets | Source/cmGlobalCodeBlocksGenerator.cxx:355-364 | the directory-by-directory target loop visits exactly the targets of the project's directories |
| TargetRules.WorkingDirectory | Source/cmGlobalCodeBlocksGenerator.cxx:577-596 | for an executable CMAKE_RUNTIME_OUTPUT_DIRECTORY if set, else EXECUTABLE_OUTPUT_PATH if set, else the start output directory; the start output directory for every other target; the same in cmExtraCodeBlocksGenerator.cxx, lines 561-581 |
| TargetRules.DummyTargetFileName | Source/cmGlobalCodeBlocksGenerator.cxx:771-781 | the marker file is `<current output directory>/<target directory>/<target>.objlib`: it lies under the current output directory and its name ends in `/<target>.objlib` |
| TargetRules.DummyTargetFileNamesDistinct | Source/cmExtraCodeBlocksGenerator.cxx:522-533 | two object libraries with the same target directory get the same marker exactly when their names are equal |
| TargetRules.OutputLocation | Source/cmGlobalCodeBlocksGenerator.cxx:598-609 | the marker file for an object library, the target's location otherwise |
| TargetRules.PrefixedOptions | Source/cmGlobalCodeBlocksGenerator.cxx:627-645 | one option per list item, the prefix then the escaped item, in order |
| TargetRules.PropertyOptions | Source/cmGlobalCodeBlocksGenerator.cxx:619-659 | nothing for an unset property, else one option per element of its expanded list |
| TargetRules.CompilerOptionsLayout | Source/cmGlobalCodeBlocksGenerator.cxx:619-680 | position by position: the first entries are "-D" and each escaped directory definition, then "-D" and each escaped target definition, then each escaped target flag, then each escaped C++ shared-library flag (read even without C++); the count is the sum of the four list lengths, so nothing is deduplicated; for cmExtraCodeBlocksGenerator.cxx, lines 603-649, the target's own definitions are absent from the count |
| TargetRules.CollectIncludeDirectories | Source/cmExtraCodeBlocksGenerator.cxx:652-691 | the set holds exactly the target's include directories and the elements of the non-empty C and C++ system lists |
| TargetRules.IncludeDirectoryEntries | Source/cmExtraCodeBlocksGenerator.cxx:652-698 | the emitted directories are strictly sorted and duplicate-free, and are exactly the three sources' directories; the same in cmGlobalCodeBlocksGenerator.cxx, lines 682-727 |
| TargetRules.StripLibraryFlag | Source/cmGlobalCodeBlocksGenerator.cxx:758-761 | a leading "-l" is removed, any other name is kept |
| TargetRules.DirectoryPart | Source/cmGlobalCodeBlocksGenerator.cxx:753-756 | the part of the full path before its last '/', or the whole path when it has none |
| TargetRules.LinkEntries | Source/cmGlobalCodeBlocksGenerator.cxx:744-763 | at least one entry per dependency, the last one the last dependency's library |
| TargetRules.LinkEntriesLibraries | Source/cmGlobalCodeBlocksGenerator.cxx:744-763 | the library entries are the dependencies, in order, with "-l" stripped |
| TargetRules.LinkDirectoriesPrecedeTheirLibrary | Source/cmGlobalCodeBlocksGenerator.cxx:749-762 | each directory entry is that of the target a dependency resolves to and is immediately followed by that dependency's library |
| TargetRules.ResolvedDependencyDirectoryBeforeLibrary | Source/cmGlobalCodeBlocksGenerator.cxx:744-763 | the converse, per dependency: the entries of dependency k start right after those of the dependencies before it; if FindTargetToUse resolves it, they are the directory of that target's full path and then its library; if not, its library alone, with no directory |
| TargetRules.LinkEntriesAppend | Source/cmGlobalCodeBlocksGenerator.cxx:744-763 | the entries of two runs of dependencies are the entries of the first run followed by those of the second |
| TargetRules.LinkerBlock | Source/cmGlobalCodeBlocksGenerator.cxx:742-765 | the Linker block is present exactly when there are link dependencies |
| TargetRules.LinkLibrariesAsWritten | Source/cmGlobalCodeBlocksGenerator.cxx:739-741 | the link dependencies are read through the target pointer, undefined when it is NULL |
| TargetRules.AppendTargetPointer | Source/cmGlobalCodeBlocksGenerator.cxx:378-386 | AppendTarget receives NULL exactly for a utility target |
| TargetRules.NightlyTargetReachesNullLinkRead | Source/cmGlobalCodeBlocksGenerator.cxx:366-379 | a utility target named Nightly gets a block and reaches the NULL read |
| TargetRules.LinkLibraries | Source/cmGlobalCodeBlocksGenerator.cxx:739-742 | corrected: no dependencies without a target, the link implementation's libraries otherwise |
| TargetRules.UtilityTargetHasNoLinkerBlock | Source/cmGlobalCodeBlocksGenerator.cxx:731-767 | with the correction a utility target's block has no Linker part |
| TargetRules.TargetBlock | Source/cmGlobalCodeBlocksGenerator.cxx:563-769 | the block opens with the title and closes with `</Target>`; without a target it holds only the start output directory and type 4; the same in cmExtraCodeBlocksGenerator.cxx, lines 547-711, whose block has no Linker part |
| BuildCommands.PlatformOptions | Source/cmGlobalCodeBlocksGenerator.cxx:202-206 | the Windows switches on Windows, --no-ipc elsewhere |
| BuildCommands.TargetOptions | Source/cmGlobalCodeBlocksGenerator.cxx:208-219 | --clean exactly for "clean", --build --target=<name> for any other non-empty name, nothing otherwise |
| BuildCommands.AdditionalOptions | Source/cmGlobalCodeBlocksGenerator.cxx:221-225 | the extra options after one space, when given |
| BuildCommands.IdeCommandLine | Source/cmGlobalCodeBlocksGenerator.cxx:199-230 | the command starts with the converted program and --no-splash-screen and ends with ` <projectName>.cbp` |
| BuildCommands.GenerateBuildCommand | Source/cmGlobalCodeBlocksGenerator.cxx:183-231 | "" exactly when the make program is NULL or empty, else the IDE command line |
| BuildCommands.MakefileSwitch | Source/cmExtraCodeBlocksGenerator.cxx:791-817 | ` /NOLOGO /f &quot;` exactly for NMake, ` -f &quot;` otherwise |
| BuildCommands.MakefileArgument | Source/cmExtraCodeBlocksGenerator.cxx:793-815 | the raw makefile under MinGW, its output-path conversion otherwise |
| BuildCommands.BuildMakeCommand | Source/cmExtraCodeBlocksGenerator.cxx:787-821 | make, the switch, the makefile, `&quot; `, ` VERBOSE=1 ` and the target, in the three generator branches |
| BuildGraph.Definition | Source/cmGlobalCodeBlocksGenerator.cxx:582-595 | GetDefinition: a value exactly when the variable is set |
| BuildGraph.SafeDefinition | Source/cmGlobalCodeBlocksGenerator.cxx:809-810 | GetSafeDefinition: the value, or "" when unset |
| Strings.Ordered | Source/cmGlobalCodeBlocksGenerator.cxx:531-535 | the iteration order of a std::set / std::map key set: every element once, strictly ascending |
| Strings.Least | Source/cmGlobalCodeBlocksGenerator.cxx:496-499 | begin() of a non-empty set is its least element |
| Strings.LastIndexOf | Source/cmGlobalCodeBlocksGenerator.cxx:754 | find_last_of: the last occurrence of a character, none exactly when absent |
| Strings.ContainsAt | Source/cmGlobalCodeBlocksGenerator.cxx:311 | an occurrence at any position makes find succeed |

## Left out

- Writing the file: `cmGeneratedFileStream` and the writing of the `.objlib` marker by CreateDummyTargetFile are not modelled. Only the marker's name is.
- The fixed parts of the file are not modelled: the XML header and footer, the `<Project>` options, the `rebuild_cache` target, the `<ExtraCommands>` pre-build step and the `</Build>` / `<VirtualTargets>` framing. They are constant text around the modelled parts.
- The foreign helpers are parameters with no properties assumed: RelativePath, SplitPath, ExpandListArgument, FileExists, ConvertToOutputPath, GetFilenamePath, GetFilenameWithoutExtension, cmXMLSafe and FindTargetToUse. The `#if defined(_WIN32)` choice of GenerateBuildCommand is the parameter `onWindows`.
- The error report of GenerateBuildCommand (`cmSystemTools::Error`) is not modelled; only its empty result is.
- The project map is a sequence of projects, each a sequence of directories, in the map's iteration order. The target loop visits targets in `cmTargets` iteration order, given here by the order of `Makefile.targets`.
- The definitions of a target are read through `target->GetMakefile()`. The model reads those of the directory passed to AppendTarget, which owns the target.
- `sharedLibFlagsVar` is computed but never read, since the C++ variable is always used. The model reads only the C++ variable's value.
- The AppendTarget signature mismatch in the header file, and the header file itself, are not part of this model (declarations only).
- `VirtualFolders.PlaceListFile`: CMAKE_ROOT is taken as a defined string. The source passes the possibly NULL result of GetDefinition to `find`.
- `VirtualFolders.PlaceListFile`: a SplitPath result with no component is treated as skipped. The source would read before the start of the vector there.
- `BuildCommands.BuildMakeCommand`: the extra generator defines BuildMakeCommand but never calls it, so the model leaves it standalone.
- `SourceClassifier.DiscoverHeaders`: its own contract states only that no name is removed. Its properties are stated by DiscoverHeadersBound, DiscoveredHeadersExist and AtMostOneHeaderEach, and by the exact equality AddHeaders proves.
- `SourceClassifier.Probe`: its own contract states only soundness, and ProbeFirstHit states the first-hit rule.
- `VirtualFolders.CBTree.InsertPath`: the source's search loop returns from inside the loop body. The model's loop only searches, and the descent happens afterwards, in ChildInsert or Descend.
- `VirtualFolders.CBTree.InsertPath`: the model builds a new child in place before appending it, where the source appends a copy. The resulting tree is the same.

## Findings

| source | as written | input that shows it | evidently intended | confidence | as-written member | corrected member |
|---|---|---|---|---|---|---|
| Source/cmGlobalCodeBlocksGenerator.cxx:739-741 | `target->GetLinkImplementation("")->Libraries` is read after the `if (target != 0)` block, also when AppendTarget was called with a NULL target | a UTILITY target named `Nightly` (or any utility target that is not a dashboard sub-target) | a block without a target has no link dependencies and no `<Linker>` part, as in the extra generator | not executed | TargetRules.LinkLibrariesAsWritten, TargetRules.NightlyTargetReachesNullLinkRead | TargetRules.LinkLibraries, TargetRules.UtilityTargetHasNoLinkerBlock |
