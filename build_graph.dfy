/** The part of the build graph the Code::Blocks generators read, reduced to
    values: the kind of a target, its sources and settings, and the variables
    and directories of the directory (cmMakefile) that owns it. Lookups the
    generators make through cmMakefile / cmTarget accessors become fields or
    map lookups here. */
module BuildGraph {
  import opened Wrappers

  /** cmTarget::GetType(). The generators switch on the first six kinds; every
      other kind takes the switch's `default` branch, so they are represented
      by `GlobalTarget` and `OtherKind` alone. */
  datatype TargetType =
    | Executable
    | StaticLibrary
    | SharedLibrary
    | ModuleLibrary
    | ObjectLibrary
    | Utility
    | GlobalTarget
    | OtherKind

  /** The five kinds that produce a build output and that the `All` alias lists. */
  predicate IsBuildable(kind: TargetType) {
    kind == Executable || kind == StaticLibrary || kind == SharedLibrary
    || kind == ModuleLibrary || kind == ObjectLibrary
  }

  /** A cmSourceFile: its full path, its language (a C string that may be
      NULL), its extension and whether the GENERATED property is set. */
  datatype SourceFile = SourceFile(
    fullPath: string,
    language: Option<string>,
    extension: string,
    generated: bool)

  /** A cmTarget as the generators see it. `location` is GetLocation() for the
      configured build type, `fullPath` is GetFullPath(), `targetDirectory` is
      the local generator's GetTargetDirectory(); `compileDefinitions` and
      `compileFlags` are the target's COMPILE_DEFINITIONS / COMPILE_FLAGS
      properties, `includeDirectories` what the local generator's
      GetIncludeDirectories reports and `linkLibraries` the link
      implementation's Libraries. */
  datatype Target = Target(
    name: string,
    kind: TargetType,
    win32Executable: bool,
    macosxBundle: bool,
    sources: seq<SourceFile>,
    location: string,
    fullPath: string,
    targetDirectory: string,
    compileDefinitions: Option<string>,
    compileFlags: Option<string>,
    includeDirectories: seq<string>,
    linkLibraries: seq<string>)

  /** A cmMakefile: its variable definitions, its COMPILE_DEFINITIONS directory
      property, its directories, its targets (in the order GetTargets()
      iterates them), the CMake input files it read (GetListFiles) and its
      configured source and header file extensions. */
  datatype Makefile = Makefile(
    definitions: map<string, string>,
    compileDefinitions: Option<string>,
    startOutputDirectory: string,
    currentOutputDirectory: string,
    homeDirectory: string,
    homeOutputDirectory: string,
    targets: seq<Target>,
    listFiles: seq<string>,
    sourceExtensions: seq<string>,
    headerExtensions: seq<string>)

  /** The targets of a list of directories, directory by directory, in the
      order the generators' nested loops visit them. */
  function AllTargets(mfs: seq<Makefile>): (ts: seq<Target>)
    ensures forall i, t :: 0 <= i < |mfs| && t in mfs[i].targets ==> t in ts
    ensures forall t :: t in ts ==> exists i :: 0 <= i < |mfs| && t in mfs[i].targets
    decreases |mfs|
  {
    if mfs == [] then []
    else
      var init := mfs[..|mfs| - 1];
      assert forall i :: 0 <= i < |init| ==> init[i] == mfs[i];
      AllTargets(init) + mfs[|mfs| - 1].targets
  }

  /** cmMakefile::GetDefinition: NULL (None) when the variable is not set. */
  function Definition(defs: map<string, string>, name: string): (r: Option<string>)
    ensures r.Some? <==> name in defs
    ensures r.Some? ==> r.value == defs[name]
  {
    if name in defs then Some(defs[name]) else None
  }

  /** cmMakefile::GetSafeDefinition: the empty string when the variable is not set. */
  function SafeDefinition(defs: map<string, string>, name: string): (r: string)
    ensures name !in defs ==> r == ""
    ensures name in defs ==> r == defs[name]
  {
    Definition(defs, name).GetOr("")
  }
}
