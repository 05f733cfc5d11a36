/** The per-target rules of the two Code::Blocks generators: which targets get
    a <Target> block and which are listed by the `All` alias, the numeric
    target type, the compiler token, the working directory and output
    location, the compiler options and include directories, and (global
    generator only) the linker block. */
module TargetRules {
  import opened Wrappers
  import opened Strings
  import opened BuildGraph

  /** The two generators that write a .cbp file: the global
      cmGlobalCodeBlocksGenerator and the extra generator
      cmExtraCodeBlocksGenerator that runs beside a makefile generator. */
  datatype Generator = GlobalCodeBlocks | ExtraCodeBlocks

  // ---------------------------------------------------------------------------
  // Target type and compiler token

  /** GetCodeBlocksTargetType / GetCBTargetType: the Code::Blocks target type.
      0 is a GUI application, 1 a console application, 2 a static library,
      3 a dynamic library and 4 a commands-only target. */
  function TargetTypeCode(t: Target): (code: int)
    ensures 0 <= code <= 4
    ensures code == 0 <==> t.kind == Executable && (t.win32Executable || t.macosxBundle)
    ensures code == 1 <==> t.kind == Executable && !t.win32Executable && !t.macosxBundle
    ensures code == 2 <==> t.kind == StaticLibrary || t.kind == ObjectLibrary
    ensures code == 3 <==> t.kind == SharedLibrary || t.kind == ModuleLibrary
    ensures code == 4 <==> !IsBuildable(t.kind)
  {
    if t.kind == Executable then
      if t.win32Executable || t.macosxBundle then 0 else 1
    else if t.kind == StaticLibrary || t.kind == ObjectLibrary then
      2
    else if t.kind == SharedLibrary || t.kind == ModuleLibrary then
      3
    else
      4
  }

  /** The translation from CMake compiler ids to Code::Blocks compiler tokens,
      as a table in the order the generators test it. */
  const CompilerTable: seq<(string, string)> :=
    [("MSVC", "msvc8"), ("Borland", "bcc"), ("SDCC", "sdcc"),
     ("Intel", "icc"), ("Watcom", "ow"), ("GNU", "gcc")]

  /** The value of the first row of `table` whose key is `key`, else `default`. */
  function TableLookup(table: seq<(string, string)>, key: string, default: string): (r: string)
    ensures (forall i :: 0 <= i < |table| ==> table[i].0 != key) ==> r == default
    ensures (exists i :: 0 <= i < |table| && table[i].0 == key) ==>
              exists i :: 0 <= i < |table| && table[i].0 == key && r == table[i].1
                          && forall j :: 0 <= j < i ==> table[j].0 != key
  {
    if table == [] then default
    else if table[0].0 == key then table[0].1
    else
      var r := TableLookup(table[1..], key, default);
      assert forall i :: 1 <= i < |table| ==> table[i] == table[1..][i - 1];
      r
  }

  /** The if-chain of GetCodeBlocksCompilerId / GetCBCompilerId, starting from
      the default "gcc". */
  function CompilerToken(compilerId: string): (token: string)
    ensures token == TableLookup(CompilerTable, compilerId, "gcc")
    ensures compilerId == "MSVC" <==> token == "msvc8"
    ensures compilerId == "Borland" <==> token == "bcc"
    ensures compilerId == "SDCC" <==> token == "sdcc"
    ensures compilerId == "Intel" <==> token == "icc"
    ensures compilerId == "Watcom" <==> token == "ow"
    ensures token == "gcc" <==>
              compilerId != "MSVC" && compilerId != "Borland" && compilerId != "SDCC"
              && compilerId != "Intel" && compilerId != "Watcom"
  {
    if compilerId == "MSVC" then "msvc8"
    else if compilerId == "Borland" then "bcc"
    else if compilerId == "SDCC" then "sdcc"
    else if compilerId == "Intel" then "icc"
    else if compilerId == "Watcom" then "ow"
    else if compilerId == "GNU" then "gcc"
    else "gcc"
  }

  /** The variable holding the compiler id: the C++ one, or the C one when C++
      is not an enabled language. */
  function CompilerIdVariable(cxxEnabled: bool): string {
    if cxxEnabled then "CMAKE_CXX_COMPILER_ID" else "CMAKE_C_COMPILER_ID"
  }

  /** GetCodeBlocksCompilerId / GetCBCompilerId: the compiler token for a
      directory whose variables are `defs`. An unset id reads as "" and so
      yields "gcc". CMAKE_HOST_SYSTEM_NAME and CMAKE_SYSTEM_NAME are read by
      the source but do not influence the result. */
  function CodeBlocksCompilerId(defs: map<string, string>, cxxEnabled: bool): (token: string)
    ensures cxxEnabled ==> token == CompilerToken(SafeDefinition(defs, "CMAKE_CXX_COMPILER_ID"))
    ensures !cxxEnabled ==> token == CompilerToken(SafeDefinition(defs, "CMAKE_C_COMPILER_ID"))
    ensures CompilerIdVariable(cxxEnabled) !in defs ==> token == "gcc"
  {
    CompilerToken(SafeDefinition(defs, CompilerIdVariable(cxxEnabled)))
  }

  // ---------------------------------------------------------------------------
  // Which targets are written, and the `All` alias

  /** The CTest dashboard models whose sub-targets (NightlyStart, ...) are
      left out of the project. */
  const DashboardModels: seq<string> := ["Nightly", "Continuous", "Experimental"]

  /** A utility target that the generators skip: its name starts with one of
      the dashboard models without being exactly that model. */
  function IsDashboardSubTarget(name: string): (excluded: bool)
    ensures excluded <==> exists k :: 0 <= k < |DashboardModels| && DashboardModels[k] < name
  {
    assert DashboardModels[0] == "Nightly" && DashboardModels[1] == "Continuous"
           && DashboardModels[2] == "Experimental";
    ("Nightly" <= name && name != "Nightly")
    || ("Continuous" <= name && name != "Continuous")
    || ("Experimental" <= name && name != "Experimental")
  }

  /** The target loop calls AppendTarget for `t`. */
  predicate IsAppended(t: Target) {
    IsBuildable(t.kind) || (t.kind == Utility && !IsDashboardSubTarget(t.name))
  }

  /** The targets that get a <Target> block, in discovery order. */
  function AppendedTargets(ts: seq<Target>): (r: seq<Target>)
    ensures |r| <= |ts|
    ensures forall t :: t in r <==> t in ts && IsAppended(t)
    decreases |ts|
  {
    if ts == [] then []
    else
      var init := ts[..|ts| - 1];
      var last := ts[|ts| - 1];
      assert ts == init + [last];
      AppendedTargets(init) + (if IsAppended(last) then [last] else [])
  }

  /** The names collected in `virtualTargetDeps`: the buildable (non-utility)
      targets, in discovery order. */
  function AliasTargets(ts: seq<Target>): (r: seq<string>)
    ensures |r| <= |ts|
    ensures forall n :: n in r <==>
              exists i :: 0 <= i < |ts| && ts[i].name == n && IsBuildable(ts[i].kind)
    decreases |ts|
  {
    if ts == [] then []
    else
      var init := ts[..|ts| - 1];
      var last := ts[|ts| - 1];
      assert forall i :: 0 <= i < |init| ==> init[i] == ts[i];
      AliasTargets(init) + (if IsBuildable(last.kind) then [last.name] else [])
  }

  /** Discovery order is kept: the alias of two consecutive runs of targets
      is the alias of the first followed by the alias of the second. */
  lemma {:induction false} AliasTargetsAppend(a: seq<Target>, b: seq<Target>)
    ensures AliasTargets(a + b) == AliasTargets(a) + AliasTargets(b)
    decreases |b|
  {
    if b == [] {
      assert a + b == a;
    } else {
      var b' := b[..|b| - 1];
      assert (a + b)[..|a + b| - 1] == a + b';
      AliasTargetsAppend(a, b');
    }
  }

  /** With unique target names (cmTargets is keyed by name), no utility
      target is listed by the `All` alias, whether or not a block is
      written for it. */
  lemma UtilityTargetsNotInAlias(ts: seq<Target>, i: nat)
    requires i < |ts| && ts[i].kind == Utility
    requires forall j, k :: 0 <= j < k < |ts| ==> ts[j].name != ts[k].name
    ensures ts[i].name !in AliasTargets(ts)
  {
  }

  /** The target loop of OutputCodeBlocksProject / CreateNewProjectFile:
      `appended` are the targets passed to AppendTarget, `virtualTargetDeps`
      the names the `All` alias will list. */
  method SelectTargets(ts: seq<Target>) returns (appended: seq<Target>, virtualTargetDeps: seq<string>)
    ensures appended == AppendedTargets(ts)
    ensures virtualTargetDeps == AliasTargets(ts)
  {
    appended, virtualTargetDeps := [], [];
    var i := 0;
    while i < |ts|
      invariant 0 <= i <= |ts|
      invariant appended == AppendedTargets(ts[..i])
      invariant virtualTargetDeps == AliasTargets(ts[..i])
    {
      var t := ts[i];
      SelectStep(ts, i);
      match t.kind {
        case Utility =>
          if !IsDashboardSubTarget(t.name) {
            appended := appended + [t];
          }
        case Executable | StaticLibrary | SharedLibrary | ModuleLibrary | ObjectLibrary =>
          appended, virtualTargetDeps := appended + [t], virtualTargetDeps + [t.name];
        case _ =>
      }
      i := i + 1;
    }
    assert ts[..|ts|] == ts;
  }

  /** One more target of the loop: it is appended, and its name aliased,
      exactly as the specification functions add it. */
  lemma SelectStep(ts: seq<Target>, i: nat)
    requires i < |ts|
    ensures AppendedTargets(ts[..i + 1]) == AppendedTargets(ts[..i]) + (if IsAppended(ts[i]) then [ts[i]] else [])
    ensures AliasTargets(ts[..i + 1]) == AliasTargets(ts[..i]) + (if IsBuildable(ts[i].kind) then [ts[i].name] else [])
  {
    assert ts[..i + 1][..i] == ts[..i];
  }

  /** Splits a text in which every item is terminated by `sep`, the way the
      IDE reads the `targets` attribute of the alias back. */
  function SplitTerminated(s: string, sep: char): seq<string>
    decreases |s|
  {
    if s == [] then []
    else
      var k := IndexOf(s, sep);
      if k.None? then [s] else [s[..k.value]] + SplitTerminated(s[k.value + 1..], sep)
  }

  const AliasPrefix := "         <Add alias=\"All\" targets=\""
  const AliasSuffix := "\" />\n"

  /** The `<Add alias="All" .../>` line: every name followed by ';'. When no
      name is empty or contains ';', the attribute reads back as the names. */
  function AliasLine(deps: seq<string>): (line: string)
    ensures AliasPrefix <= line && EndsWith(line, AliasSuffix)
    ensures |line| >= |AliasPrefix| + |AliasSuffix|
    ensures (forall i :: 0 <= i < |deps| ==> ';' !in deps[i] && deps[i] != "") ==>
              SplitTerminated(line[|AliasPrefix|..|line| - |AliasSuffix|], ';') == deps
  {
    var list := JoinSuffix(deps, ";");
    var line := AliasPrefix + list + AliasSuffix;
    assert line[|AliasPrefix|..|line| - |AliasSuffix|] == list;
    assert line[|line| - |AliasSuffix|..] == AliasSuffix;
    assert (forall i :: 0 <= i < |deps| ==> ';' !in deps[i] && deps[i] != "") ==>
             SplitTerminated(list, ';') == deps by {
      if (forall i :: 0 <= i < |deps| ==> ';' !in deps[i] && deps[i] != "") {
        AliasListRoundTrip(deps);
      }
    }
    line
  }

  /** The list of an alias reads back as the names it was written from, when
      no name is empty or contains ';'. */
  lemma {:induction false} AliasListRoundTrip(deps: seq<string>)
    requires forall i :: 0 <= i < |deps| ==> ';' !in deps[i] && deps[i] != ""
    ensures SplitTerminated(JoinSuffix(deps, ";"), ';') == deps
  {
    if deps != [] {
      var d := deps[0];
      var rest := JoinSuffix(deps[1..], ";");
      var s := d + ";" + rest;
      assert JoinSuffix(deps, ";") == s;
      assert s[|d|] == ';' && s[..|d|] == d;
      var k := IndexOf(s, ';');
      assert deps[0] in deps;
      assert ';' !in s[..|d|];
      assert k.value == |d|;
      assert s[|d| + 1..] == rest;
      AliasListRoundTrip(deps[1..]);
    }
  }

  // ---------------------------------------------------------------------------
  // Working directory and output location

  const RuntimeOutputDirectoryVariable := "CMAKE_RUNTIME_OUTPUT_DIRECTORY"
  const ExecutableOutputPathVariable := "EXECUTABLE_OUTPUT_PATH"

  /** The `working_dir` of a target block: for an executable the runtime
      output directory if set, else the executable output path if set; for
      every target otherwise the directory's start output directory. */
  function WorkingDirectory(t: Target, mf: Makefile): (dir: string)
    ensures t.kind != Executable ==> dir == mf.startOutputDirectory
    ensures t.kind == Executable && RuntimeOutputDirectoryVariable in mf.definitions ==>
              dir == mf.definitions[RuntimeOutputDirectoryVariable]
    ensures t.kind == Executable && RuntimeOutputDirectoryVariable !in mf.definitions
            && ExecutableOutputPathVariable in mf.definitions ==>
              dir == mf.definitions[ExecutableOutputPathVariable]
    ensures t.kind == Executable && RuntimeOutputDirectoryVariable !in mf.definitions
            && ExecutableOutputPathVariable !in mf.definitions ==>
              dir == mf.startOutputDirectory
  {
    var workingDir := mf.startOutputDirectory;
    if t.kind == Executable then
      match Definition(mf.definitions, RuntimeOutputDirectoryVariable)
      case Some(runtimeOutputDir) => runtimeOutputDir
      case None =>
        match Definition(mf.definitions, ExecutableOutputPathVariable)
        case Some(executableOutputDir) => executableOutputDir
        case None => workingDir
    else
      workingDir
  }

  /** The name of the marker file CreateDummyTargetFile writes for an OBJECT
      library (the writing itself is not modelled). */
  function DummyTargetFileName(mf: Makefile, t: Target): (filename: string)
    ensures filename == mf.currentOutputDirectory + "/" + t.targetDirectory + "/" + t.name + ".objlib"
    ensures mf.currentOutputDirectory + "/" <= filename
    ensures EndsWith(filename, "/" + t.name + ".objlib")
  {
    var filename := mf.currentOutputDirectory + "/" + t.targetDirectory + "/" + t.name + ".objlib";
    assert filename[|filename| - |"/" + t.name + ".objlib"|..] == "/" + t.name + ".objlib";
    filename
  }

  /** Two OBJECT libraries of one directory with the same target directory get
      distinct marker files exactly when their names differ, so they do not
      interfere. */
  lemma DummyTargetFileNamesDistinct(mf: Makefile, t1: Target, t2: Target)
    requires t1.targetDirectory == t2.targetDirectory
    ensures DummyTargetFileName(mf, t1) == DummyTargetFileName(mf, t2) <==> t1.name == t2.name
  {
    var prefix := mf.currentOutputDirectory + "/" + t1.targetDirectory + "/";
    var f1, f2 := DummyTargetFileName(mf, t1), DummyTargetFileName(mf, t2);
    assert f1 == prefix + (t1.name + ".objlib");
    assert f2 == prefix + (t2.name + ".objlib");
    if f1 == f2 {
      assert f1[|prefix|..] == t1.name + ".objlib";
      assert f2[|prefix|..] == t2.name + ".objlib";
      var n1, n2 := t1.name + ".objlib", t2.name + ".objlib";
      assert n1 == n2;
      assert t1.name == n1[..|n1| - 7];
      assert t2.name == n2[..|n2| - 7];
    }
  }

  /** The `output` of a target block: the marker file for an OBJECT library,
      the target's location otherwise. */
  function OutputLocation(mf: Makefile, t: Target): (location: string)
    ensures t.kind == ObjectLibrary ==> location == DummyTargetFileName(mf, t)
    ensures t.kind != ObjectLibrary ==> location == t.location
  {
    if t.kind == ObjectLibrary then DummyTargetFileName(mf, t) else t.location
  }

  // ---------------------------------------------------------------------------
  // Compiler options and include directories

  /** One `<Add option="..."/>` value per item: `prefix` followed by the
      escaped item, in the order of the items. */
  function PrefixedOptions(prefix: string, items: seq<string>, xmlSafe: string -> string): (r: seq<string>)
    ensures |r| == |items|
    ensures forall i :: 0 <= i < |items| ==> r[i] == prefix + xmlSafe(items[i])
  {
    if items == [] then []
    else [prefix + xmlSafe(items[0])] + PrefixedOptions(prefix, items[1..], xmlSafe)
  }

  /** The options contributed by a property that may be unset: nothing when it
      is unset, otherwise one option per element of its expanded list. */
  function PropertyOptions(value: Option<string>, prefix: string,
                           expandList: string -> seq<string>, xmlSafe: string -> string): (r: seq<string>)
    ensures value.None? ==> r == []
    ensures value.Some? ==> |r| == |expandList(value.value)|
    ensures value.Some? ==> forall i :: 0 <= i < |r| ==>
              r[i] == prefix + xmlSafe(expandList(value.value)[i])
  {
    match value
    case None => []
    case Some(v) => PrefixedOptions(prefix, expandList(v), xmlSafe)
  }

  const SharedLibraryCxxFlagsVariable := "CMAKE_SHARED_LIBRARY_CXX_FLAGS"

  /** The items of a property that may be unset: none when it is unset,
      otherwise its expanded list. */
  function Expanded(value: Option<string>, expandList: string -> seq<string>): seq<string> {
    match value
    case None => []
    case Some(v) => expandList(v)
  }

  /** The `<Add option>` values of a target block, in emission order: the
      directory's COMPILE_DEFINITIONS with "-D", then (global generator only)
      the target's COMPILE_DEFINITIONS with "-D", then the target's
      COMPILE_FLAGS, then the C++ shared-library flags. The C++ variable is
      read even when C++ is not enabled. */
  function CompilerOptions(generator: Generator, t: Target, mf: Makefile,
                           expandList: string -> seq<string>, xmlSafe: string -> string): seq<string> {
    var targetDefinitions := if generator == GlobalCodeBlocks then Expanded(t.compileDefinitions, expandList) else [];
    FourRuns(Expanded(mf.compileDefinitions, expandList), targetDefinitions, Expanded(t.compileFlags, expandList),
             expandList(SafeDefinition(mf.definitions, SharedLibraryCxxFlagsVariable)), xmlSafe)
  }

  /** From position `at` on, `opts` holds `prefix` and the escaped form of
      each of `items`, one option per item. */
  ghost predicate SegmentAt(opts: seq<string>, at: nat, prefix: string, items: seq<string>, xmlSafe: string -> string) {
    at + |items| <= |opts| && forall i :: 0 <= i < |items| ==> opts[at + i] == prefix + xmlSafe(items[i])
  }

  /** The options `opts` are, position by position, "-D" and each escaped
      item of `d`, "-D" and each escaped item of `e`, then each escaped item
      of `g` and of `sh`, and nothing else. */
  ghost predicate OptionsLaidOut(opts: seq<string>, d: seq<string>, e: seq<string>, g: seq<string>, sh: seq<string>,
                                 xmlSafe: string -> string) {
    && |opts| == |d| + |e| + |g| + |sh|
    && SegmentAt(opts, 0, "-D", d, xmlSafe)
    && SegmentAt(opts, |d|, "-D", e, xmlSafe)
    && SegmentAt(opts, |d| + |e|, "", g, xmlSafe)
    && SegmentAt(opts, |d| + |e| + |g|, "", sh, xmlSafe)
  }

  /** The options of four runs of items, one run after the other. */
  function FourRuns(d: seq<string>, e: seq<string>, g: seq<string>, sh: seq<string>, xmlSafe: string -> string): seq<string> {
    PrefixedOptions("-D", d, xmlSafe) + PrefixedOptions("-D", e, xmlSafe)
    + PrefixedOptions("", g, xmlSafe) + PrefixedOptions("", sh, xmlSafe)
  }

  lemma FirstRun(d: seq<string>, e: seq<string>, g: seq<string>, sh: seq<string>, xmlSafe: string -> string)
    ensures SegmentAt(FourRuns(d, e, g, sh, xmlSafe), 0, "-D", d, xmlSafe)
  {
    var a := PrefixedOptions("-D", d, xmlSafe);
    var opts := FourRuns(d, e, g, sh, xmlSafe);
    forall i | 0 <= i < |d| ensures opts[i] == "-D" + xmlSafe(d[i]) {
      assert opts[i] == a[i];
    }
  }

  lemma SecondRun(d: seq<string>, e: seq<string>, g: seq<string>, sh: seq<string>, xmlSafe: string -> string)
    ensures SegmentAt(FourRuns(d, e, g, sh, xmlSafe), |d|, "-D", e, xmlSafe)
  {
    var a, b := PrefixedOptions("-D", d, xmlSafe), PrefixedOptions("-D", e, xmlSafe);
    var opts := FourRuns(d, e, g, sh, xmlSafe);
    forall i | 0 <= i < |e| ensures opts[|d| + i] == "-D" + xmlSafe(e[i]) {
      assert opts[|a| + i] == b[i];
    }
  }

  lemma ThirdRun(d: seq<string>, e: seq<string>, g: seq<string>, sh: seq<string>, xmlSafe: string -> string)
    ensures SegmentAt(FourRuns(d, e, g, sh, xmlSafe), |d| + |e|, "", g, xmlSafe)
  {
    var a, b, c := PrefixedOptions("-D", d, xmlSafe), PrefixedOptions("-D", e, xmlSafe), PrefixedOptions("", g, xmlSafe);
    var opts := FourRuns(d, e, g, sh, xmlSafe);
    forall i | 0 <= i < |g| ensures opts[|d| + |e| + i] == "" + xmlSafe(g[i]) {
      assert opts[|a| + |b| + i] == c[i];
    }
  }

  lemma FourthRun(d: seq<string>, e: seq<string>, g: seq<string>, sh: seq<string>, xmlSafe: string -> string)
    ensures SegmentAt(FourRuns(d, e, g, sh, xmlSafe), |d| + |e| + |g|, "", sh, xmlSafe)
  {
    var a, b, c := PrefixedOptions("-D", d, xmlSafe), PrefixedOptions("-D", e, xmlSafe), PrefixedOptions("", g, xmlSafe);
    var x := PrefixedOptions("", sh, xmlSafe);
    var opts := FourRuns(d, e, g, sh, xmlSafe);
    forall i | 0 <= i < |sh| ensures opts[|d| + |e| + |g| + i] == "" + xmlSafe(sh[i]) {
      assert opts[|a| + |b| + |c| + i] == x[i];
    }
  }

  lemma ConcatenatedOptions(d: seq<string>, e: seq<string>, g: seq<string>, sh: seq<string>, xmlSafe: string -> string)
    ensures OptionsLaidOut(FourRuns(d, e, g, sh, xmlSafe), d, e, g, sh, xmlSafe)
  {
    FirstRun(d, e, g, sh, xmlSafe);
    SecondRun(d, e, g, sh, xmlSafe);
    ThirdRun(d, e, g, sh, xmlSafe);
    FourthRun(d, e, g, sh, xmlSafe);
  }

  /** Nothing is deduplicated: every item of every segment has its own option,
      at its own position, and the extra generator has no option from the
      target's own definitions. */
  lemma CompilerOptionsLayout(generator: Generator, t: Target, mf: Makefile,
                              expandList: string -> seq<string>, xmlSafe: string -> string)
    ensures OptionsLaidOut(CompilerOptions(generator, t, mf, expandList, xmlSafe),
                           Expanded(mf.compileDefinitions, expandList),
                           if generator == GlobalCodeBlocks then Expanded(t.compileDefinitions, expandList) else [],
                           Expanded(t.compileFlags, expandList),
                           expandList(SafeDefinition(mf.definitions, SharedLibraryCxxFlagsVariable)), xmlSafe)
    ensures generator == ExtraCodeBlocks ==>
              |CompilerOptions(generator, t, mf, expandList, xmlSafe)|
              == |Expanded(mf.compileDefinitions, expandList)| + |Expanded(t.compileFlags, expandList)|
                 + |expandList(SafeDefinition(mf.definitions, SharedLibraryCxxFlagsVariable))|
  {
    ConcatenatedOptions(Expanded(mf.compileDefinitions, expandList),
                        if generator == GlobalCodeBlocks then Expanded(t.compileDefinitions, expandList) else [],
                        Expanded(t.compileFlags, expandList),
                        expandList(SafeDefinition(mf.definitions, SharedLibraryCxxFlagsVariable)), xmlSafe);
  }

  const CSystemIncludeDirsVariable := "CMAKE_EXTRA_GENERATOR_C_SYSTEM_INCLUDE_DIRS"
  const CxxSystemIncludeDirsVariable := "CMAKE_EXTRA_GENERATOR_CXX_SYSTEM_INCLUDE_DIRS"

  /** Fills `uniqIncludeDirs`: the target's include directories, then the C and
      C++ system include lists (each only when non-empty, expanded as lists). */
  method CollectIncludeDirectories(includes: seq<string>, cSystemDirs: string, cxxSystemDirs: string,
                                   expandList: string -> seq<string>) returns (uniqIncludeDirs: set<string>)
    ensures forall d :: d in uniqIncludeDirs <==>
              || d in includes
              || (cSystemDirs != "" && d in expandList(cSystemDirs))
              || (cxxSystemDirs != "" && d in expandList(cxxSystemDirs))
  {
    uniqIncludeDirs := {};
    var i := 0;
    while i < |includes|
      invariant 0 <= i <= |includes|
      invariant forall d :: d in uniqIncludeDirs <==> d in includes[..i]
    {
      uniqIncludeDirs := uniqIncludeDirs + {includes[i]};
      i := i + 1;
    }
    assert includes[..|includes|] == includes;
    ghost var fromTarget := uniqIncludeDirs;
    if cSystemDirs != "" {
      var dirs := expandList(cSystemDirs);
      var j := 0;
      while j < |dirs|
        invariant 0 <= j <= |dirs|
        invariant forall d :: d in uniqIncludeDirs <==> d in fromTarget || d in dirs[..j]
      {
        uniqIncludeDirs := uniqIncludeDirs + {dirs[j]};
        j := j + 1;
      }
      assert dirs[..|dirs|] == dirs;
    }
    ghost var fromC := uniqIncludeDirs;
    if cxxSystemDirs != "" {
      var dirs := expandList(cxxSystemDirs);
      var j := 0;
      while j < |dirs|
        invariant 0 <= j <= |dirs|
        invariant forall d :: d in uniqIncludeDirs <==> d in fromC || d in dirs[..j]
      {
        uniqIncludeDirs := uniqIncludeDirs + {dirs[j]};
        j := j + 1;
      }
      assert dirs[..|dirs|] == dirs;
    }
  }

  /** The `<Add directory>` values of a target's compiler block: the set of
      include directories in the order std::set iterates it, so each
      directory once and in lexicographic order. */
  ghost function IncludeDirectoryEntries(t: Target, mf: Makefile, expandList: string -> seq<string>): (dirs: seq<string>)
    ensures StrictlySorted(dirs)
    ensures forall i, j :: 0 <= i < j < |dirs| ==> dirs[i] != dirs[j]
    ensures forall d :: d in dirs <==>
              || d in t.includeDirectories
              || (SafeDefinition(mf.definitions, CSystemIncludeDirsVariable) != ""
                  && d in expandList(SafeDefinition(mf.definitions, CSystemIncludeDirsVariable)))
              || (SafeDefinition(mf.definitions, CxxSystemIncludeDirsVariable) != ""
                  && d in expandList(SafeDefinition(mf.definitions, CxxSystemIncludeDirsVariable)))
  {
    var c := SafeDefinition(mf.definitions, CSystemIncludeDirsVariable);
    var cxx := SafeDefinition(mf.definitions, CxxSystemIncludeDirsVariable);
    var uniq := (set d | d in t.includeDirectories)
                + (if c != "" then set d | d in expandList(c) else {})
                + (if cxx != "" then set d | d in expandList(cxx) else {});
    var dirs := Ordered(uniq);
    forall i, j | 0 <= i < j < |dirs| ensures dirs[i] != dirs[j] {
      LexLessIrreflexive(dirs[i]);
    }
    dirs
  }

  // ---------------------------------------------------------------------------
  // Link dependencies (global generator)

  /** A library name with a leading "-l" removed. */
  function StripLibraryFlag(dep: string): (name: string)
    ensures |dep| >= 2 && dep[..2] == "-l" ==> "-l" + name == dep
    ensures !(|dep| >= 2 && dep[..2] == "-l") ==> name == dep
  {
    if |dep| >= 2 && dep[..2] == "-l" then dep[2..] else dep
  }

  /** `fullPath.substr(0, fullPath.find_last_of('/'))`: everything before the
      last '/', or the whole path when it has none. */
  function DirectoryPart(fullPath: string): (dir: string)
    ensures dir <= fullPath
    ensures '/' in fullPath ==> |dir| < |fullPath| && fullPath[|dir|] == '/' && '/' !in fullPath[|dir| + 1..]
    ensures '/' !in fullPath ==> dir == fullPath
  {
    match LastIndexOf(fullPath, '/')
    case None => fullPath
    case Some(lastSlash) => fullPath[..lastSlash]
  }

  /** An entry of the <Linker> block. */
  datatype LinkEntry = LinkDirectory(directory: string) | LinkLibrary(library: string)

  /** The entries of the <Linker> block: for each dependency, the directory of
      the target it resolves to (if it does), then its library name.
      `findTarget` stands for cmMakefile::FindTargetToUse. */
  function LinkEntries(deps: seq<string>, findTarget: string -> Option<Target>): (entries: seq<LinkEntry>)
    ensures |entries| >= |deps|
    ensures deps != [] ==> entries != [] && entries[|entries| - 1] == LinkLibrary(StripLibraryFlag(deps[|deps| - 1]))
    decreases |deps|
  {
    if deps == [] then []
    else
      DependencyEntries(deps[0], findTarget) + LinkEntries(deps[1..], findTarget)
  }

  /** The library entries alone, in order. */
  function Libraries(entries: seq<LinkEntry>): seq<string> {
    if entries == [] then []
    else (if entries[0].LinkLibrary? then [entries[0].library] else []) + Libraries(entries[1..])
  }

  /** The entries a single dependency contributes. */
  function DependencyEntries(dep: string, findTarget: string -> Option<Target>): seq<LinkEntry> {
    match findTarget(dep)
    case Some(depTarget) => [LinkDirectory(DirectoryPart(depTarget.fullPath)), LinkLibrary(StripLibraryFlag(dep))]
    case None => [LinkLibrary(StripLibraryFlag(dep))]
  }

  lemma {:induction false} LibrariesAppend(a: seq<LinkEntry>, b: seq<LinkEntry>)
    ensures Libraries(a + b) == Libraries(a) + Libraries(b)
  {
    if a == [] {
      assert a + b == b;
    } else {
      var first := if a[0].LinkLibrary? then [a[0].library] else [];
      assert (a + b)[0] == a[0];
      assert (a + b)[1..] == a[1..] + b;
      LibrariesAppend(a[1..], b);
      calc {
        Libraries(a + b);
        first + Libraries(a[1..] + b);
        first + (Libraries(a[1..]) + Libraries(b));
        (first + Libraries(a[1..])) + Libraries(b);
      }
    }
  }

  /** The dependency names with "-l" stripped, in order. */
  function StripAll(deps: seq<string>): (names: seq<string>)
    ensures |names| == |deps|
    ensures forall i :: 0 <= i < |deps| ==> names[i] == StripLibraryFlag(deps[i])
    decreases |deps|
  {
    if deps == [] then [] else [StripLibraryFlag(deps[0])] + StripAll(deps[1..])
  }

  /** Every dependency yields exactly one library entry, in order, with "-l"
      stripped. */
  lemma {:induction false} LinkEntriesLibraries(deps: seq<string>, findTarget: string -> Option<Target>)
    ensures Libraries(LinkEntries(deps, findTarget)) == StripAll(deps)
    decreases |deps|
  {
    if deps != [] {
      var head := DependencyEntries(deps[0], findTarget);
      var tail := LinkEntries(deps[1..], findTarget);
      assert LinkEntries(deps, findTarget) == head + tail;
      LibrariesAppend(head, tail);
      LinkEntriesLibraries(deps[1..], findTarget);
      assert Libraries(head) == [StripLibraryFlag(deps[0])] by {
        if findTarget(deps[0]).Some? {
          assert head[1..][1..] == [];
        } else {
          assert head[1..] == [];
        }
      }
    }
  }

  /** Each directory entry of `es` names the directory of the target some
      dependency resolves to, and is immediately followed by that
      dependency's library entry. */
  ghost predicate DirectoriesPrecedeTheirLibrary(es: seq<LinkEntry>, deps: seq<string>,
                                                 findTarget: string -> Option<Target>) {
    forall i :: 0 <= i < |es| && es[i].LinkDirectory? ==>
      && i + 1 < |es|
      && exists dep :: dep in deps && findTarget(dep).Some?
                       && es[i].directory == DirectoryPart(findTarget(dep).value.fullPath)
                       && es[i + 1] == LinkLibrary(StripLibraryFlag(dep))
  }

  /** A directory entry only comes from a dependency that resolves to a target,
      and is immediately followed by that dependency's library entry. */
  lemma {:induction false} LinkDirectoriesPrecedeTheirLibrary(deps: seq<string>, findTarget: string -> Option<Target>)
    ensures DirectoriesPrecedeTheirLibrary(LinkEntries(deps, findTarget), deps, findTarget)
    decreases |deps|
  {
    if deps != [] {
      var es := LinkEntries(deps, findTarget);
      var head := DependencyEntries(deps[0], findTarget);
      var tail := LinkEntries(deps[1..], findTarget);
      assert es == head + tail;
      LinkDirectoriesPrecedeTheirLibrary(deps[1..], findTarget);
      forall i | 0 <= i < |es| && es[i].LinkDirectory?
        ensures i + 1 < |es|
        ensures exists dep :: dep in deps && findTarget(dep).Some?
                               && es[i].directory == DirectoryPart(findTarget(dep).value.fullPath)
                               && es[i + 1] == LinkLibrary(StripLibraryFlag(dep))
      {
        if i < |head| {
          assert i == 0 && findTarget(deps[0]).Some?;
          assert deps[0] in deps;
        } else {
          var j := i - |head|;
          assert DirectoriesPrecedeTheirLibrary(tail, deps[1..], findTarget);
          assert es[i] == tail[j] && tail[j].LinkDirectory?;
          assert j + 1 < |tail| && es[i + 1] == tail[j + 1];
          var dep :| dep in deps[1..] && findTarget(dep).Some?
                     && tail[j].directory == DirectoryPart(findTarget(dep).value.fullPath)
                     && tail[j + 1] == LinkLibrary(StripLibraryFlag(dep));
          assert dep in deps;
        }
      }
    }
  }

  /** The entries of two runs of dependencies are those of the first run
      followed by those of the second. */
  lemma {:induction false} LinkEntriesAppend(a: seq<string>, b: seq<string>, findTarget: string -> Option<Target>)
    ensures LinkEntries(a + b, findTarget) == LinkEntries(a, findTarget) + LinkEntries(b, findTarget)
    decreases |a|
  {
    if a == [] {
      assert a + b == b;
    } else {
      assert (a + b)[0] == a[0];
      assert (a + b)[1..] == a[1..] + b;
      LinkEntriesAppend(a[1..], b, findTarget);
    }
  }

  /** The entries of dependency `k` lie right after those of the dependencies
      before it. */
  lemma DependencyEntriesAt(deps: seq<string>, k: nat, findTarget: string -> Option<Target>)
    requires k < |deps|
    ensures LinkEntries(deps, findTarget)
         == LinkEntries(deps[..k], findTarget) + DependencyEntries(deps[k], findTarget)
            + LinkEntries(deps[k + 1..], findTarget)
  {
    var front, back := deps[..k], deps[k..];
    assert deps == front + back;
    LinkEntriesAppend(front, back, findTarget);
    assert back[0] == deps[k] && back[1..] == deps[k + 1..];
    LinkEntriesCons(back, findTarget);
    Regroup(LinkEntries(deps, findTarget), LinkEntries(front, findTarget), LinkEntries(back, findTarget),
            DependencyEntries(deps[k], findTarget), LinkEntries(deps[k + 1..], findTarget));
  }

  lemma Regroup<T>(all: seq<T>, front: seq<T>, back: seq<T>, mine: seq<T>, rest: seq<T>)
    requires all == front + back && back == mine + rest
    ensures all == front + mine + rest
  {
  }

  lemma LinkEntriesCons(deps: seq<string>, findTarget: string -> Option<Target>)
    requires deps != []
    ensures LinkEntries(deps, findTarget) == DependencyEntries(deps[0], findTarget) + LinkEntries(deps[1..], findTarget)
  {
  }

  /** The entries dependency `k` contributes, at the position after the
      entries of the dependencies before it. */
  ghost predicate EntriesOfDependencyAt(es: seq<LinkEntry>, at: nat, dep: string, findTarget: string -> Option<Target>) {
    match findTarget(dep)
    case Some(depTarget) =>
      at + 1 < |es|
      && es[at] == LinkDirectory(DirectoryPart(depTarget.fullPath))
      && es[at + 1] == LinkLibrary(StripLibraryFlag(dep))
    case None =>
      at < |es| && es[at] == LinkLibrary(StripLibraryFlag(dep))
  }

  lemma DependencyAt(deps: seq<string>, k: nat, findTarget: string -> Option<Target>)
    requires k < |deps|
    ensures EntriesOfDependencyAt(LinkEntries(deps, findTarget), |LinkEntries(deps[..k], findTarget)|, deps[k], findTarget)
  {
    var before := LinkEntries(deps[..k], findTarget);
    var mine := DependencyEntries(deps[k], findTarget);
    var rest := LinkEntries(deps[k + 1..], findTarget);
    DependencyEntriesAt(deps, k, findTarget);
    var es := before + mine + rest;
    assert es[|before|] == mine[0];
    if findTarget(deps[k]).Some? {
      assert es[|before| + 1] == mine[1];
    }
  }

  /** Each dependency, at its own position, the entries AppendTarget writes
      for it: one that FindTargetToUse resolves gets the directory of that
      target's full path immediately before its library entry; one that does
      not resolve gets its library entry alone. */
  lemma ResolvedDependencyDirectoryBeforeLibrary(deps: seq<string>, findTarget: string -> Option<Target>)
    ensures forall k :: 0 <= k < |deps| ==>
              EntriesOfDependencyAt(LinkEntries(deps, findTarget), |LinkEntries(deps[..k], findTarget)|, deps[k], findTarget)
  {
    forall k | 0 <= k < |deps|
      ensures EntriesOfDependencyAt(LinkEntries(deps, findTarget), |LinkEntries(deps[..k], findTarget)|, deps[k], findTarget)
    {
      DependencyAt(deps, k, findTarget);
    }
  }

  /** One line of the <Linker> block. */
  function LinkEntryLine(e: LinkEntry): string {
    match e
    case LinkDirectory(d) => "            <Add directory=\"" + d + "\" />\n"
    case LinkLibrary(l) => "            <Add library=\"" + l + "\" />\n"
  }

  function LinkEntryLines(es: seq<LinkEntry>): string {
    if es == [] then "" else LinkEntryLine(es[0]) + LinkEntryLines(es[1..])
  }

  /** The <Linker> block, present only when there are link dependencies. */
  function LinkerBlock(deps: seq<string>, findTarget: string -> Option<Target>): (block: string)
    ensures block == "" <==> deps == []
    ensures deps != [] ==> "         <Linker>\n" <= block && EndsWith(block, "         </Linker>\n")
  {
    if deps == [] then ""
    else
      var block := "         <Linker>\n" + LinkEntryLines(LinkEntries(deps, findTarget)) + "         </Linker>\n";
      assert block[|block| - |"         </Linker>\n"|..] == "         </Linker>\n";
      block
  }

  /** AS WRITTEN (global generator): the link dependencies are read through the
      target pointer after the `if (target != 0)` block has closed, so for a
      utility target, passed as NULL, the read dereferences NULL. `None`
      stands for that undefined behaviour. */
  function LinkLibrariesAsWritten(target: Option<Target>): (deps: Option<seq<string>>)
    ensures deps.None? <==> target.None?
    ensures target.Some? ==> deps == Some(target.value.linkLibraries)
  {
    match target
    case None => None
    case Some(t) => Some(t.linkLibraries)
  }

  /** The pointer AppendTarget receives for a target: NULL for a utility
      target, the target itself for a buildable one. */
  function AppendTargetPointer(t: Target): (target: Option<Target>)
    ensures target.None? <==> t.kind == Utility
  {
    if t.kind == Utility then None else Some(t)
  }

  /** A project with a utility target "Nightly" (kept, since it is the
      dashboard model itself) reaches the NULL read of the link dependencies. */
  lemma NightlyTargetReachesNullLinkRead(t: Target)
    requires t.kind == Utility && t.name == "Nightly"
    ensures t in AppendedTargets([t])
    ensures LinkLibrariesAsWritten(AppendTargetPointer(t)).None?
  {
    assert !IsDashboardSubTarget(t.name);
  }

  /** CORRECTED: a target block without a target (a utility target) has no link
      dependencies; with a target, its link implementation's libraries. */
  function LinkLibraries(target: Option<Target>): (deps: seq<string>)
    ensures target.None? ==> deps == []
    ensures target.Some? ==> Some(deps) == LinkLibrariesAsWritten(target)
  {
    match target
    case None => []
    case Some(t) => t.linkLibraries
  }

  /** With the correction every appended target has a defined block, and a
      utility target's block has no <Linker> part. */
  lemma UtilityTargetHasNoLinkerBlock(t: Target, findTarget: string -> Option<Target>)
    requires t.kind == Utility
    ensures LinkerBlock(LinkLibraries(AppendTargetPointer(t)), findTarget) == ""
  {
  }

  // ---------------------------------------------------------------------------
  // The <Target> block

  function OptionLines(opts: seq<string>): string {
    if opts == [] then "" else "            <Add option=\"" + opts[0] + "\" />\n" + OptionLines(opts[1..])
  }

  function DirectoryLines(dirs: seq<string>): string {
    if dirs == [] then "" else "            <Add directory=\"" + dirs[0] + "\" />\n" + DirectoryLines(dirs[1..])
  }

  /** The decimal digit of a target type code. */
  function Digit(code: int): string
    requires 0 <= code <= 9
  {
    [(('0' as int) + code) as char]
  }

  /** The options a target block carries for a real target: output location,
      working directory, object directory, type code, compiler token, then the
      <Compiler> block with options and include directories. */
  ghost function BuildableTargetOptions(generator: Generator, t: Target, mf: Makefile, compiler: string,
                                        expandList: string -> seq<string>, xmlSafe: string -> string): string {
    "         <Option output=\"" + OutputLocation(mf, t) + "\" prefix_auto=\"0\" extension_auto=\"0\" />\n"
    + "         <Option working_dir=\"" + WorkingDirectory(t, mf) + "\" />\n"
    + "         <Option object_output=\"./\" />\n"
    + "         <Option type=\"" + Digit(TargetTypeCode(t)) + "\" />\n"
    + "         <Option compiler=\"" + compiler + "\" />\n"
    + "         <Compiler>\n"
    + OptionLines(CompilerOptions(generator, t, mf, expandList, xmlSafe))
    + DirectoryLines(IncludeDirectoryEntries(t, mf, expandList))
    + "         </Compiler>\n"
  }

  /** The options a target block carries without a target: the start output
      directory as working directory, and type 4. */
  function UtilityTargetOptions(mf: Makefile): string {
    "         <Option working_dir=\"" + mf.startOutputDirectory + "\" />\n"
    + "         <Option type=\"4\" />\n"
  }

  const TargetClose := "      </Target>\n"

  function TargetOpen(title: string): string {
    "      <Target title=\"" + title + "\">\n"
  }

  /** AppendTarget: the <Target> block for `title`. With a target it carries the
      output location, working directory, type code, compiler token and
      <Compiler> block; without one (a utility target) only the start output
      directory and type 4. The global generator then adds the <Linker> block
      of the link dependencies (with the NULL read corrected), which is empty
      for a utility target. */
  ghost function TargetBlock(generator: Generator, title: string, target: Option<Target>, mf: Makefile,
                             compiler: string, expandList: string -> seq<string>, xmlSafe: string -> string,
                             findTarget: string -> Option<Target>): (block: string)
    ensures TargetOpen(title) <= block
    ensures EndsWith(block, TargetClose)
    ensures target.None? ==> block == TargetOpen(title) + UtilityTargetOptions(mf) + TargetClose
  {
    var body :=
      match target
      case Some(t) => BuildableTargetOptions(generator, t, mf, compiler, expandList, xmlSafe)
      case None => UtilityTargetOptions(mf);
    var linker := if generator == GlobalCodeBlocks then LinkerBlock(LinkLibraries(target), findTarget) else "";
    Framed(TargetOpen(title), body + linker, TargetClose);
    assert target.None? ==> linker == "" && body + linker == body;
    TargetOpen(title) + (body + linker) + TargetClose
  }
}
