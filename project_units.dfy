/** The source section of a `.cbp` project: one `<Unit>` per implementation
    file, in path order, then one per other file, in path order, then the
    units of the CMake list files. The global generator lists under each
    implementation file the targets that use it; the extra generator lists
    none. The stream the generators write to is an accumulated string. */
module ProjectUnits {
  import opened Wrappers
  import opened Strings
  import opened BuildGraph
  import opened SourceClassifier

  /** One `<Unit>` of the source section: a file, and the targets listed
      under it. */
  datatype SourceUnit = SourceUnit(filename: string, targets: seq<string>)

  function UnitOpen(filename: string): string {
    "      <Unit filename=\"" + filename + "\">\n"
  }

  const UnitClose := "      </Unit>\n"

  function TargetLine(target: string): string {
    "         <Option target=\"" + target + "\" />\n"
  }

  function TargetLines(targets: seq<string>): string
    decreases |targets|
  {
    if targets == [] then "" else TargetLines(targets[..|targets| - 1]) + TargetLine(targets[|targets| - 1])
  }

  function SourceUnitText(u: SourceUnit): string {
    UnitOpen(u.filename) + TargetLines(u.targets) + UnitClose
  }

  function SourceUnitsText(us: seq<SourceUnit>): string
    decreases |us|
  {
    if us == [] then "" else SourceUnitText(us[0]) + SourceUnitsText(us[1..])
  }

  lemma {:induction false} SourceUnitsTextAppend(a: seq<SourceUnit>, b: seq<SourceUnit>)
    ensures SourceUnitsText(a + b) == SourceUnitsText(a) + SourceUnitsText(b)
    decreases |a|
  {
    if a == [] {
      assert a + b == b;
    } else {
      assert (a + b)[1..] == a[1..] + b;
      SourceUnitsTextAppend(a[1..], b);
      AppendAssociative(SourceUnitText(a[0]), SourceUnitsText(a[1..]), SourceUnitsText(b));
    }
  }

  /** The units of map keys `paths`, each listing the key's targets. */
  function TargetUnits(cFiles: map<string, seq<string>>, paths: seq<string>): seq<SourceUnit>
    requires forall p :: p in paths ==> p in cFiles
  {
    seq(|paths|, i requires 0 <= i < |paths| => SourceUnit(paths[i], cFiles[paths[i]]))
  }

  /** The units of `paths`, listing no target. */
  function PlainUnits(paths: seq<string>): seq<SourceUnit> {
    seq(|paths|, i requires 0 <= i < |paths| => SourceUnit(paths[i], []))
  }

  /** The global generator's source units: `cFiles` in key order with their
      targets, then `otherFiles` in order. */
  ghost function GlobalSourceUnits(cFiles: map<string, seq<string>>, otherFiles: set<string>): seq<SourceUnit> {
    TargetUnits(cFiles, Ordered(cFiles.Keys)) + PlainUnits(Ordered(otherFiles))
  }

  /** The extra generator's source units: the keys of `cFiles` in order, then
      `otherFiles` in order, none listing a target. */
  ghost function ExtraSourceUnits(cFiles: map<string, SourceFile>, otherFiles: set<string>): seq<SourceUnit> {
    PlainUnits(Ordered(cFiles.Keys)) + PlainUnits(Ordered(otherFiles))
  }

  /** `us` lists the paths of `s`, one unit each, in ascending order. */
  ghost predicate SortedRun(us: seq<SourceUnit>, s: set<string>) {
    && |us| == |s|
    && (forall i :: 0 <= i < |us| ==> us[i].filename in s)
    && (forall i, j :: 0 <= i < j < |us| ==> LexLess(us[i].filename, us[j].filename))
    && (forall p :: p in s ==> exists i :: 0 <= i < |us| && us[i].filename == p)
  }

  /** Every unit of `us` lists the targets `cFiles` gives its file. */
  ghost predicate ListsTargets(us: seq<SourceUnit>, cFiles: map<string, seq<string>>) {
    forall i :: 0 <= i < |us| ==> us[i].filename in cFiles && us[i].targets == cFiles[us[i].filename]
  }

  /** No unit of `us` lists a target. */
  ghost predicate ListsNoTarget(us: seq<SourceUnit>) {
    forall i :: 0 <= i < |us| ==> us[i].targets == []
  }

  /** Units whose files are, index by index, the ordered paths of `s` form
      the sorted run of `s`. */
  lemma SortedRunOf(us: seq<SourceUnit>, s: set<string>)
    requires |us| == |s|
    requires forall i :: 0 <= i < |us| ==> us[i].filename == Ordered(s)[i]
    ensures SortedRun(us, s)
  {
    var keys := Ordered(s);
    forall p | p in s ensures exists i :: 0 <= i < |us| && us[i].filename == p {
      var i :| 0 <= i < |keys| && keys[i] == p;
      assert us[i].filename == p;
    }
  }

  lemma TargetUnitsRun(cFiles: map<string, seq<string>>, s: set<string>)
    requires s <= cFiles.Keys
    ensures SortedRun(TargetUnits(cFiles, Ordered(s)), s)
    ensures ListsTargets(TargetUnits(cFiles, Ordered(s)), cFiles)
  {
    SortedRunOf(TargetUnits(cFiles, Ordered(s)), s);
  }

  lemma PlainUnitsRun(s: set<string>)
    ensures SortedRun(PlainUnits(Ordered(s)), s)
    ensures ListsNoTarget(PlainUnits(Ordered(s)))
  {
    SortedRunOf(PlainUnits(Ordered(s)), s);
  }

  /** No two units of a sorted run share a file. */
  lemma SortedRunDistinct(us: seq<SourceUnit>, s: set<string>)
    requires SortedRun(us, s)
    ensures forall i, j :: 0 <= i < j < |us| ==> us[i].filename != us[j].filename
  {
    forall i, j | 0 <= i < j < |us| ensures us[i].filename != us[j].filename {
      assert LexLess(us[i].filename, us[j].filename);
      LexLessIrreflexive(us[i].filename);
    }
  }

  /** The section order of the global generator: first one unit per
      implementation file, in ascending path order, each listing that file's
      targets; then one unit per other file, in ascending path order, listing
      none. */
  lemma GlobalUnitsOrder(cFiles: map<string, seq<string>>, otherFiles: set<string>)
    ensures var us := GlobalSourceUnits(cFiles, otherFiles);
            var n := |cFiles.Keys|;
            && |us| == n + |otherFiles|
            && SortedRun(us[..n], cFiles.Keys) && ListsTargets(us[..n], cFiles)
            && SortedRun(us[n..], otherFiles) && ListsNoTarget(us[n..])
  {
    var front := TargetUnits(cFiles, Ordered(cFiles.Keys));
    var back := PlainUnits(Ordered(otherFiles));
    var us := GlobalSourceUnits(cFiles, otherFiles);
    TargetUnitsRun(cFiles, cFiles.Keys);
    PlainUnitsRun(otherFiles);
    assert us[..|front|] == front;
    assert us[|front|..] == back;
  }

  /** The section order of the extra generator: the same two sorted runs,
      with no target listed anywhere. */
  lemma ExtraUnitsOrder(cFiles: map<string, SourceFile>, otherFiles: set<string>)
    ensures var us := ExtraSourceUnits(cFiles, otherFiles);
            var n := |cFiles.Keys|;
            && |us| == n + |otherFiles|
            && SortedRun(us[..n], cFiles.Keys) && ListsNoTarget(us[..n])
            && SortedRun(us[n..], otherFiles) && ListsNoTarget(us[n..])
  {
    var front := PlainUnits(Ordered(cFiles.Keys));
    var back := PlainUnits(Ordered(otherFiles));
    var us := ExtraSourceUnits(cFiles, otherFiles);
    PlainUnitsRun(cFiles.Keys);
    PlainUnitsRun(otherFiles);
    assert us[..|front|] == front;
    assert us[|front|..] == back;
  }

  /** A path some implementation-file entry has is a key of `cFiles`, mapped
      to its owners. */
  lemma CFileKey(es: seq<Entry>, p: string)
    requires exists i :: 0 <= i < |es| && IsCFileEntry(es[i]) && es[i].source.fullPath == p
    ensures p in CFileTargets(es) && CFileTargets(es)[p] == OwnersOf(es, p)
  {
    CFileTargetsCharacterised(es);
  }

  /** In the global generator's section, an implementation file used by
      several targets has a single unit, which lists every target that uses
      it, in visiting order. */
  lemma SharedSourceOneUnitGlobal(es: seq<Entry>, otherFiles: set<string>, p: string)
    requires exists i :: 0 <= i < |es| && IsCFileEntry(es[i]) && es[i].source.fullPath == p
    ensures var front := GlobalSourceUnits(CFileTargets(es), otherFiles)[..|CFileTargets(es).Keys|];
            && (exists i :: 0 <= i < |front| && front[i].filename == p)
            && (forall i :: 0 <= i < |front| && front[i].filename == p ==> front[i].targets == OwnersOf(es, p))
            && (forall i, j :: 0 <= i < j < |front| ==> front[i].filename != front[j].filename)
  {
    var cFiles := CFileTargets(es);
    var front := GlobalSourceUnits(cFiles, otherFiles)[..|cFiles.Keys|];
    CFileKey(es, p);
    GlobalUnitsOrder(cFiles, otherFiles);
    SortedRunDistinct(front, cFiles.Keys);
  }

  /** In the extra generator's section, an implementation file used by
      several targets has a single unit, listing no target. */
  lemma SharedSourceOneUnitExtra(es: seq<Entry>, otherFiles: set<string>, p: string)
    requires exists i :: 0 <= i < |es| && IsCFileEntry(es[i]) && es[i].source.fullPath == p
    ensures var front := ExtraSourceUnits(CFileSources(es), otherFiles)[..|CFileSources(es).Keys|];
            && (exists i :: 0 <= i < |front| && front[i].filename == p)
            && (forall i :: 0 <= i < |front| ==> front[i].targets == [])
            && (forall i, j :: 0 <= i < j < |front| ==> front[i].filename != front[j].filename)
  {
    var cFiles := CFileSources(es);
    var front := ExtraSourceUnits(cFiles, otherFiles)[..|cFiles.Keys|];
    CFileKey(es, p);
    CFileSourcesKeys(es);
    ExtraUnitsOrder(cFiles, otherFiles);
    SortedRunDistinct(front, cFiles.Keys);
  }

  // ---------------------------------------------------------------------------
  // Writing the section

  /** The target loop under one unit. */
  method WriteTargetLines(fout0: string, targets: seq<string>) returns (fout: string)
    ensures fout == fout0 + TargetLines(targets)
  {
    fout := fout0;
    var k := 0;
    while k < |targets|
      invariant 0 <= k <= |targets|
      invariant fout == fout0 + TargetLines(targets[..k])
    {
      assert targets[..k + 1][..k] == targets[..k];
      AppendAssociative(fout0, TargetLines(targets[..k]), TargetLine(targets[k]));
      fout := fout + TargetLine(targets[k]);
      k := k + 1;
    }
    assert targets[..k] == targets;
  }

  /** One unit with its target lines. */
  method WriteSourceUnit(fout0: string, u: SourceUnit) returns (fout: string)
    ensures fout == fout0 + SourceUnitText(u)
  {
    fout := fout0 + UnitOpen(u.filename);
    fout := WriteTargetLines(fout, u.targets);
    fout := fout + UnitClose;
    AppendAssociative(fout0, UnitOpen(u.filename), TargetLines(u.targets));
    AppendAssociative(fout0, UnitOpen(u.filename) + TargetLines(u.targets), UnitClose);
  }

  /** One unit that lists no target. */
  method WritePlainUnit(fout0: string, filename: string) returns (fout: string)
    ensures fout == fout0 + SourceUnitText(SourceUnit(filename, []))
  {
    fout := fout0 + UnitOpen(filename) + UnitClose;
    AppendEmpty(UnitOpen(filename));
    AppendAssociative(fout0, UnitOpen(filename), UnitClose);
  }

  lemma TargetUnitsCons(cFiles: map<string, seq<string>>, p: string, rest: seq<string>)
    requires p in cFiles && forall q :: q in rest ==> q in cFiles
    ensures TargetUnits(cFiles, [p] + rest) == [SourceUnit(p, cFiles[p])] + TargetUnits(cFiles, rest)
  {
  }

  lemma PlainUnitsCons(p: string, rest: seq<string>)
    ensures PlainUnits([p] + rest) == [SourceUnit(p, [])] + PlainUnits(rest)
  {
  }

  /** The loop over `cFiles` of the global generator, in key order. */
  method WriteTargetUnits(fout0: string, cFiles: map<string, seq<string>>) returns (fout: string)
    ensures fout == fout0 + SourceUnitsText(TargetUnits(cFiles, Ordered(cFiles.Keys)))
  {
    fout := fout0;
    var remaining := cFiles.Keys;
    while remaining != {}
      invariant remaining <= cFiles.Keys
      invariant fout + SourceUnitsText(TargetUnits(cFiles, Ordered(remaining)))
             == fout0 + SourceUnitsText(TargetUnits(cFiles, Ordered(cFiles.Keys)))
      decreases |remaining|
    {
      var sit := Least(remaining);
      OrderedFirst(remaining, sit);
      TargetUnitsCons(cFiles, sit, Ordered(remaining - {sit}));
      var u := SourceUnit(sit, cFiles[sit]);
      assert TargetUnits(cFiles, Ordered(remaining))[1..] == TargetUnits(cFiles, Ordered(remaining - {sit}));
      AppendAssociative(fout, SourceUnitText(u), SourceUnitsText(TargetUnits(cFiles, Ordered(remaining - {sit}))));
      fout := WriteSourceUnit(fout, u);
      remaining := remaining - {sit};
    }
    assert Ordered(remaining) == [];
  }

  /** A loop over a sorted set of paths, one plain unit each. */
  method WritePlainUnits(fout0: string, paths: set<string>) returns (fout: string)
    ensures fout == fout0 + SourceUnitsText(PlainUnits(Ordered(paths)))
  {
    fout := fout0;
    var remaining := paths;
    while remaining != {}
      invariant fout + SourceUnitsText(PlainUnits(Ordered(remaining)))
             == fout0 + SourceUnitsText(PlainUnits(Ordered(paths)))
      decreases |remaining|
    {
      var sit := Least(remaining);
      OrderedFirst(remaining, sit);
      PlainUnitsCons(sit, Ordered(remaining - {sit}));
      var u := SourceUnit(sit, []);
      assert PlainUnits(Ordered(remaining))[1..] == PlainUnits(Ordered(remaining - {sit}));
      AppendAssociative(fout, SourceUnitText(u), SourceUnitsText(PlainUnits(Ordered(remaining - {sit}))));
      fout := WritePlainUnit(fout, sit);
      remaining := remaining - {sit};
    }
    assert Ordered(remaining) == [];
  }

  /** The unit loops of the global generator, then the list-file units. */
  method WriteUnitsGlobal(fout0: string, cFiles: map<string, seq<string>>, otherFiles: set<string>, unitFiles: string)
    returns (fout: string)
    ensures fout == fout0 + SourceUnitsText(GlobalSourceUnits(cFiles, otherFiles)) + unitFiles
  {
    fout := WriteTargetUnits(fout0, cFiles);
    fout := WritePlainUnits(fout, otherFiles);
    fout := fout + unitFiles;
    SourceUnitsTextAppend(TargetUnits(cFiles, Ordered(cFiles.Keys)), PlainUnits(Ordered(otherFiles)));
    AppendAssociative(fout0, SourceUnitsText(TargetUnits(cFiles, Ordered(cFiles.Keys))),
                      SourceUnitsText(PlainUnits(Ordered(otherFiles))));
  }

  /** The unit loops of the extra generator, then the list-file units. */
  method WriteUnitsExtra(fout0: string, cFiles: map<string, SourceFile>, otherFiles: set<string>, unitFiles: string)
    returns (fout: string)
    ensures fout == fout0 + SourceUnitsText(ExtraSourceUnits(cFiles, otherFiles)) + unitFiles
  {
    fout := WritePlainUnits(fout0, cFiles.Keys);
    fout := WritePlainUnits(fout, otherFiles);
    fout := fout + unitFiles;
    SourceUnitsTextAppend(PlainUnits(Ordered(cFiles.Keys)), PlainUnits(Ordered(otherFiles)));
    AppendAssociative(fout0, SourceUnitsText(PlainUnits(Ordered(cFiles.Keys))),
                      SourceUnitsText(PlainUnits(Ordered(otherFiles))));
  }

  // ---------------------------------------------------------------------------
  // The source section of each generator, from the classification on

  /** The global generator's source section: the sources of every directory
      of the project classified, headers probed next to each implementation
      file with the top directory's header extensions, then the units. */
  method WriteSourceSectionGlobal(fout0: string, mfs: seq<Makefile>, filenamePath: string -> string,
                                  withoutExtension: string -> string, fileExists: string -> bool,
                                  unitFiles: string)
    returns (fout: string)
    requires |mfs| > 0
    ensures var es := ProjectEntries(mfs, None);
            var cFiles := CFileTargets(es);
            var otherFiles := DiscoverHeaders(Ordered(cFiles.Keys), mfs[0].headerExtensions, OtherFiles(es),
                                              filenamePath, withoutExtension, fileExists);
            fout == fout0 + SourceUnitsText(GlobalSourceUnits(cFiles, otherFiles)) + unitFiles
  {
    var cFiles, otherFiles := ClassifyGlobal(mfs);
    otherFiles := AddHeaders(cFiles.Keys, otherFiles, mfs[0].headerExtensions, filenamePath, withoutExtension, fileExists);
    fout := WriteUnitsGlobal(fout0, cFiles, otherFiles, unitFiles);
  }

  /** The extra generator's source section: the sources classified with the
      top directory's source extensions, headers probed with its header
      extensions, then the units. */
  method WriteSourceSectionExtra(fout0: string, mfs: seq<Makefile>, filenamePath: string -> string,
                                 withoutExtension: string -> string, fileExists: string -> bool,
                                 unitFiles: string)
    returns (fout: string)
    requires |mfs| > 0
    ensures var es := ProjectEntries(mfs, Some(mfs[0].sourceExtensions));
            var cFiles := CFileSources(es);
            var otherFiles := DiscoverHeaders(Ordered(cFiles.Keys), mfs[0].headerExtensions, OtherFiles(es),
                                              filenamePath, withoutExtension, fileExists);
            fout == fout0 + SourceUnitsText(ExtraSourceUnits(cFiles, otherFiles)) + unitFiles
  {
    var cFiles, otherFiles := ClassifyExtra(mfs, mfs[0].sourceExtensions);
    otherFiles := AddHeaders(cFiles.Keys, otherFiles, mfs[0].headerExtensions, filenamePath, withoutExtension, fileExists);
    fout := WriteUnitsExtra(fout0, cFiles, otherFiles, unitFiles);
  }
}
