/** How the generators sort the sources of a project into C/C++
    implementation files (`cFiles`, keyed by full path) and all other files
    (`otherFiles`, an ordered set), and how they then add one matching header
    per implementation file when one exists. */
module SourceClassifier {
  import opened Wrappers
  import opened Strings
  import opened BuildGraph

  // ---------------------------------------------------------------------------
  // The sources visited, in order

  /** The kinds whose sources are collected: the buildable kinds, and utility
      targets, which can have sources too. */
  predicate HasSources(kind: TargetType) {
    IsBuildable(kind) || kind == Utility
  }

  /** One visit of the innermost loop: a source of a target, with the list of
      source extensions that decides whether it is an implementation file.
      The global generator uses the list of the directory that owns the
      target, the extra generator the list of the top directory. */
  datatype Entry = Entry(targetName: string, source: SourceFile, sourceExtensions: seq<string>)

  /** The entries for the sources `ss` of the target named `name`. */
  function SourceEntries(name: string, ss: seq<SourceFile>, exts: seq<string>): (es: seq<Entry>)
    ensures |es| == |ss|
    ensures forall k :: 0 <= k < |ss| ==> es[k] == Entry(name, ss[k], exts)
    decreases |ss|
  {
    if ss == [] then []
    else SourceEntries(name, ss[..|ss| - 1], exts) + [Entry(name, ss[|ss| - 1], exts)]
  }

  /** The entries of one target: none unless its kind has sources. */
  function TargetEntries(t: Target, exts: seq<string>): seq<Entry> {
    if HasSources(t.kind) then SourceEntries(t.name, t.sources, exts) else []
  }

  /** The extensions that apply in a directory: its own list, unless the
      generator imposes one list for the whole project. */
  function ExtensionsIn(mf: Makefile, projectExtensions: Option<seq<string>>): seq<string> {
    projectExtensions.GetOr(mf.sourceExtensions)
  }

  /** The entries of the targets `ts` of directory `mf`. */
  function TargetsEntries(mf: Makefile, ts: seq<Target>, projectExtensions: Option<seq<string>>): seq<Entry>
    decreases |ts|
  {
    if ts == [] then []
    else
      TargetsEntries(mf, ts[..|ts| - 1], projectExtensions)
      + TargetEntries(ts[|ts| - 1], ExtensionsIn(mf, projectExtensions))
  }

  /** All entries of the directories `mfs`, in loop order. */
  function ProjectEntries(mfs: seq<Makefile>, projectExtensions: Option<seq<string>>): seq<Entry>
    decreases |mfs|
  {
    if mfs == [] then []
    else
      ProjectEntries(mfs[..|mfs| - 1], projectExtensions)
      + TargetsEntries(mfs[|mfs| - 1], mfs[|mfs| - 1].targets, projectExtensions)
  }

  // ---------------------------------------------------------------------------
  // Classification

  /** A C/C++ implementation file: its language is set and starts with 'C'
      (C or CXX), and its extension is one of the source extensions. */
  predicate IsImplementationFile(s: SourceFile, sourceExtensions: seq<string>) {
    s.language.Some? && |s.language.value| > 0 && s.language.value[0] == 'C'
    && s.extension in sourceExtensions
  }

  /** An entry that goes to `cFiles`. */
  predicate IsCFileEntry(e: Entry) {
    !e.source.generated && IsImplementationFile(e.source, e.sourceExtensions)
  }

  /** An entry that goes to `otherFiles`. */
  predicate IsOtherFileEntry(e: Entry) {
    !e.source.generated && !IsImplementationFile(e.source, e.sourceExtensions)
  }

  /** The global generator's `cFiles`: each implementation file's path mapped
      to the names of the targets it was seen in, in visiting order. */
  function CFileTargets(es: seq<Entry>): (m: map<string, seq<string>>)
    decreases |es|
  {
    if es == [] then map[]
    else
      var m := CFileTargets(es[..|es| - 1]);
      var e := es[|es| - 1];
      if IsCFileEntry(e) then
        var p := e.source.fullPath;
        m[p := (if p in m then m[p] else []) + [e.targetName]]
      else m
  }

  /** The extra generator's `cFiles`: each implementation file's path mapped to
      the source last seen with that path. */
  function CFileSources(es: seq<Entry>): (m: map<string, SourceFile>)
    decreases |es|
  {
    if es == [] then map[]
    else
      var m := CFileSources(es[..|es| - 1]);
      var e := es[|es| - 1];
      if IsCFileEntry(e) then m[e.source.fullPath := e.source] else m
  }

  /** `otherFiles` after the classification loops. */
  function OtherFiles(es: seq<Entry>): (others: set<string>)
    decreases |es|
  {
    if es == [] then {}
    else
      var e := es[|es| - 1];
      OtherFiles(es[..|es| - 1]) + (if IsOtherFileEntry(e) then {e.source.fullPath} else {})
  }

  /** Reference definition of a path's owners: the names of the targets of
      the implementation-file entries with that path, in order. */
  function OwnersOf(es: seq<Entry>, p: string): seq<string>
    decreases |es|
  {
    if es == [] then []
    else
      var e := es[|es| - 1];
      OwnersOf(es[..|es| - 1], p)
      + (if IsCFileEntry(e) && e.source.fullPath == p then [e.targetName] else [])
  }

  /** The keys of `cFiles` are exactly the paths of the non-generated
      implementation files, and each maps to all the targets that list it, in
      visiting order: a repeated path adds a target to its list, never a second
      entry. */
  lemma {:induction false} CFileTargetsCharacterised(es: seq<Entry>)
    ensures forall p :: p in CFileTargets(es) <==>
              exists i :: 0 <= i < |es| && IsCFileEntry(es[i]) && es[i].source.fullPath == p
    ensures forall p :: p in CFileTargets(es) ==> CFileTargets(es)[p] == OwnersOf(es, p) && |OwnersOf(es, p)| > 0
    decreases |es|
  {
    if es != [] {
      var init := es[..|es| - 1];
      CFileTargetsCharacterised(init);
      OwnersOfEmpty(init);
      assert forall i :: 0 <= i < |init| ==> init[i] == es[i];
    }
  }

  /** A path no implementation-file entry has has no owners. */
  lemma {:induction false} OwnersOfEmpty(es: seq<Entry>)
    ensures forall p :: (forall i :: 0 <= i < |es| ==> !(IsCFileEntry(es[i]) && es[i].source.fullPath == p))
                        ==> OwnersOf(es, p) == []
    decreases |es|
  {
    if es != [] {
      var init := es[..|es| - 1];
      OwnersOfEmpty(init);
      assert forall i :: 0 <= i < |init| ==> init[i] == es[i];
    }
  }

  /** Both generators key `cFiles` by the same paths. */
  lemma {:induction false} CFileSourcesKeys(es: seq<Entry>)
    ensures CFileSources(es).Keys == CFileTargets(es).Keys
    decreases |es|
  {
    if es != [] {
      CFileSourcesKeys(es[..|es| - 1]);
    }
  }

  /** The extra generator keeps, for each path, the last implementation-file
      source seen with it. */
  lemma {:induction false} CFileSourcesLastWins(es: seq<Entry>)
    ensures forall p :: p in CFileSources(es) ==>
              exists i :: 0 <= i < |es| && IsCFileEntry(es[i]) && es[i].source == CFileSources(es)[p]
                          && es[i].source.fullPath == p && LastWithPath(es, i, p)
    decreases |es|
  {
    if es != [] {
      var init := es[..|es| - 1];
      var e := es[|es| - 1];
      CFileSourcesLastWins(init);
      forall p | p in CFileSources(es)
        ensures exists i :: 0 <= i < |es| && IsCFileEntry(es[i]) && es[i].source == CFileSources(es)[p]
                            && es[i].source.fullPath == p && LastWithPath(es, i, p)
      {
        if IsCFileEntry(e) && e.source.fullPath == p {
          assert LastWithPath(es, |es| - 1, p);
        } else {
          assert p in CFileSources(init) && CFileSources(es)[p] == CFileSources(init)[p];
          var i :| 0 <= i < |init| && IsCFileEntry(init[i]) && init[i].source == CFileSources(init)[p]
                   && init[i].source.fullPath == p && LastWithPath(init, i, p);
          assert es[i] == init[i];
          assert LastWithPath(es, i, p);
        }
      }
    }
  }

  /** No implementation-file entry after position `i` has path `p`. */
  ghost predicate LastWithPath(es: seq<Entry>, i: nat, p: string) {
    forall j :: i < j < |es| ==> !(IsCFileEntry(es[j]) && es[j].source.fullPath == p)
  }

  /** `otherFiles` holds exactly the paths of the non-generated sources that are
      not implementation files; a generated source is in neither container. */
  lemma {:induction false} OtherFilesCharacterised(es: seq<Entry>)
    ensures forall p :: p in OtherFiles(es) <==>
              exists i :: 0 <= i < |es| && IsOtherFileEntry(es[i]) && es[i].source.fullPath == p
    decreases |es|
  {
    if es != [] {
      var init := es[..|es| - 1];
      OtherFilesCharacterised(init);
      assert forall i :: 0 <= i < |init| ==> init[i] == es[i];
    }
  }

  /** A path whose every occurrence is a GENERATED source is in neither
      container. */
  lemma GeneratedSourcesSkipped(es: seq<Entry>, p: string)
    requires forall i :: 0 <= i < |es| && es[i].source.fullPath == p ==> es[i].source.generated
    ensures p !in CFileTargets(es) && p !in CFileSources(es) && p !in OtherFiles(es)
  {
    CFileTargetsCharacterised(es);
    CFileSourcesKeys(es);
    OtherFilesCharacterised(es);
  }

  // ---------------------------------------------------------------------------
  // The classification loops

  /** The extension loop: whether `extension` is in the list, stopping at the
      first match. */
  method HasSourceExtension(extension: string, sourceExtensions: seq<string>) returns (isCFile: bool)
    ensures isCFile <==> extension in sourceExtensions
  {
    isCFile := false;
    var k := 0;
    while k < |sourceExtensions|
      invariant 0 <= k <= |sourceExtensions|
      invariant extension !in sourceExtensions[..k]
    {
      if extension == sourceExtensions[k] {
        isCFile := true;
        break;
      }
      k := k + 1;
    }
  }

  /** The test of one source: language starting with 'C', then the extension
      loop. */
  method IsCFile(s: SourceFile, sourceExtensions: seq<string>) returns (isCFile: bool)
    ensures isCFile <==> IsImplementationFile(s, sourceExtensions)
  {
    isCFile := false;
    if s.language.Some? && |s.language.value| > 0 && s.language.value[0] == 'C' {
      isCFile := HasSourceExtension(s.extension, sourceExtensions);
    }
  }

  /** The entries of the first `k + 1` sources are those of the first `k`
      followed by the entry of source `k`. */
  lemma SourceEntriesStep(before: seq<Entry>, name: string, sources: seq<SourceFile>, k: nat, exts: seq<string>)
    requires k < |sources|
    ensures before + SourceEntries(name, sources[..k + 1], exts)
         == before + SourceEntries(name, sources[..k], exts) + [Entry(name, sources[k], exts)]
  {
    assert sources[..k + 1][..k] == sources[..k];
  }

  /** One more entry updates the containers as the loop body does. */
  lemma EntriesSnoc(es: seq<Entry>, e: Entry)
    ensures CFileTargets(es + [e])
         == if IsCFileEntry(e) then
              CFileTargets(es)[e.source.fullPath := (if e.source.fullPath in CFileTargets(es)
                                                     then CFileTargets(es)[e.source.fullPath] else []) + [e.targetName]]
            else CFileTargets(es)
    ensures CFileSources(es + [e])
         == if IsCFileEntry(e) then CFileSources(es)[e.source.fullPath := e.source] else CFileSources(es)
    ensures OtherFiles(es + [e])
         == OtherFiles(es) + (if IsOtherFileEntry(e) then {e.source.fullPath} else {})
  {
    assert (es + [e])[..|es + [e]| - 1] == es;
  }

  /** The body of the source loop (global generator) for one source `si` of
      the target `name`. */
  method AddSourceGlobal(cFiles0: map<string, seq<string>>, otherFiles0: set<string>, ghost es: seq<Entry>,
                         name: string, si: SourceFile, exts: seq<string>)
    returns (cFiles: map<string, seq<string>>, otherFiles: set<string>)
    requires cFiles0 == CFileTargets(es) && otherFiles0 == OtherFiles(es)
    ensures cFiles == CFileTargets(es + [Entry(name, si, exts)])
    ensures otherFiles == OtherFiles(es + [Entry(name, si, exts)])
  {
    EntriesSnoc(es, Entry(name, si, exts));
    cFiles, otherFiles := cFiles0, otherFiles0;
    if si.generated {
      return;
    }
    var isCFile := IsCFile(si, exts);
    if isCFile {
      var fullPath := si.fullPath;
      if fullPath in cFiles {
        cFiles := cFiles[fullPath := cFiles[fullPath] + [name]];
      } else {
        cFiles := cFiles[fullPath := [name]];
        assert [] + [name] == [name];
      }
    } else {
      otherFiles := otherFiles + {si.fullPath};
    }
  }

  /** The source loop of one target (global generator): an implementation file
      adds the target to its path's list, any other non-generated file is
      inserted in `otherFiles`. */
  method AddTargetSourcesGlobal(cFiles0: map<string, seq<string>>, otherFiles0: set<string>, ghost before: seq<Entry>,
                                name: string, sources: seq<SourceFile>, exts: seq<string>)
    returns (cFiles: map<string, seq<string>>, otherFiles: set<string>)
    requires cFiles0 == CFileTargets(before) && otherFiles0 == OtherFiles(before)
    ensures cFiles == CFileTargets(before + SourceEntries(name, sources, exts))
    ensures otherFiles == OtherFiles(before + SourceEntries(name, sources, exts))
  {
    cFiles, otherFiles := cFiles0, otherFiles0;
    var k := 0;
    assert before + SourceEntries(name, sources[..0], exts) == before;
    while k < |sources|
      invariant 0 <= k <= |sources|
      invariant cFiles == CFileTargets(before + SourceEntries(name, sources[..k], exts))
      invariant otherFiles == OtherFiles(before + SourceEntries(name, sources[..k], exts))
    {
      SourceEntriesStep(before, name, sources, k, exts);
      cFiles, otherFiles := AddSourceGlobal(cFiles, otherFiles, before + SourceEntries(name, sources[..k], exts),
                                            name, sources[k], exts);
      k := k + 1;
    }
    assert sources[..|sources|] == sources;
  }

  /** The same loop for the extra generator, which stores the source itself. */
  method AddTargetSourcesExtra(cFiles0: map<string, SourceFile>, otherFiles0: set<string>, ghost before: seq<Entry>,
                               name: string, sources: seq<SourceFile>, exts: seq<string>)
    returns (cFiles: map<string, SourceFile>, otherFiles: set<string>)
    requires cFiles0 == CFileSources(before) && otherFiles0 == OtherFiles(before)
    ensures cFiles == CFileSources(before + SourceEntries(name, sources, exts))
    ensures otherFiles == OtherFiles(before + SourceEntries(name, sources, exts))
  {
    cFiles, otherFiles := cFiles0, otherFiles0;
    var k := 0;
    assert before + SourceEntries(name, sources[..0], exts) == before;
    while k < |sources|
      invariant 0 <= k <= |sources|
      invariant cFiles == CFileSources(before + SourceEntries(name, sources[..k], exts))
      invariant otherFiles == OtherFiles(before + SourceEntries(name, sources[..k], exts))
    {
      SourceEntriesStep(before, name, sources, k, exts);
      EntriesSnoc(before + SourceEntries(name, sources[..k], exts), Entry(name, sources[k], exts));
      var si := sources[k];
      k := k + 1;
      if si.generated {
        continue;
      }
      var isCFile := IsCFile(si, exts);
      if isCFile {
        cFiles := cFiles[si.fullPath := si];
      } else {
        otherFiles := otherFiles + {si.fullPath};
      }
    }
    assert sources[..|sources|] == sources;
  }

  /** The entries of the first `j + 1` targets are those of the first `j`
      followed by those of target `j`. */
  lemma TargetsEntriesStep(done: seq<Entry>, mf: Makefile, ts: seq<Target>, j: nat,
                           projectExtensions: Option<seq<string>>)
    requires j < |ts|
    ensures done + TargetsEntries(mf, ts[..j + 1], projectExtensions)
         == done + TargetsEntries(mf, ts[..j], projectExtensions)
            + TargetEntries(ts[j], ExtensionsIn(mf, projectExtensions))
  {
    assert ts[..j + 1][..j] == ts[..j];
  }

  /** The target loop over one directory (global generator). */
  method AddDirectoryGlobal(cFiles0: map<string, seq<string>>, otherFiles0: set<string>, ghost done: seq<Entry>,
                            makefile: Makefile)
    returns (cFiles: map<string, seq<string>>, otherFiles: set<string>)
    requires cFiles0 == CFileTargets(done) && otherFiles0 == OtherFiles(done)
    ensures cFiles == CFileTargets(done + TargetsEntries(makefile, makefile.targets, None))
    ensures otherFiles == OtherFiles(done + TargetsEntries(makefile, makefile.targets, None))
  {
    cFiles, otherFiles := cFiles0, otherFiles0;
    var targets := makefile.targets;
    var j := 0;
    assert done + TargetsEntries(makefile, targets[..0], None) == done;
    while j < |targets|
      invariant 0 <= j <= |targets|
      invariant cFiles == CFileTargets(done + TargetsEntries(makefile, targets[..j], None))
      invariant otherFiles == OtherFiles(done + TargetsEntries(makefile, targets[..j], None))
    {
      var ti := targets[j];
      ghost var before := done + TargetsEntries(makefile, targets[..j], None);
      TargetsEntriesStep(done, makefile, targets, j, None);
      if HasSources(ti.kind) {
        cFiles, otherFiles := AddTargetSourcesGlobal(cFiles, otherFiles, before,
                                                     ti.name, ti.sources, makefile.sourceExtensions);
      } else {
        assert before + TargetEntries(ti, makefile.sourceExtensions) == before;
      }
      j := j + 1;
    }
    assert targets[..|targets|] == targets;
  }

  /** The collection loops of OutputCodeBlocksProject (global generator): over
      the directories, their targets of a kind with sources, and their sources,
      each judged by its own directory's source extensions. */
  method ClassifyGlobal(mfs: seq<Makefile>) returns (cFiles: map<string, seq<string>>, otherFiles: set<string>)
    ensures cFiles == CFileTargets(ProjectEntries(mfs, None))
    ensures otherFiles == OtherFiles(ProjectEntries(mfs, None))
  {
    cFiles, otherFiles := map[], {};
    var i := 0;
    while i < |mfs|
      invariant 0 <= i <= |mfs|
      invariant cFiles == CFileTargets(ProjectEntries(mfs[..i], None))
      invariant otherFiles == OtherFiles(ProjectEntries(mfs[..i], None))
    {
      cFiles, otherFiles := AddDirectoryGlobal(cFiles, otherFiles, ProjectEntries(mfs[..i], None), mfs[i]);
      assert mfs[..i + 1][..i] == mfs[..i];
      i := i + 1;
    }
    assert mfs[..|mfs|] == mfs;
  }

  /** The target loop over one directory (extra generator). */
  method AddDirectoryExtra(cFiles0: map<string, SourceFile>, otherFiles0: set<string>, ghost done: seq<Entry>,
                           makefile: Makefile, topExtensions: seq<string>)
    returns (cFiles: map<string, SourceFile>, otherFiles: set<string>)
    requires cFiles0 == CFileSources(done) && otherFiles0 == OtherFiles(done)
    ensures cFiles == CFileSources(done + TargetsEntries(makefile, makefile.targets, Some(topExtensions)))
    ensures otherFiles == OtherFiles(done + TargetsEntries(makefile, makefile.targets, Some(topExtensions)))
  {
    cFiles, otherFiles := cFiles0, otherFiles0;
    var targets := makefile.targets;
    var j := 0;
    assert done + TargetsEntries(makefile, targets[..0], Some(topExtensions)) == done;
    while j < |targets|
      invariant 0 <= j <= |targets|
      invariant cFiles == CFileSources(done + TargetsEntries(makefile, targets[..j], Some(topExtensions)))
      invariant otherFiles == OtherFiles(done + TargetsEntries(makefile, targets[..j], Some(topExtensions)))
    {
      var ti := targets[j];
      ghost var before := done + TargetsEntries(makefile, targets[..j], Some(topExtensions));
      TargetsEntriesStep(done, makefile, targets, j, Some(topExtensions));
      if HasSources(ti.kind) {
        cFiles, otherFiles := AddTargetSourcesExtra(cFiles, otherFiles, before,
                                                    ti.name, ti.sources, topExtensions);
      } else {
        assert before + TargetEntries(ti, topExtensions) == before;
      }
      j := j + 1;
    }
    assert targets[..|targets|] == targets;
  }

  /** The collection loops of CreateNewProjectFile (extra generator): the same
      walk, judging every source by the extensions of the top directory. */
  method ClassifyExtra(mfs: seq<Makefile>, topExtensions: seq<string>)
    returns (cFiles: map<string, SourceFile>, otherFiles: set<string>)
    ensures cFiles == CFileSources(ProjectEntries(mfs, Some(topExtensions)))
    ensures otherFiles == OtherFiles(ProjectEntries(mfs, Some(topExtensions)))
  {
    cFiles, otherFiles := map[], {};
    var i := 0;
    while i < |mfs|
      invariant 0 <= i <= |mfs|
      invariant cFiles == CFileSources(ProjectEntries(mfs[..i], Some(topExtensions)))
      invariant otherFiles == OtherFiles(ProjectEntries(mfs[..i], Some(topExtensions)))
    {
      cFiles, otherFiles := AddDirectoryExtra(cFiles, otherFiles, ProjectEntries(mfs[..i], Some(topExtensions)),
                                              mfs[i], topExtensions);
      assert mfs[..i + 1][..i] == mfs[..i];
      i := i + 1;
    }
    assert mfs[..|mfs|] == mfs;
  }

  // ---------------------------------------------------------------------------
  // Header discovery

  /** The candidate header for `base` and extension `ext`. */
  function HeaderName(base: string, ext: string): string {
    base + "." + ext
  }

  /** The probe for one implementation file whose path without extension is
      `base`: the header extensions are tried in order; the probe stops without
      inserting at the first candidate already in `others`, and otherwise
      yields the first candidate that exists. */
  function Probe(base: string, headerExts: seq<string>, others: set<string>, fileExists: string -> bool): (h: Option<string>)
    ensures h.Some? ==> h.value !in others && fileExists(h.value)
    decreases |headerExts|
  {
    if headerExts == [] then None
    else
      var hname := HeaderName(base, headerExts[0]);
      if hname in others then None
      else if fileExists(hname) then Some(hname)
      else Probe(base, headerExts[1..], others, fileExists)
  }

  /** The probe reaches extension `k`: no earlier candidate is in `others` or
      exists. */
  ghost predicate Reaches(base: string, headerExts: seq<string>, others: set<string>, fileExists: string -> bool, k: nat)
    requires k <= |headerExts|
  {
    forall j :: 0 <= j < k ==>
      HeaderName(base, headerExts[j]) !in others && !fileExists(HeaderName(base, headerExts[j]))
  }

  /** Extension `k` is the first hit: the probe reaches it, and its candidate
      exists without already being in `others`. */
  ghost predicate FirstHit(base: string, headerExts: seq<string>, others: set<string>, fileExists: string -> bool, k: nat) {
    && k < |headerExts|
    && Reaches(base, headerExts, others, fileExists, k)
    && HeaderName(base, headerExts[k]) !in others
    && fileExists(HeaderName(base, headerExts[k]))
  }

  /** The probe inserts exactly the candidate of the first hit, and nothing
      when there is none (no candidate exists, or one already in `others` is
      met first). */
  lemma {:induction false} ProbeFirstHit(base: string, headerExts: seq<string>, others: set<string>, fileExists: string -> bool)
    ensures Probe(base, headerExts, others, fileExists).Some? ==>
              exists k: nat :: FirstHit(base, headerExts, others, fileExists, k)
                          && Probe(base, headerExts, others, fileExists).value == HeaderName(base, headerExts[k])
    ensures (exists k: nat :: FirstHit(base, headerExts, others, fileExists, k)) ==>
              Probe(base, headerExts, others, fileExists).Some?
    decreases |headerExts|
  {
    if headerExts != [] {
      var tail := headerExts[1..];
      ProbeFirstHit(base, tail, others, fileExists);
      var hname := HeaderName(base, headerExts[0]);
      if hname !in others && !fileExists(hname) {
        forall k: nat | FirstHit(base, tail, others, fileExists, k)
          ensures FirstHit(base, headerExts, others, fileExists, k + 1)
        {
          assert tail[k] == headerExts[k + 1];
          forall j | 0 <= j < k + 1
            ensures HeaderName(base, headerExts[j]) !in others && !fileExists(HeaderName(base, headerExts[j]))
          {
            if j > 0 {
              assert headerExts[j] == tail[j - 1];
            }
          }
        }
        forall k: nat | FirstHit(base, headerExts, others, fileExists, k)
          ensures k > 0 && FirstHit(base, tail, others, fileExists, k - 1)
        {
          assert tail[k - 1] == headerExts[k];
          forall j | 0 <= j < k - 1
            ensures HeaderName(base, tail[j]) !in others && !fileExists(HeaderName(base, tail[j]))
          {
            assert !(HeaderName(base, headerExts[j + 1]) in others);
          }
        }
      } else if hname in others {
        forall k: nat | k < |headerExts|
          ensures !FirstHit(base, headerExts, others, fileExists, k)
        {
          if k > 0 {
            assert !Reaches(base, headerExts, others, fileExists, k);
          }
        }
      } else {
        assert FirstHit(base, headerExts, others, fileExists, 0);
      }
    }
  }

  /** The header a probe inserts, as a set. */
  function Inserted(h: Option<string>): (s: set<string>)
    ensures |s| <= 1
    ensures h.None? ==> s == {}
    ensures h.Some? ==> s == {h.value}
  {
    match h
    case Some(v) => {v}
    case None => {}
  }

  /** `GetFilenamePath(p) + "/" + GetFilenameWithoutExtension(p)`. */
  function HeaderBasename(p: string, filenamePath: string -> string, withoutExtension: string -> string): string {
    filenamePath(p) + "/" + withoutExtension(p)
  }

  /** The headers `paths` add to `others` when probed in order; each probe sees
      the headers the earlier ones inserted. */
  function DiscoverHeaders(paths: seq<string>, headerExts: seq<string>, others: set<string>,
                           filenamePath: string -> string, withoutExtension: string -> string,
                           fileExists: string -> bool): (r: set<string>)
    ensures others <= r
    decreases |paths|
  {
    if paths == [] then others
    else
      var inserted := Inserted(Probe(HeaderBasename(paths[0], filenamePath, withoutExtension), headerExts, others, fileExists));
      var r := DiscoverHeaders(paths[1..], headerExts, others + inserted, filenamePath, withoutExtension, fileExists);
      r
  }

  /** Discovery adds at most one header per path probed. */
  lemma {:induction false} DiscoverHeadersBound(paths: seq<string>, headerExts: seq<string>, others: set<string>,
                                                filenamePath: string -> string, withoutExtension: string -> string,
                                                fileExists: string -> bool)
    ensures |DiscoverHeaders(paths, headerExts, others, filenamePath, withoutExtension, fileExists) - others| <= |paths|
    decreases |paths|
  {
    if paths != [] {
      var inserted := Inserted(Probe(HeaderBasename(paths[0], filenamePath, withoutExtension), headerExts, others, fileExists));
      var r := DiscoverHeaders(paths[1..], headerExts, others + inserted, filenamePath, withoutExtension, fileExists);
      DiscoverHeadersBound(paths[1..], headerExts, others + inserted, filenamePath, withoutExtension, fileExists);
      var later := r - (others + inserted);
      assert r - others == later + (inserted - others);
      assert |inserted - others| <= 1;
    }
  }

  /** Every header discovery adds is an existing file named after one of the
      paths and one of the header extensions. */
  lemma {:induction false} DiscoveredHeadersExist(paths: seq<string>, headerExts: seq<string>, others: set<string>,
                                                  filenamePath: string -> string, withoutExtension: string -> string,
                                                  fileExists: string -> bool)
    ensures forall h :: h in DiscoverHeaders(paths, headerExts, others, filenamePath, withoutExtension, fileExists)
                        && h !in others ==>
              fileExists(h) && exists i, k :: 0 <= i < |paths| && 0 <= k < |headerExts|
                                              && h == HeaderName(HeaderBasename(paths[i], filenamePath, withoutExtension), headerExts[k])
    decreases |paths|
  {
    if paths != [] {
      var probe := Probe(HeaderBasename(paths[0], filenamePath, withoutExtension), headerExts, others, fileExists);
      var inserted := Inserted(probe);
      DiscoveredHeadersExist(paths[1..], headerExts, others + inserted, filenamePath, withoutExtension, fileExists);
      var r := DiscoverHeaders(paths, headerExts, others, filenamePath, withoutExtension, fileExists);
      assert r == DiscoverHeaders(paths[1..], headerExts, others + inserted, filenamePath, withoutExtension, fileExists);
      forall h | h in r && h !in others
        ensures fileExists(h) && exists i, k :: 0 <= i < |paths| && 0 <= k < |headerExts|
                                                && h == HeaderName(HeaderBasename(paths[i], filenamePath, withoutExtension), headerExts[k])
      {
        if h in inserted {
          ProbeFirstHit(HeaderBasename(paths[0], filenamePath, withoutExtension), headerExts, others, fileExists);
          var k: nat :| FirstHit(HeaderBasename(paths[0], filenamePath, withoutExtension), headerExts, others, fileExists, k)
                   && probe.value == HeaderName(HeaderBasename(paths[0], filenamePath, withoutExtension), headerExts[k]);
          assert h == probe.value;
        } else {
          var i, k :| 0 <= i < |paths[1..]| && 0 <= k < |headerExts|
                      && h == HeaderName(HeaderBasename(paths[1..][i], filenamePath, withoutExtension), headerExts[k]);
          assert paths[1..][i] == paths[i + 1];
        }
      }
    }
  }

  /** The inner loop of the header discovery for one implementation file. */
  method ProbeHeader(headerBasename: string, headerExts: seq<string>, otherFiles0: set<string>,
                     fileExists: string -> bool) returns (otherFiles: set<string>)
    ensures otherFiles == otherFiles0 + Inserted(Probe(headerBasename, headerExts, otherFiles0, fileExists))
  {
    otherFiles := otherFiles0;
    var k := 0;
    while k < |headerExts|
      invariant 0 <= k <= |headerExts|
      invariant otherFiles == otherFiles0
      invariant Probe(headerBasename, headerExts, otherFiles0, fileExists)
             == Probe(headerBasename, headerExts[k..], otherFiles0, fileExists)
    {
      var hname := headerBasename;
      hname := hname + ".";
      hname := hname + headerExts[k];
      assert hname == HeaderName(headerBasename, headerExts[k..][0]);
      if hname in otherFiles {
        break;
      }
      if fileExists(hname) {
        otherFiles := otherFiles + {hname};
        break;
      }
      assert headerExts[k..][1..] == headerExts[k + 1..];
      k := k + 1;
    }
  }

  /** Probing the least remaining path first, then the rest in order. */
  lemma DiscoverHeadersStep(m: string, remaining: set<string>, headerExts: seq<string>, others: set<string>,
                            filenamePath: string -> string, withoutExtension: string -> string,
                            fileExists: string -> bool)
    requires IsLeast(m, remaining)
    ensures DiscoverHeaders(Ordered(remaining), headerExts, others, filenamePath, withoutExtension, fileExists)
         == DiscoverHeaders(Ordered(remaining - {m}), headerExts,
                            others + Inserted(Probe(HeaderBasename(m, filenamePath, withoutExtension), headerExts, others, fileExists)),
                            filenamePath, withoutExtension, fileExists)
  {
    OrderedFirst(remaining, m);
    var paths := Ordered(remaining);
    assert paths[0] == m && paths[1..] == Ordered(remaining - {m});
  }

  /** The header loop: the keys of `cFiles` in ascending order (std::map
      order), each probed against the `otherFiles` of the moment. */
  method AddHeaders(cFileKeys: set<string>, otherFiles0: set<string>, headerExts: seq<string>,
                    filenamePath: string -> string, withoutExtension: string -> string,
                    fileExists: string -> bool) returns (otherFiles: set<string>)
    ensures otherFiles == DiscoverHeaders(Ordered(cFileKeys), headerExts, otherFiles0,
                                          filenamePath, withoutExtension, fileExists)
  {
    otherFiles := otherFiles0;
    var remaining := cFileKeys;
    while remaining != {}
      invariant DiscoverHeaders(Ordered(cFileKeys), headerExts, otherFiles0, filenamePath, withoutExtension, fileExists)
             == DiscoverHeaders(Ordered(remaining), headerExts, otherFiles, filenamePath, withoutExtension, fileExists)
      decreases |remaining|
    {
      var sit := Least(remaining);
      DiscoverHeadersStep(sit, remaining, headerExts, otherFiles, filenamePath, withoutExtension, fileExists);
      var headerBasename := filenamePath(sit);
      headerBasename := headerBasename + "/";
      headerBasename := headerBasename + withoutExtension(sit);
      otherFiles := ProbeHeader(headerBasename, headerExts, otherFiles, fileExists);
      remaining := remaining - {sit};
    }
    assert Ordered(remaining) == [];
  }

  /** At most one header is added per implementation file, and no existing
      entry of `otherFiles` is lost. */
  lemma AtMostOneHeaderEach(cFileKeys: set<string>, otherFiles0: set<string>, headerExts: seq<string>,
                            filenamePath: string -> string, withoutExtension: string -> string,
                            fileExists: string -> bool)
    ensures var r := DiscoverHeaders(Ordered(cFileKeys), headerExts, otherFiles0, filenamePath, withoutExtension, fileExists);
            otherFiles0 <= r && |r - otherFiles0| <= |cFileKeys|
  {
    DiscoverHeadersBound(Ordered(cFileKeys), headerExts, otherFiles0, filenamePath, withoutExtension, fileExists);
  }
}
