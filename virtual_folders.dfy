/** The "CMake Files" virtual-folder tree of a `.cbp` project (CBTree in the
    global generator, Tree in the extra generator; the two are identical).
    Every CMake list file of the build is placed in the tree by the labels of
    its directory, relative to the home directory; the tree then renders the
    `virtualFolders` option and one `<Unit>` per list file.

    `Folder` is the value a tree denotes; the specification functions and the
    lemmas about insertion and rendering are stated on it. `CBTree` is the
    mutable tree the generators update in place, proved against `Folder`. */
module VirtualFolders {
  import opened Wrappers
  import opened Strings
  import opened BuildGraph

  /** A node: one path component, the child folders in insertion order, and
      the file names placed directly in it. */
  datatype Folder = Folder(path: string, folders: seq<Folder>, files: seq<string>)

  /** The labels of a sequence of folders, in order. */
  function Labels(ns: seq<Folder>): seq<string> {
    seq(|ns|, i requires 0 <= i < |ns| => ns[i].path)
  }

  /** The first child labelled `component`: the folder loop of InsertPath stops
      at the first match. */
  function ChildIndex(ns: seq<Folder>, component: string): (r: Option<nat>)
    ensures r.None? <==> forall j :: 0 <= j < |ns| ==> ns[j].path != component
    ensures r.Some? ==> r.value < |ns| && ns[r.value].path == component
                        && forall j :: 0 <= j < r.value ==> ns[j].path != component
  {
    if ns == [] then None
    else if ns[0].path == component then Some(0)
    else match ChildIndex(ns[1..], component)
      case None => None
      case Some(i) => Some(i + 1)
  }

  /** InsertPath: follow `splitted[start..]` from `node`, descending into the
      first child with the next component, or appending a new child when there is
      none, and append `fileName` to the files of the node reached. */
  function Insert(node: Folder, splitted: seq<string>, start: nat, fileName: string): Folder
    requires start <= |splitted|
    decreases |splitted| - start
  {
    if start == |splitted| then node.(files := node.files + [fileName])
    else match ChildIndex(node.folders, splitted[start])
      case Some(i) =>
        node.(folders := node.folders[i := Insert(node.folders[i], splitted, start + 1, fileName)])
      case None =>
        node.(folders := node.folders + [Insert(Folder(splitted[start], [], []), splitted, start + 1, fileName)])
  }

  /* ---------------------------------------------------------------- counts */

  function FileCount(n: Folder): nat {
    |n.files| + ForestFileCount(n.folders)
  }

  function ForestFileCount(ns: seq<Folder>): nat
    decreases ns
  {
    if ns == [] then 0 else ForestFileCount(ns[..|ns| - 1]) + FileCount(ns[|ns| - 1])
  }

  lemma {:induction false} ForestFileCountAppend(ns: seq<Folder>, x: Folder)
    ensures ForestFileCount(ns + [x]) == ForestFileCount(ns) + FileCount(x)
  {
    assert (ns + [x])[..|ns|] == ns;
  }

  lemma {:induction false} ForestFileCountUpdate(ns: seq<Folder>, i: nat, x: Folder)
    requires i < |ns|
    ensures ForestFileCount(ns[i := x]) == ForestFileCount(ns) - FileCount(ns[i]) + FileCount(x)
    decreases |ns|
  {
    var last := |ns| - 1;
    if i < last {
      assert ns[i := x][..last] == ns[..last][i := x];
      ForestFileCountUpdate(ns[..last], i, x);
    } else {
      assert ns[i := x][..last] == ns[..last];
    }
  }

  /** Every insertion adds exactly one file to the tree. */
  lemma {:induction false} InsertAddsOneFile(node: Folder, splitted: seq<string>, start: nat, fileName: string)
    requires start <= |splitted|
    ensures FileCount(Insert(node, splitted, start, fileName)) == FileCount(node) + 1
    decreases |splitted| - start
  {
    if start < |splitted| {
      match ChildIndex(node.folders, splitted[start])
      case Some(i) =>
        InsertAddsOneFile(node.folders[i], splitted, start + 1, fileName);
        ForestFileCountUpdate(node.folders, i, Insert(node.folders[i], splitted, start + 1, fileName));
      case None =>
        var newFolder := Folder(splitted[start], [], []);
        InsertAddsOneFile(newFolder, splitted, start + 1, fileName);
        assert FileCount(newFolder) == 0;
        ForestFileCountAppend(node.folders, Insert(newFolder, splitted, start + 1, fileName));
    }
  }

  /* ------------------------------------------------------- sibling labels */

  /** No two siblings anywhere in the tree carry the same component. */
  ghost predicate UniqueLabels(n: Folder) {
    (forall i, j :: 0 <= i < j < |n.folders| ==> n.folders[i].path != n.folders[j].path)
    && forall i :: 0 <= i < |n.folders| ==> UniqueLabels(n.folders[i])
  }

  lemma InsertKeepsPath(node: Folder, splitted: seq<string>, start: nat, fileName: string)
    requires start <= |splitted|
    ensures Insert(node, splitted, start, fileName).path == node.path
  {
  }

  /** Insertion keeps the component, and the children of the node it starts from
      keep their labels and order; a new child, labelled `splitted[start]`,
      is appended last exactly when no child had that component. */
  lemma InsertSiblings(node: Folder, splitted: seq<string>, start: nat, fileName: string)
    requires start <= |splitted|
    ensures var r := Insert(node, splitted, start, fileName);
            r.path == node.path
            && Labels(r.folders)
               == Labels(node.folders)
                  + (if start < |splitted| && splitted[start] !in Labels(node.folders) then [splitted[start]] else [])
  {
    var r := Insert(node, splitted, start, fileName);
    if start < |splitted| {
      match ChildIndex(node.folders, splitted[start])
      case Some(i) =>
        assert splitted[start] == Labels(node.folders)[i];
        InsertKeepsPath(node.folders[i], splitted, start + 1, fileName);
        assert Labels(r.folders) == Labels(node.folders);
      case None =>
        var last := |node.folders|;
        assert splitted[start] !in Labels(node.folders);
        InsertKeepsPath(Folder(splitted[start], [], []), splitted, start + 1, fileName);
        assert Labels(r.folders) == Labels(node.folders) + [splitted[start]];
    }
  }

  /** Insertion never creates two siblings with the same component. */
  lemma {:induction false} InsertKeepsLabelsUnique(node: Folder, splitted: seq<string>, start: nat, fileName: string)
    requires start <= |splitted|
    requires UniqueLabels(node)
    ensures UniqueLabels(Insert(node, splitted, start, fileName))
    decreases |splitted| - start
  {
    if start < |splitted| {
      var r := Insert(node, splitted, start, fileName);
      match ChildIndex(node.folders, splitted[start])
      case Some(i) =>
        var child := Insert(node.folders[i], splitted, start + 1, fileName);
        InsertKeepsLabelsUnique(node.folders[i], splitted, start + 1, fileName);
        InsertSiblings(node.folders[i], splitted, start + 1, fileName);
        assert r.folders == node.folders[i := child];
      case None =>
        var newFolder := Folder(splitted[start], [], []);
        var child := Insert(newFolder, splitted, start + 1, fileName);
        InsertKeepsLabelsUnique(newFolder, splitted, start + 1, fileName);
        InsertSiblings(newFolder, splitted, start + 1, fileName);
        assert r.folders == node.folders + [child];
    }
  }

  /* ----------------------------------------------------------- placement */

  /** The node reached by following `route` from `n`, child by first match. */
  function Lookup(n: Folder, route: seq<string>): Option<Folder>
    decreases route
  {
    if route == [] then Some(n)
    else match ChildIndex(n.folders, route[0])
      case None => None
      case Some(i) => Lookup(n.folders[i], route[1..])
  }

  /** The files of the node at `route`; none if there is no such node. */
  function FilesAt(n: Folder, route: seq<string>): seq<string> {
    match Lookup(n, route)
    case None => []
    case Some(m) => m.files
  }

  lemma ChildIndexUpdate(ns: seq<Folder>, i: nat, x: Folder, component: string)
    requires i < |ns| && x.path == ns[i].path
    ensures ChildIndex(ns[i := x], component) == ChildIndex(ns, component)
  {
    var ms := ns[i := x];
    assert forall j :: 0 <= j < |ns| ==> ms[j].path == ns[j].path;
    SameLabelsSameChild(ms, ns, component);
  }

  lemma ChildIndexAppend(ns: seq<Folder>, x: Folder, component: string)
    ensures ChildIndex(ns, component).Some? ==> ChildIndex(ns + [x], component) == ChildIndex(ns, component)
    ensures ChildIndex(ns, component).None? && x.path == component ==> ChildIndex(ns + [x], component) == Some(|ns|)
    ensures ChildIndex(ns, component).None? && x.path != component ==> ChildIndex(ns + [x], component).None?
  {
    var ms := ns + [x];
    var s := ChildIndex(ns, component);
    if s.Some? {
      SameLabelsSameChild(ms[..|ns|], ns, component);
      assert ms[..s.value + 1] == ns[..s.value + 1];
      PrefixChild(ms, s.value, component);
    } else if x.path == component {
      assert ms[|ns|].path == component;
      PrefixChild(ms, |ns|, component);
    } else {
      assert forall j :: 0 <= j < |ms| ==> ms[j].path == (if j < |ns| then ns[j].path else x.path);
    }
  }

  /** Folders with the same labels have the same first match. */
  lemma SameLabelsSameChild(ms: seq<Folder>, ns: seq<Folder>, component: string)
    requires |ms| == |ns| && forall j :: 0 <= j < |ns| ==> ms[j].path == ns[j].path
    ensures ChildIndex(ms, component) == ChildIndex(ns, component)
  {
    var r := ChildIndex(ms, component);
    var s := ChildIndex(ns, component);
    if s.Some? {
      assert ms[s.value].path == component;
      assert ns[r.value].path == component;
    }
  }

  /** A folder labelled `component` with no earlier match is the first match. */
  lemma PrefixChild(ms: seq<Folder>, k: nat, component: string)
    requires k < |ms| && ms[k].path == component
    requires forall j :: 0 <= j < k ==> ms[j].path != component
    ensures ChildIndex(ms, component) == Some(k)
  {
    var r := ChildIndex(ms, component);
    assert r.Some?;
    assert !(r.value < k);
  }

  lemma EmptyFolderFiles(component: string, route: seq<string>)
    ensures FilesAt(Folder(component, [], []), route) == []
  {
  }

  /** The file is appended to the node at `splitted[start..]` (created if
      need be), after the files it already had. */
  lemma {:induction false} InsertAppendsAtPath(node: Folder, splitted: seq<string>, start: nat, fileName: string)
    requires start <= |splitted|
    ensures FilesAt(Insert(node, splitted, start, fileName), splitted[start..])
         == FilesAt(node, splitted[start..]) + [fileName]
    decreases |splitted| - start
  {
    var route := splitted[start..];
    var r := Insert(node, splitted, start, fileName);
    if start < |splitted| {
      assert route[0] == splitted[start] && route[1..] == splitted[start + 1..];
      match ChildIndex(node.folders, splitted[start])
      case Some(i) =>
        var child := Insert(node.folders[i], splitted, start + 1, fileName);
        InsertSiblings(node.folders[i], splitted, start + 1, fileName);
        ChildIndexUpdate(node.folders, i, child, splitted[start]);
        InsertAppendsAtPath(node.folders[i], splitted, start + 1, fileName);
        assert Lookup(r, route) == Lookup(child, route[1..]);
      case None =>
        var newFolder := Folder(splitted[start], [], []);
        var child := Insert(newFolder, splitted, start + 1, fileName);
        InsertSiblings(newFolder, splitted, start + 1, fileName);
        ChildIndexAppend(node.folders, child, splitted[start]);
        InsertAppendsAtPath(newFolder, splitted, start + 1, fileName);
        EmptyFolderFiles(splitted[start], route[1..]);
        assert Lookup(r, route) == Lookup(child, route[1..]);
    }
  }

  /** The files at every other route are left as they were. */
  lemma {:induction false} InsertLeavesOtherPaths(node: Folder, splitted: seq<string>, start: nat, fileName: string,
                                                 route: seq<string>)
    requires start <= |splitted|
    requires route != splitted[start..]
    ensures FilesAt(Insert(node, splitted, start, fileName), route) == FilesAt(node, route)
    decreases |splitted| - start
  {
    var r := Insert(node, splitted, start, fileName);
    if start < |splitted| && route != [] {
      var component := splitted[start];
      match ChildIndex(node.folders, component)
      case Some(i) =>
        var child := Insert(node.folders[i], splitted, start + 1, fileName);
        InsertSiblings(node.folders[i], splitted, start + 1, fileName);
        ChildIndexUpdate(node.folders, i, child, route[0]);
        if route[0] == component {
          assert route[1..] != splitted[start + 1..] by {
            assert route == [route[0]] + route[1..];
            assert splitted[start..] == [splitted[start]] + splitted[start + 1..];
          }
          InsertLeavesOtherPaths(node.folders[i], splitted, start + 1, fileName, route[1..]);
        }
      case None =>
        var newFolder := Folder(splitted[start], [], []);
        var child := Insert(newFolder, splitted, start + 1, fileName);
        InsertSiblings(newFolder, splitted, start + 1, fileName);
        ChildIndexAppend(node.folders, child, route[0]);
        if route[0] == component {
          assert route[1..] != splitted[start + 1..] by {
            assert route == [route[0]] + route[1..];
            assert splitted[start..] == [splitted[start]] + splitted[start + 1..];
          }
          InsertLeavesOtherPaths(newFolder, splitted, start + 1, fileName, route[1..]);
          EmptyFolderFiles(splitted[start], route[1..]);
          assert Lookup(r, route) == Lookup(child, route[1..]);
        }
    }
  }

  /* ------------------------------------------------------------ rendering */

  /** One `<Unit>` of the tree: the file's name on disk and its virtual
      folder below `CMake Files\` ("" for the root). */
  datatype Unit = Unit(filename: string, virtualFolder: string)

  /** The text of one unit, in the project file's layout. */
  function UnitText(u: Unit): string {
    "      <Unit filename=\"" + u.filename + "\">\n"
    + "          <Option virtualFolder=\"CMake Files\\" + u.virtualFolder + "\" />\n"
    + "      </Unit>\n"
  }

  function UnitsText(us: seq<Unit>): string
    decreases |us|
  {
    if us == [] then "" else UnitsText(us[..|us| - 1]) + UnitText(us[|us| - 1])
  }

  lemma {:induction false} UnitsTextAppend(a: seq<Unit>, b: seq<Unit>)
    ensures UnitsText(a + b) == UnitsText(a) + UnitsText(b)
    decreases |b|
  {
    if b != [] {
      var last := |b| - 1;
      assert (a + b)[..|a + b| - 1] == a + b[..last];
      UnitsTextAppend(a, b[..last]);
    } else {
      assert a + b == a;
    }
  }

  /** The units of files placed directly in one node. */
  function FileUnits(files: seq<string>, fsPath: string, virtualFolder: string): seq<Unit> {
    seq(|files|, k requires 0 <= k < |files| => Unit(fsPath + files[k], virtualFolder))
  }

  /** BuildUnitImpl: the node's files, named `fsPath + component + "/" + file` in
      the folder `virtualFolderPath + component + "\"`, then its children. */
  function NodeUnits(n: Folder, virtualFolderPath: string, fsPath: string): seq<Unit>
    decreases n, 1
  {
    FileUnits(n.files, fsPath + n.path + "/", virtualFolderPath + n.path + "\\")
    + ForestUnits(n.folders, virtualFolderPath + n.path + "\\", fsPath + n.path + "/")
  }

  function ForestUnits(ns: seq<Folder>, virtualFolderPath: string, fsPath: string): seq<Unit>
    decreases ns, 0
  {
    if ns == [] then []
    else ForestUnits(ns[..|ns| - 1], virtualFolderPath, fsPath) + NodeUnits(ns[|ns| - 1], virtualFolderPath, fsPath)
  }

  /** BuildUnit: the root's files, named `fsPath + file` in `CMake Files\`
      itself, then the children. */
  function Units(root: Folder, fsPath: string): seq<Unit> {
    FileUnits(root.files, fsPath, "") + ForestUnits(root.folders, "", fsPath)
  }

  /** The text of one folder declaration. */
  function DeclText(d: string): string {
    "CMake Files\\" + d + ";"
  }

  function DeclsText(ds: seq<string>): string
    decreases |ds|
  {
    if ds == [] then "" else DeclsText(ds[..|ds| - 1]) + DeclText(ds[|ds| - 1])
  }

  lemma {:induction false} DeclsTextAppend(a: seq<string>, b: seq<string>)
    ensures DeclsText(a + b) == DeclsText(a) + DeclsText(b)
    decreases |b|
  {
    if b != [] {
      var last := |b| - 1;
      assert (a + b)[..|a + b| - 1] == a + b[..last];
      DeclsTextAppend(a, b[..last]);
    } else {
      assert a + b == a;
    }
  }

  /** BuildVirtualFolderImpl: the node's folder path `prefix + component + "\"`,
      then its children's, in preorder. */
  function NodeDecls(n: Folder, prefix: string): seq<string>
    decreases n, 1
  {
    [prefix + n.path + "\\"] + ForestDecls(n.folders, prefix + n.path + "\\")
  }

  function ForestDecls(ns: seq<Folder>, prefix: string): seq<string>
    decreases ns, 0
  {
    if ns == [] then []
    else ForestDecls(ns[..|ns| - 1], prefix) + NodeDecls(ns[|ns| - 1], prefix)
  }

  /** BuildVirtualFolder: the declarations of every folder below the root. */
  function VirtualFoldersText(root: Folder): string {
    "<Option virtualFolders=\"CMake Files\\;" + DeclsText(ForestDecls(root.folders, "")) + "\" />"
  }

  /* ------------------------------------------------- rendering properties */

  function FolderCount(n: Folder): nat
    decreases n, 1
  {
    1 + ForestFolderCount(n.folders)
  }

  function ForestFolderCount(ns: seq<Folder>): nat
    decreases ns, 0
  {
    if ns == [] then 0 else ForestFolderCount(ns[..|ns| - 1]) + FolderCount(ns[|ns| - 1])
  }

  lemma {:induction false} NodeUnitsCount(n: Folder, virtualFolderPath: string, fsPath: string)
    ensures |NodeUnits(n, virtualFolderPath, fsPath)| == FileCount(n)
    decreases n, 1
  {
    ForestUnitsCount(n.folders, virtualFolderPath + n.path + "\\", fsPath + n.path + "/");
  }

  lemma {:induction false} ForestUnitsCount(ns: seq<Folder>, virtualFolderPath: string, fsPath: string)
    ensures |ForestUnits(ns, virtualFolderPath, fsPath)| == ForestFileCount(ns)
    decreases ns, 0
  {
    if ns != [] {
      ForestUnitsCount(ns[..|ns| - 1], virtualFolderPath, fsPath);
      NodeUnitsCount(ns[|ns| - 1], virtualFolderPath, fsPath);
    }
  }

  /** BuildUnit writes exactly one unit per file of the tree. */
  lemma UnitsCount(root: Folder, fsPath: string)
    ensures |Units(root, fsPath)| == FileCount(root)
  {
    ForestUnitsCount(root.folders, "", fsPath);
  }

  lemma {:induction false} NodeDeclsCount(n: Folder, prefix: string)
    ensures |NodeDecls(n, prefix)| == FolderCount(n)
    decreases n, 1
  {
    ForestDeclsCount(n.folders, prefix + n.path + "\\");
  }

  lemma {:induction false} ForestDeclsCount(ns: seq<Folder>, prefix: string)
    ensures |ForestDecls(ns, prefix)| == ForestFolderCount(ns)
    decreases ns, 0
  {
    if ns != [] {
      ForestDeclsCount(ns[..|ns| - 1], prefix);
      NodeDeclsCount(ns[|ns| - 1], prefix);
    }
  }

  /** BuildVirtualFolder declares exactly one folder per node below the root. */
  lemma DeclsCount(root: Folder)
    ensures |ForestDecls(root.folders, "")| == FolderCount(root) - 1
  {
    ForestDeclsCount(root.folders, "");
  }

  lemma {:induction false} NodeUnitsDeclared(n: Folder, virtualFolderPath: string, fsPath: string)
    ensures forall u :: u in NodeUnits(n, virtualFolderPath, fsPath) ==> u.virtualFolder in NodeDecls(n, virtualFolderPath)
    decreases n, 1
  {
    var vf := virtualFolderPath + n.path + "\\";
    ForestUnitsDeclared(n.folders, vf, fsPath + n.path + "/");
    assert NodeDecls(n, virtualFolderPath)[0] == vf;
  }

  lemma {:induction false} ForestUnitsDeclared(ns: seq<Folder>, virtualFolderPath: string, fsPath: string)
    ensures forall u :: u in ForestUnits(ns, virtualFolderPath, fsPath) ==> u.virtualFolder in ForestDecls(ns, virtualFolderPath)
    decreases ns, 0
  {
    if ns != [] {
      ForestUnitsDeclared(ns[..|ns| - 1], virtualFolderPath, fsPath);
      NodeUnitsDeclared(ns[|ns| - 1], virtualFolderPath, fsPath);
    }
  }

  /** Every unit below the root names a virtual folder that the
      `virtualFolders` option declares; the root's own units use
      `CMake Files\` itself. */
  lemma UnitsDeclared(root: Folder, fsPath: string)
    ensures forall u :: u in Units(root, fsPath) ==>
              u.virtualFolder == "" || u.virtualFolder in ForestDecls(root.folders, "")
  {
    ForestUnitsDeclared(root.folders, "", fsPath);
  }

  /** `f` is a file of the node reached through children labelled `route`. */
  ghost predicate HasFileAt(n: Folder, route: seq<string>, f: string)
    decreases route
  {
    if route == [] then f in n.files
    else exists i :: 0 <= i < |n.folders| && n.folders[i].path == route[0] && HasFileAt(n.folders[i], route[1..], f)
  }

  /** The unit of file `f` at `route` below a node labelled `component`. */
  ghost predicate UnitOf(u: Unit, virtualFolderPath: string, fsPath: string, component: string, route: seq<string>, f: string) {
    u.filename == fsPath + JoinSuffix([component] + route, "/") + f
    && u.virtualFolder == virtualFolderPath + JoinSuffix([component] + route, "\\")
  }

  /** `u` is the unit of some file in or below `n`. */
  ghost predicate NodeUnitOf(u: Unit, n: Folder, virtualFolderPath: string, fsPath: string) {
    exists route, f :: HasFileAt(n, route, f) && UnitOf(u, virtualFolderPath, fsPath, n.path, route, f)
  }

  /** `u` is the unit of some file of the root reached through `route`. */
  ghost predicate RootUnitOf(u: Unit, root: Folder, fsPath: string) {
    exists route, f :: HasFileAt(root, route, f)
                       && u == Unit(fsPath + JoinSuffix(route, "/") + f, JoinSuffix(route, "\\"))
  }

  lemma JoinSuffixCons(x: string, route: seq<string>, sep: string)
    ensures JoinSuffix([x] + route, sep) == x + sep + JoinSuffix(route, sep)
  {
    assert ([x] + route)[1..] == route;
  }

  lemma FileUnitLayout(n: Folder, virtualFolderPath: string, fsPath: string, k: nat)
    requires k < |n.files|
    ensures NodeUnitOf(Unit(fsPath + n.path + "/" + n.files[k], virtualFolderPath + n.path + "\\"), n, virtualFolderPath, fsPath)
  {
    JoinSuffixCons(n.path, [], "/");
    JoinSuffixCons(n.path, [], "\\");
    assert HasFileAt(n, [], n.files[k]);
    assert UnitOf(Unit(fsPath + n.path + "/" + n.files[k], virtualFolderPath + n.path + "\\"),
                  virtualFolderPath, fsPath, n.path, [], n.files[k]);
  }

  lemma ChildUnitLayout(u: Unit, n: Folder, virtualFolderPath: string, fsPath: string, i: nat)
    requires i < |n.folders|
    requires NodeUnitOf(u, n.folders[i], virtualFolderPath + n.path + "\\", fsPath + n.path + "/")
    ensures NodeUnitOf(u, n, virtualFolderPath, fsPath)
  {
    var vf := virtualFolderPath + n.path + "\\";
    var fs := fsPath + n.path + "/";
    var route, f :| HasFileAt(n.folders[i], route, f) && UnitOf(u, vf, fs, n.folders[i].path, route, f);
    var longer := [n.folders[i].path] + route;
    assert longer[0] == n.folders[i].path && longer[1..] == route;
    assert HasFileAt(n, longer, f);
    JoinSuffixCons(n.path, longer, "/");
    JoinSuffixCons(n.path, longer, "\\");
    assert fsPath + (n.path + "/" + JoinSuffix(longer, "/")) + f == fs + JoinSuffix(longer, "/") + f;
    assert virtualFolderPath + (n.path + "\\" + JoinSuffix(longer, "\\")) == vf + JoinSuffix(longer, "\\");
    assert UnitOf(u, virtualFolderPath, fsPath, n.path, longer, f);
  }

  /** The units of child `i` are among the units of its forest. */
  lemma {:induction false} ForestUnitsHasChild(ns: seq<Folder>, i: nat, virtualFolderPath: string, fsPath: string, u: Unit)
    requires i < |ns| && u in NodeUnits(ns[i], virtualFolderPath, fsPath)
    ensures u in ForestUnits(ns, virtualFolderPath, fsPath)
    decreases |ns|
  {
    var last := |ns| - 1;
    if i < last {
      assert ns[..last][i] == ns[i];
      ForestUnitsHasChild(ns[..last], i, virtualFolderPath, fsPath, u);
    }
  }

  /** A file `f` at `route` below node `n` gets its unit from BuildUnitImpl. */
  lemma {:induction false} NodeFileUnit(n: Folder, virtualFolderPath: string, fsPath: string, route: seq<string>, f: string)
    requires HasFileAt(n, route, f)
    ensures Unit(fsPath + JoinSuffix([n.path] + route, "/") + f, virtualFolderPath + JoinSuffix([n.path] + route, "\\"))
            in NodeUnits(n, virtualFolderPath, fsPath)
    decreases route
  {
    var vf := virtualFolderPath + n.path + "\\";
    var fs := fsPath + n.path + "/";
    JoinSuffixCons(n.path, route, "/");
    JoinSuffixCons(n.path, route, "\\");
    assert fsPath + JoinSuffix([n.path] + route, "/") + f == fs + JoinSuffix(route, "/") + f;
    assert virtualFolderPath + JoinSuffix([n.path] + route, "\\") == vf + JoinSuffix(route, "\\");
    if route == [] {
      var k :| 0 <= k < |n.files| && n.files[k] == f;
      assert FileUnits(n.files, fs, vf)[k] == Unit(fs + "" + f, vf + "");
    } else {
      var i :| 0 <= i < |n.folders| && n.folders[i].path == route[0] && HasFileAt(n.folders[i], route[1..], f);
      NodeFileUnit(n.folders[i], vf, fs, route[1..], f);
      assert [n.folders[i].path] + route[1..] == route;
      ForestUnitsHasChild(n.folders, i, vf, fs,
                          Unit(fs + JoinSuffix(route, "/") + f, vf + JoinSuffix(route, "\\")));
    }
  }

  lemma {:induction false} NodeUnitsLayout(n: Folder, virtualFolderPath: string, fsPath: string)
    ensures forall u :: u in NodeUnits(n, virtualFolderPath, fsPath) ==> NodeUnitOf(u, n, virtualFolderPath, fsPath)
    ensures forall route, f :: HasFileAt(n, route, f) ==>
              Unit(fsPath + JoinSuffix([n.path] + route, "/") + f, virtualFolderPath + JoinSuffix([n.path] + route, "\\"))
              in NodeUnits(n, virtualFolderPath, fsPath)
    decreases n, 1
  {
    forall route, f | HasFileAt(n, route, f)
      ensures Unit(fsPath + JoinSuffix([n.path] + route, "/") + f, virtualFolderPath + JoinSuffix([n.path] + route, "\\"))
              in NodeUnits(n, virtualFolderPath, fsPath)
    {
      NodeFileUnit(n, virtualFolderPath, fsPath, route, f);
    }
    var vf := virtualFolderPath + n.path + "\\";
    var fs := fsPath + n.path + "/";
    ForestUnitsLayout(n.folders, vf, fs);
    forall u | u in NodeUnits(n, virtualFolderPath, fsPath)
      ensures NodeUnitOf(u, n, virtualFolderPath, fsPath)
    {
      if u in FileUnits(n.files, fs, vf) {
        var k :| 0 <= k < |n.files| && u == FileUnits(n.files, fs, vf)[k];
        FileUnitLayout(n, virtualFolderPath, fsPath, k);
      } else {
        assert u in ForestUnits(n.folders, vf, fs);
        var i :| 0 <= i < |n.folders| && NodeUnitOf(u, n.folders[i], vf, fs);
        ChildUnitLayout(u, n, virtualFolderPath, fsPath, i);
      }
    }
  }

  lemma {:induction false} ForestUnitsLayout(ns: seq<Folder>, virtualFolderPath: string, fsPath: string)
    ensures forall u :: u in ForestUnits(ns, virtualFolderPath, fsPath) ==>
              exists i :: 0 <= i < |ns| && NodeUnitOf(u, ns[i], virtualFolderPath, fsPath)
    decreases ns, 0
  {
    if ns != [] {
      var last := |ns| - 1;
      ForestUnitsLayout(ns[..last], virtualFolderPath, fsPath);
      NodeUnitsLayout(ns[last], virtualFolderPath, fsPath);
      forall u | u in ForestUnits(ns, virtualFolderPath, fsPath)
        ensures exists i :: 0 <= i < |ns| && NodeUnitOf(u, ns[i], virtualFolderPath, fsPath)
      {
        if u in ForestUnits(ns[..last], virtualFolderPath, fsPath) {
          var i :| 0 <= i < last && NodeUnitOf(u, ns[..last][i], virtualFolderPath, fsPath);
          assert ns[..last][i] == ns[i];
        } else {
          assert u in NodeUnits(ns[last], virtualFolderPath, fsPath);
          assert NodeUnitOf(u, ns[last], virtualFolderPath, fsPath);
        }
      }
    }
  }

  /** A file `f` of the tree at `route` gets its unit from BuildUnit. */
  lemma RootFileUnit(root: Folder, fsPath: string, route: seq<string>, f: string)
    requires HasFileAt(root, route, f)
    ensures Unit(fsPath + JoinSuffix(route, "/") + f, JoinSuffix(route, "\\")) in Units(root, fsPath)
  {
    if route == [] {
      var k :| 0 <= k < |root.files| && root.files[k] == f;
      assert FileUnits(root.files, fsPath, "")[k] == Unit(fsPath + "" + f, "");
    } else {
      var i :| 0 <= i < |root.folders| && root.folders[i].path == route[0] && HasFileAt(root.folders[i], route[1..], f);
      NodeFileUnit(root.folders[i], "", fsPath, route[1..], f);
      assert [root.folders[i].path] + route[1..] == route;
      assert "" + JoinSuffix(route, "\\") == JoinSuffix(route, "\\");
      ForestUnitsHasChild(root.folders, i, "", fsPath, Unit(fsPath + JoinSuffix(route, "/") + f, JoinSuffix(route, "\\")));
    }
  }

  /** The two unit layouts of BuildUnit: every unit names a file of the
      tree at some route of labels; its filename is `fsPath`, the labels
      each followed by `/`, then the file, and its virtual folder is the
      labels each followed by `\` (nothing for a file of the root). */
  lemma UnitsLayout(root: Folder, fsPath: string)
    ensures forall u :: u in Units(root, fsPath) ==> RootUnitOf(u, root, fsPath)
    ensures forall route, f :: HasFileAt(root, route, f) ==>
              Unit(fsPath + JoinSuffix(route, "/") + f, JoinSuffix(route, "\\")) in Units(root, fsPath)
  {
    forall route, f | HasFileAt(root, route, f)
      ensures Unit(fsPath + JoinSuffix(route, "/") + f, JoinSuffix(route, "\\")) in Units(root, fsPath)
    {
      RootFileUnit(root, fsPath, route, f);
    }
    ForestUnitsLayout(root.folders, "", fsPath);
    forall u | u in Units(root, fsPath)
      ensures RootUnitOf(u, root, fsPath)
    {
      if u in FileUnits(root.files, fsPath, "") {
        var k :| 0 <= k < |root.files| && u == FileUnits(root.files, fsPath, "")[k];
        assert HasFileAt(root, [], root.files[k]);
        assert fsPath + JoinSuffix([], "/") + root.files[k] == fsPath + root.files[k];
        assert u == Unit(fsPath + JoinSuffix([], "/") + root.files[k], JoinSuffix([], "\\"));
      } else {
        assert u in ForestUnits(root.folders, "", fsPath);
        var i :| 0 <= i < |root.folders| && NodeUnitOf(u, root.folders[i], "", fsPath);
        var route, f :| HasFileAt(root.folders[i], route, f) && UnitOf(u, "", fsPath, root.folders[i].path, route, f);
        var longer := [root.folders[i].path] + route;
        assert longer[0] == root.folders[i].path && longer[1..] == route;
        assert HasFileAt(root, longer, f);
        assert "" + JoinSuffix(longer, "\\") == JoinSuffix(longer, "\\");
        assert u == Unit(fsPath + JoinSuffix(longer, "/") + f, JoinSuffix(longer, "\\"));
      }
    }
  }

  lemma UnitsTextSnoc(us: seq<Unit>, u: Unit)
    ensures UnitsText(us + [u]) == UnitsText(us) + UnitText(u)
  {
    assert (us + [u])[..|us|] == us;
  }

  lemma DeclsTextCons(d: string, ds: seq<string>)
    ensures DeclsText([d] + ds) == DeclText(d) + DeclsText(ds)
  {
    DeclsTextAppend([d], ds);
    assert [d][..0] == [];
  }

  lemma FileUnitsSnoc(files: seq<string>, k: nat, fsPath: string, virtualFolder: string)
    requires k < |files|
    ensures FileUnits(files[..k + 1], fsPath, virtualFolder)
         == FileUnits(files[..k], fsPath, virtualFolder) + [Unit(fsPath + files[k], virtualFolder)]
  {
  }

  lemma ForestStep(ns: seq<Folder>, k: nat)
    requires k < |ns|
    ensures ns[..k + 1][..k] == ns[..k] && ns[..k + 1][k] == ns[k]
  {
  }

  /* ------------------------------------------------------ the mutable tree */

  /** CBTree: the tree the generators build in place. `Model` is the value it
      denotes and `Repr` the nodes it owns; sibling subtrees share no node. */
  class CBTree {
    var path: string
    var folders: seq<CBTree>
    var files: seq<string>
    ghost var Model: Folder
    ghost var Repr: set<object>

    ghost predicate Valid()
      reads this, Repr
      decreases Repr
    {
      this in Repr
      && Model.path == path && Model.files == files && |Model.folders| == |folders|
      && (forall i :: 0 <= i < |folders| ==>
            folders[i] in Repr && folders[i].Repr <= Repr && this !in folders[i].Repr
            && folders[i].Valid() && folders[i].Model == Model.folders[i])
      && (forall i, j :: 0 <= i < j < |folders| ==> folders[i].Repr !! folders[j].Repr)
    }

    /** A node with the given path component and nothing below it. */
    constructor (component: string)
      ensures Valid() && fresh(Repr)
      ensures Model == Folder(component, [], [])
    {
      path := component;
      folders := [];
      files := [];
      Model := Folder(component, [], []);
      Repr := {this};
    }

    /** `files.push_back(fileName)`. */
    method PushFile(fileName: string)
      requires Valid()
      modifies this
      ensures Valid() && Repr == old(Repr)
      ensures Model == old(Model).(files := old(Model).files + [fileName])
    {
      files := files + [fileName];
      Model := Model.(files := files);
    }

    /** InsertPath: place `fileName` at `splitted[start..]` below this node.
        The folder loop looks for the first child labelled `splitted[start]`
        and descends into it; without one, a new child is appended. */
    method InsertPath(splitted: seq<string>, start: nat, fileName: string)
      requires Valid() && start <= |splitted|
      modifies Repr
      ensures Valid() && fresh(Repr - old(Repr))
      ensures Model == Insert(old(Model), splitted, start, fileName)
      decreases |splitted| - start, 2
    {
      if start == |splitted| {
        PushFile(fileName);
        return;
      }
      var k := 0;
      while k < |folders| && folders[k].path != splitted[start]
        invariant 0 <= k <= |folders|
        invariant forall j :: 0 <= j < k ==> Model.folders[j].path != splitted[start]
      {
        k := k + 1;
      }
      if k < |folders| {
        PrefixChild(Model.folders, k, splitted[start]);
        ChildInsert(k, splitted, start, fileName);
        return;
      }
      // no child has this label: append a new one
      var newFolder := new CBTree(splitted[start]);
      newFolder.Descend(splitted, start, fileName);
      AppendFolder(newFolder);
    }

    /** The step below a folder labelled `splitted[start]`: the rest of the
        path is inserted into it, or, at the last part of `splitted`, the file
        is pushed onto its own files. */
    method Descend(splitted: seq<string>, start: nat, fileName: string)
      requires Valid() && start < |splitted|
      modifies Repr
      ensures Valid() && fresh(Repr - old(Repr))
      ensures Model == Insert(old(Model), splitted, start + 1, fileName)
      decreases |splitted| - start, 0
    {
      if start + 1 < |splitted| {
        InsertPath(splitted, start + 1, fileName);
      } else {
        // the path ends here: the file belongs to this node
        PushFile(fileName);
      }
    }

    /** The descent into child `k`, whose nodes no other child shares. */
    method ChildInsert(k: nat, splitted: seq<string>, start: nat, fileName: string)
      requires Valid() && k < |folders| && start < |splitted|
      modifies Repr
      ensures Valid() && fresh(Repr - old(Repr))
      ensures Model == old(Model).(folders := old(Model).folders[k := Insert(old(Model).folders[k], splitted, start + 1, fileName)])
      decreases |splitted| - start, 1
    {
      var it := folders[k];
      it.Descend(splitted, start, fileName);
      Repr := Repr + it.Repr;
      Model := Model.(folders := Model.folders[k := it.Model]);
    }

    /** `folders.push_back(newFolder)`, for a tree sharing no node with this. */
    method AppendFolder(newFolder: CBTree)
      requires Valid() && newFolder.Valid() && Repr !! newFolder.Repr
      modifies this
      ensures Valid() && Repr == old(Repr) + newFolder.Repr
      ensures Model == old(Model).(folders := old(Model).folders + [newFolder.Model])
    {
      folders := folders + [newFolder];
      Repr := Repr + newFolder.Repr;
      Model := Model.(folders := Model.folders + [newFolder.Model]);
    }

    /** BuildVirtualFolder: the `virtualFolders` option of the tree. */
    method BuildVirtualFolder(virtualFolders0: string) returns (virtualFolders: string)
      requires Valid()
      ensures virtualFolders == virtualFolders0 + VirtualFoldersText(Model)
    {
      var opening := "<Option virtualFolders=\"CMake Files\\;";
      virtualFolders := virtualFolders0 + opening;
      virtualFolders := ChildDecls(virtualFolders, "");
      virtualFolders := virtualFolders + "\" />";
      ghost var decls := DeclsText(ForestDecls(Model.folders, ""));
      AppendAssociative(virtualFolders0, opening, decls);
      AppendAssociative(virtualFolders0, opening + decls, "\" />");
    }

    /** BuildVirtualFolderImpl: this node's declaration under `prefix`, then
        its children's under `prefix + path + "\"`. */
    method BuildVirtualFolderImpl(virtualFolders0: string, prefix: string) returns (virtualFolders: string)
      requires Valid()
      ensures virtualFolders == virtualFolders0 + DeclsText(NodeDecls(Model, prefix))
      decreases Repr, 1
    {
      var inner := prefix + path + "\\";
      virtualFolders := virtualFolders0 + DeclText(inner);
      virtualFolders := ChildDecls(virtualFolders, inner);
      DeclsTextCons(inner, ForestDecls(Model.folders, inner));
      AppendAssociative(virtualFolders0, DeclText(inner), DeclsText(ForestDecls(Model.folders, inner)));
    }

    /** The folder loop of BuildVirtualFolder and BuildVirtualFolderImpl:
        every child declares itself and its descendants under `prefix`. */
    method ChildDecls(virtualFolders0: string, prefix: string) returns (virtualFolders: string)
      requires Valid()
      ensures virtualFolders == virtualFolders0 + DeclsText(ForestDecls(Model.folders, prefix))
      decreases Repr, 0
    {
      virtualFolders := virtualFolders0;
      var k := 0;
      while k < |folders|
        invariant 0 <= k <= |folders|
        invariant virtualFolders == virtualFolders0 + DeclsText(ForestDecls(Model.folders[..k], prefix))
      {
        ghost var before := ForestDecls(Model.folders[..k], prefix);
        virtualFolders := folders[k].BuildVirtualFolderImpl(virtualFolders, prefix);
        ForestStep(Model.folders, k);
        DeclsTextAppend(before, NodeDecls(Model.folders[k], prefix));
        AppendAssociative(virtualFolders0, DeclsText(before), DeclsText(NodeDecls(Model.folders[k], prefix)));
        k := k + 1;
      }
      assert Model.folders[..k] == Model.folders;
    }

    /** BuildUnit: one unit per file of the root, named `fsPath + file` in
        `CMake Files\` itself, then the units of the children. */
    method BuildUnit(unitString0: string, fsPath: string) returns (unitString: string)
      requires Valid()
      ensures unitString == unitString0 + UnitsText(Units(Model, fsPath))
    {
      unitString := AppendFileUnits(unitString0, files, fsPath, "");
      var head := unitString;
      unitString := ChildUnits(unitString, "", fsPath);
      UnitsTextAppend(FileUnits(Model.files, fsPath, ""), ForestUnits(Model.folders, "", fsPath));
      AppendAssociative(unitString0, UnitsText(FileUnits(Model.files, fsPath, "")),
                        UnitsText(ForestUnits(Model.folders, "", fsPath)));
    }

    /** BuildUnitImpl: one unit per file of this node, named
        `fsPath + path + "/" + file` in `virtualFolderPath + path + "\"`, then
        the units of the children one level deeper. */
    method BuildUnitImpl(unitString0: string, virtualFolderPath: string, fsPath: string) returns (unitString: string)
      requires Valid()
      ensures unitString == unitString0 + UnitsText(NodeUnits(Model, virtualFolderPath, fsPath))
      decreases Repr, 1
    {
      var vf := virtualFolderPath + path + "\\";
      var fs := fsPath + path + "/";
      unitString := AppendFileUnits(unitString0, files, fs, vf);
      unitString := ChildUnits(unitString, vf, fs);
      UnitsTextAppend(FileUnits(Model.files, fs, vf), ForestUnits(Model.folders, vf, fs));
      AppendAssociative(unitString0, UnitsText(FileUnits(Model.files, fs, vf)), UnitsText(ForestUnits(Model.folders, vf, fs)));
    }

    /** The folder loop of BuildUnit and BuildUnitImpl: every child renders
        its units with the given folder and file-system prefixes. */
    method ChildUnits(unitString0: string, virtualFolderPath: string, fsPath: string) returns (unitString: string)
      requires Valid()
      ensures unitString == unitString0 + UnitsText(ForestUnits(Model.folders, virtualFolderPath, fsPath))
      decreases Repr, 0
    {
      unitString := unitString0;
      var k := 0;
      while k < |folders|
        invariant 0 <= k <= |folders|
        invariant unitString == unitString0 + UnitsText(ForestUnits(Model.folders[..k], virtualFolderPath, fsPath))
      {
        ghost var before := ForestUnits(Model.folders[..k], virtualFolderPath, fsPath);
        unitString := folders[k].BuildUnitImpl(unitString, virtualFolderPath, fsPath);
        ForestStep(Model.folders, k);
        UnitsTextAppend(before, NodeUnits(Model.folders[k], virtualFolderPath, fsPath));
        AppendAssociative(unitString0, UnitsText(before), UnitsText(NodeUnits(Model.folders[k], virtualFolderPath, fsPath)));
        k := k + 1;
      }
      assert Model.folders[..k] == Model.folders;
    }
  }

  /** The file loop of BuildUnit and BuildUnitImpl: one unit per file, named
      `fsPath + file`, in `virtualFolder`. */
  method AppendFileUnits(unitString0: string, files: seq<string>, fsPath: string, virtualFolder: string)
    returns (unitString: string)
    ensures unitString == unitString0 + UnitsText(FileUnits(files, fsPath, virtualFolder))
  {
    unitString := unitString0;
    var k := 0;
    while k < |files|
      invariant 0 <= k <= |files|
      invariant unitString == unitString0 + UnitsText(FileUnits(files[..k], fsPath, virtualFolder))
    {
      FileUnitsSnoc(files, k, fsPath, virtualFolder);
      UnitsTextSnoc(FileUnits(files[..k], fsPath, virtualFolder), Unit(fsPath + files[k], virtualFolder));
      AppendAssociative(unitString0, UnitsText(FileUnits(files[..k], fsPath, virtualFolder)),
                        UnitText(Unit(fsPath + files[k], virtualFolder)));
      unitString := unitString + UnitText(Unit(fsPath + files[k], virtualFolder));
      k := k + 1;
    }
    assert files[..k] == files;
  }

  /* ---------------------------------------------- building the tree itself */

  /** Where a list file goes: the split components of its directory
      (starting with the root component, which InsertPath skips) and its
      name. */
  datatype Placement = Placement(splitted: seq<string>, fileName: string)

  /** A list file is placed unless it lies under CMAKE_ROOT (`find` at 0),
      its path relative to the home directory has no directory component,
      or that path mentions `CMakeFiles`. */
  function PlaceListFile(homeDirectory: string, listFile: string, cmakeRoot: string,
                         relativePath: (string, string) -> string, splitPath: string -> seq<string>): (r: Option<Placement>)
    ensures r.None? <==> cmakeRoot <= listFile
                         || |splitPath(relativePath(homeDirectory, listFile))| < 2
                         || Contains(relativePath(homeDirectory, listFile), "CMakeFiles")
    ensures r.Some? ==> |r.value.splitted| >= 1
                        && r.value.splitted + [r.value.fileName] == splitPath(relativePath(homeDirectory, listFile))
  {
    if cmakeRoot <= listFile then None
    else
      var relative := relativePath(homeDirectory, listFile);
      var parts := splitPath(relative);
      if |parts| == 0 then None
      else
        var splitted := parts[..|parts| - 1];
        if |splitted| >= 1 && !Contains(relative, "CMakeFiles")
        then Some(Placement(splitted, parts[|parts| - 1]))
        else None
  }

  /** The list files of one project's directories, in order. */
  function ProjectListFiles(lgs: seq<Makefile>): (files: seq<string>)
    ensures forall j, f :: 0 <= j < |lgs| && f in lgs[j].listFiles ==> f in files
    ensures forall f :: f in files ==> exists j :: 0 <= j < |lgs| && f in lgs[j].listFiles
  {
    if lgs == [] then [] else ProjectListFiles(lgs[..|lgs| - 1]) + lgs[|lgs| - 1].listFiles
  }

  /** The home directory of a project: that of its first directory. */
  function ProjectHome(lgs: seq<Makefile>): string {
    if lgs == [] then "" else lgs[0].homeDirectory
  }

  function PlaceFiles(tree: Folder, homeDirectory: string, files: seq<string>, cmakeRoot: string,
                      relativePath: (string, string) -> string, splitPath: string -> seq<string>): Folder
    decreases |files|
  {
    if files == [] then tree
    else
      var before := PlaceFiles(tree, homeDirectory, files[..|files| - 1], cmakeRoot, relativePath, splitPath);
      match PlaceListFile(homeDirectory, files[|files| - 1], cmakeRoot, relativePath, splitPath)
      case None => before
      case Some(p) => Insert(before, p.splitted, 1, p.fileName)
  }

  function PlaceProjects(tree: Folder, projects: seq<seq<Makefile>>, cmakeRoot: string,
                         relativePath: (string, string) -> string, splitPath: string -> seq<string>): Folder
    decreases |projects|
  {
    if projects == [] then tree
    else
      var lgs := projects[|projects| - 1];
      PlaceFiles(PlaceProjects(tree, projects[..|projects| - 1], cmakeRoot, relativePath, splitPath),
                 ProjectHome(lgs), ProjectListFiles(lgs), cmakeRoot, relativePath, splitPath)
  }

  /** The tree of virtual folders: the list files of every project of the
      build, each relative to its own project's home directory. */
  function VirtualTree(projects: seq<seq<Makefile>>, cmakeRoot: string,
                       relativePath: (string, string) -> string, splitPath: string -> seq<string>): Folder {
    PlaceProjects(Folder("", [], []), projects, cmakeRoot, relativePath, splitPath)
  }

  /** The number of list files that are placed. */
  function PlacedCount(homeDirectory: string, files: seq<string>, cmakeRoot: string,
                       relativePath: (string, string) -> string, splitPath: string -> seq<string>): nat
    decreases |files|
  {
    if files == [] then 0
    else PlacedCount(homeDirectory, files[..|files| - 1], cmakeRoot, relativePath, splitPath)
         + (if PlaceListFile(homeDirectory, files[|files| - 1], cmakeRoot, relativePath, splitPath).Some? then 1 else 0)
  }

  /** Placing files adds one file to the tree per placed list file and keeps
      sibling labels unique. */
  lemma {:induction false} PlaceFilesShape(tree: Folder, homeDirectory: string, files: seq<string>, cmakeRoot: string,
                                          relativePath: (string, string) -> string, splitPath: string -> seq<string>)
    requires UniqueLabels(tree)
    ensures var r := PlaceFiles(tree, homeDirectory, files, cmakeRoot, relativePath, splitPath);
            FileCount(r) == FileCount(tree) + PlacedCount(homeDirectory, files, cmakeRoot, relativePath, splitPath)
            && UniqueLabels(r)
    decreases |files|
  {
    if files != [] {
      var init := files[..|files| - 1];
      PlaceFilesShape(tree, homeDirectory, init, cmakeRoot, relativePath, splitPath);
      var before := PlaceFiles(tree, homeDirectory, init, cmakeRoot, relativePath, splitPath);
      match PlaceListFile(homeDirectory, files[|files| - 1], cmakeRoot, relativePath, splitPath)
      case None =>
      case Some(p) =>
        InsertAddsOneFile(before, p.splitted, 1, p.fileName);
        InsertKeepsLabelsUnique(before, p.splitted, 1, p.fileName);
    }
  }

  function ProjectsPlacedCount(projects: seq<seq<Makefile>>, cmakeRoot: string,
                               relativePath: (string, string) -> string, splitPath: string -> seq<string>): nat
    decreases |projects|
  {
    if projects == [] then 0
    else
      var lgs := projects[|projects| - 1];
      ProjectsPlacedCount(projects[..|projects| - 1], cmakeRoot, relativePath, splitPath)
      + PlacedCount(ProjectHome(lgs), ProjectListFiles(lgs), cmakeRoot, relativePath, splitPath)
  }

  /** The tree holds exactly one file per placed list file, and no two
      siblings share a label. */
  lemma {:induction false} VirtualTreeShape(projects: seq<seq<Makefile>>, cmakeRoot: string,
                                           relativePath: (string, string) -> string, splitPath: string -> seq<string>)
    ensures var r := PlaceProjects(Folder("", [], []), projects, cmakeRoot, relativePath, splitPath);
            FileCount(r) == ProjectsPlacedCount(projects, cmakeRoot, relativePath, splitPath) && UniqueLabels(r)
    decreases |projects|
  {
    if projects != [] {
      var init := projects[..|projects| - 1];
      var lgs := projects[|projects| - 1];
      VirtualTreeShape(init, cmakeRoot, relativePath, splitPath);
      PlaceFilesShape(PlaceProjects(Folder("", [], []), init, cmakeRoot, relativePath, splitPath),
                      ProjectHome(lgs), ProjectListFiles(lgs), cmakeRoot, relativePath, splitPath);
    }
  }

  /** The loop of the project generators that builds the tree: for every
      project, its list files are collected, then each one that is placed is
      inserted from component 1 on. */
  method BuildTree(projects: seq<seq<Makefile>>, cmakeRoot: string,
                   relativePath: (string, string) -> string, splitPath: string -> seq<string>)
    returns (tree: CBTree)
    ensures tree.Valid() && fresh(tree.Repr)
    ensures tree.Model == VirtualTree(projects, cmakeRoot, relativePath, splitPath)
  {
    tree := new CBTree("");
    var p := 0;
    while p < |projects|
      invariant 0 <= p <= |projects|
      invariant tree.Valid() && fresh(tree.Repr)
      invariant tree.Model == PlaceProjects(Folder("", [], []), projects[..p], cmakeRoot, relativePath, splitPath)
    {
      var lgs := projects[p];
      var listFiles := CollectListFiles(lgs);
      PlaceProjectsStep(Folder("", [], []), projects, p, cmakeRoot, relativePath, splitPath);
      PlaceProjectFiles(tree, ProjectHome(lgs), listFiles, cmakeRoot, relativePath, splitPath);
      p := p + 1;
    }
    assert projects[..p] == projects;
  }

  /** One more project of the loop: its list files are placed into the tree
      built from the projects before it. */
  lemma PlaceProjectsStep(tree: Folder, projects: seq<seq<Makefile>>, p: nat, cmakeRoot: string,
                          relativePath: (string, string) -> string, splitPath: string -> seq<string>)
    requires p < |projects|
    ensures PlaceProjects(tree, projects[..p + 1], cmakeRoot, relativePath, splitPath)
         == PlaceFiles(PlaceProjects(tree, projects[..p], cmakeRoot, relativePath, splitPath),
                       ProjectHome(projects[p]), ProjectListFiles(projects[p]), cmakeRoot, relativePath, splitPath)
  {
    assert projects[..p + 1][..p] == projects[..p];
  }

  /** The list-file loop of one project. */
  method PlaceProjectFiles(tree: CBTree, homeDirectory: string, listFiles: seq<string>, cmakeRoot: string,
                           relativePath: (string, string) -> string, splitPath: string -> seq<string>)
    requires tree.Valid()
    modifies tree.Repr
    ensures tree.Valid() && fresh(tree.Repr - old(tree.Repr))
    ensures tree.Model == PlaceFiles(old(tree.Model), homeDirectory, listFiles, cmakeRoot, relativePath, splitPath)
  {
    var n := 0;
    while n < |listFiles|
      invariant 0 <= n <= |listFiles|
      invariant tree.Valid() && fresh(tree.Repr - old(tree.Repr))
      invariant tree.Model == PlaceFiles(old(tree.Model), homeDirectory, listFiles[..n], cmakeRoot, relativePath, splitPath)
    {
      assert listFiles[..n + 1][..n] == listFiles[..n];
      PlaceListFileInto(tree, homeDirectory, listFiles[n], cmakeRoot, relativePath, splitPath);
      n := n + 1;
    }
    assert listFiles[..n] == listFiles;
  }

  /** Collect all files: the list files of every directory of a project. */
  method CollectListFiles(lgs: seq<Makefile>) returns (listFiles: seq<string>)
    ensures listFiles == ProjectListFiles(lgs)
  {
    listFiles := [];
    var j := 0;
    while j < |lgs|
      invariant 0 <= j <= |lgs|
      invariant listFiles == ProjectListFiles(lgs[..j])
    {
      assert lgs[..j + 1][..j] == lgs[..j];
      listFiles := listFiles + lgs[j].listFiles;
      j := j + 1;
    }
    assert lgs[..j] == lgs;
  }

  /** The body of the list-file loop for one file. */
  method PlaceListFileInto(tree: CBTree, homeDirectory: string, listFile: string, cmakeRoot: string,
                           relativePath: (string, string) -> string, splitPath: string -> seq<string>)
    requires tree.Valid()
    modifies tree.Repr
    ensures tree.Valid() && fresh(tree.Repr - old(tree.Repr))
    ensures tree.Model == match PlaceListFile(homeDirectory, listFile, cmakeRoot, relativePath, splitPath)
                          case None => old(tree.Model)
                          case Some(p) => Insert(old(tree.Model), p.splitted, 1, p.fileName)
  {
    // a list file under CMAKE_ROOT is skipped
    if cmakeRoot <= listFile {
      return;
    }
    var relative := relativePath(homeDirectory, listFile);
    var splitted := splitPath(relative);
    if |splitted| == 0 {
      return;
    }
    // the last part is the file name, the rest its folders
    var fileName := splitted[|splitted| - 1];
    splitted := splitted[..|splitted| - 1];
    if |splitted| >= 1 && !Contains(relative, "CMakeFiles") {
      tree.InsertPath(splitted, 1, fileName);
    }
  }
}
