/** The way back: the checks on a snapshot, the writing of a target, and when a backup can be restored at all. */
module Restore {
  import opened Common
  import opened Trees
  import opened Backup
  import opened Snapshots

  predicate Suspicious(name: Name, token: Option<Name>) { CredentialName(name) || token == Some(name) }

  /** The first pass over a snapshot finds no credential material. */
  predicate Clean(dir: Node, token: Option<Name>, depth: nat)
    decreases dir, 1
  {
    dir.Dir? && depth <= MAX_SCAN_DEPTH && |dir.entries| <= MAX_SCAN_ENTRIES && CleanEntries(dir.entries, token, depth)
  }

  predicate CleanEntries(es: seq<Entry>, token: Option<Name>, depth: nat)
    decreases es, 0
  {
    es == [] ||
    var e := es[|es| - 1];
    && CleanEntries(es[..|es| - 1], token, depth)
    && !Suspicious(e.name, token)
    && (e.node.Directory() ==> Clean(e.node, token, depth + 1))
  }

  /** The pass that gathers a component accepts it. */
  predicate Scannable(dir: Node, token: Option<Name>, depth: nat)
    decreases dir, 1
  {
    dir.Dir? && depth <= MAX_SCAN_DEPTH && |dir.entries| <= MAX_SCAN_ENTRIES
    && ScannableEntries(dir.entries, token, depth)
  }

  predicate ScannableEntries(es: seq<Entry>, token: Option<Name>, depth: nat)
    decreases es, 0
  {
    es == [] ||
    (ScannableEntries(es[..|es| - 1], token, depth) && ScannableEntry(es[|es| - 1], token, depth))
  }

  predicate ScannableEntry(e: Entry, token: Option<Name>, depth: nat)
    decreases e, 2
  {
    && !Suspicious(e.name, token)
    && (e.node.File? || (e.node.Directory() && Scannable(e.node, token, depth + 1)))
  }

  lemma {:induction false} CleanTake(es: seq<Entry>, i: nat, token: Option<Name>, depth: nat)
    requires i <= |es|
    ensures CleanEntries(es, token, depth) ==> CleanEntries(es[..i], token, depth)
    decreases |es|
  {
    if i == |es| {
      assert es[..i] == es;
    } else {
      assert es[..|es| - 1][..i] == es[..i];
      CleanTake(es[..|es| - 1], i, token, depth);
    }
  }

  lemma {:induction false} ScannableTake(es: seq<Entry>, i: nat, token: Option<Name>, depth: nat)
    requires i <= |es|
    ensures ScannableEntries(es, token, depth) ==> ScannableEntries(es[..i], token, depth)
    ensures Files(es[..i]) <= Files(es) && Bytes(es[..i]) <= Bytes(es)
    decreases |es|
  {
    if i == |es| {
      assert es[..i] == es;
    } else {
      assert es[..|es| - 1][..i] == es[..i];
      ScannableTake(es[..|es| - 1], i, token, depth);
    }
  }

  /** Refuses every name that looks like a credential or like the configured token file, however deep. */
  method RejectCredentialMaterial(dir: Node, token: Option<Name>, depth: nat) returns (ok: bool)
    ensures ok <==> Clean(dir, token, depth)
    decreases dir
  {
    hide CredentialName;
    if depth > MAX_SCAN_DEPTH || !dir.Dir? {
      return false;
    }
    var es := dir.entries;
    for i := 0 to |es|
      invariant i <= MAX_SCAN_ENTRIES
      invariant CleanEntries(es[..i], token, depth)
    {
      assert es[..i + 1][..i] == es[..i];
      CleanTake(es, i + 1, token, depth);
      if i >= MAX_SCAN_ENTRIES || Suspicious(es[i].name, token) {
        return false;
      }
      if es[i].node.Directory() {
        ok := RejectCredentialMaterial(es[i].node, token, depth + 1);
        if !ok {
          return;
        }
      }
    }
    assert es[..|es|] == es;
    return true;
  }

  /** The directories and files of one component, as the restore will write them, and their counts. */
  datatype Plan = Plan(dirs: seq<Path>, files: seq<FileAt>, fileCount: nat, byteCount: nat) {
    predicate Holds(moreFiles: nat, moreBytes: nat) {
      fileCount + moreFiles <= U64_MAX && byteCount + moreBytes <= U64_MAX
    }

    function Add(moreDirs: seq<Path>, moreFiles: seq<FileAt>, count: nat, bytes: nat): Plan {
      Plan(dirs + moreDirs, files + moreFiles, fileCount + count, byteCount + bytes)
    }
  }

  const NOTHING := Plan([], [], 0, 0)

  class RestoreComponent {
    var plan: Plan

    constructor ()
      ensures plan == NOTHING
    {
      plan := NOTHING;
    }

    method ScanFile(content: Content, relative: Path, name: Name, token: Option<Name>) returns (ok: bool)
      requires plan.Holds(0, 0)
      modifies this
      ensures ok <==> !Suspicious(name, token) && old(plan).Holds(1, |content|)
      ensures ok ==> plan == old(plan).Add([], [FileAt(relative, content)], 1, |content|)
    {
      if Suspicious(name, token) || plan.fileCount == U64_MAX {
        return false;
      }
      plan := plan.(fileCount := plan.fileCount + 1);
      if plan.byteCount + |content| > U64_MAX {
        return false;
      }
      plan := plan.(byteCount := plan.byteCount + |content|, files := plan.files + [FileAt(relative, content)]);
      assert plan.dirs + [] == plan.dirs;
      return true;
    }

    /** Gathers a directory and everything below it. */
    method ScanDirectory(node: Node, relative: Path, token: Option<Name>, depth: nat) returns (ok: bool)
      requires plan.Holds(0, 0)
      modifies this
      ensures ok <==> Scannable(node, token, depth) && old(plan).Holds(Files(node.entries), Bytes(node.entries))
      ensures ok ==> plan == old(plan).Add(NodeDirs(node, relative), NodeFiles(node, relative),
                                           Files(node.entries), Bytes(node.entries))
      decreases node, 0
    {
      hide CredentialName, ScannableEntries, Files, Bytes;
      if !node.Dir? {
        return false;
      }
      plan := plan.(dirs := plan.dirs + [relative]);
      if depth > MAX_SCAN_DEPTH {
        return false;
      }
      ok := ScanEntries(node.entries, relative, token, depth);
      assert old(plan).dirs + [relative] + DirsOf(node.entries, relative)
          == old(plan).dirs + ([relative] + DirsOf(node.entries, relative));
    }

    method ScanEntries(es: seq<Entry>, relative: Path, token: Option<Name>, depth: nat) returns (ok: bool)
      requires plan.Holds(0, 0)
      modifies this
      ensures ok <==> |es| <= MAX_SCAN_ENTRIES && ScannableEntries(es, token, depth)
                      && old(plan).Holds(Files(es), Bytes(es))
      ensures ok ==> plan == old(plan).Add(DirsOf(es, relative), FilesOf(es, relative), Files(es), Bytes(es))
      decreases es, 0
    {
      ScanNone(es, relative, token, depth);
      hide CredentialName, ScannableEntries, ScannableEntry, DirsOf, FilesOf, Files, Bytes;
      for i := 0 to |es|
        invariant i <= MAX_SCAN_ENTRIES && plan.Holds(0, 0)
        invariant ScannableEntries(es[..i], token, depth)
        invariant plan == old(plan).Add(DirsOf(es[..i], relative), FilesOf(es[..i], relative),
                                        Files(es[..i]), Bytes(es[..i]))
      {
        ScanNext(es, i, relative, token, depth);
        ScannableTake(es, i + 1, token, depth);
        if i >= MAX_SCAN_ENTRIES {
          return false;
        }
        ok := ScanEntry(es[i], relative + [es[i].name], token, depth);
        if !ok {
          return;
        }
      }
      assert es[..|es|] == es;
      return true;
    }

    method ScanEntry(e: Entry, at: Path, token: Option<Name>, depth: nat) returns (ok: bool)
      requires plan.Holds(0, 0)
      modifies this
      ensures ok <==> ScannableEntry(e, token, depth) && old(plan).Holds(Files([e]), Bytes([e]))
      ensures ok ==> plan == old(plan).Add(NodeDirs(e.node, at), NodeFiles(e.node, at), Files([e]), Bytes([e]))
      decreases e, 0
    {
      OneEntry(e.name, e.node);
      assert e == Entry(e.name, e.node);
      hide CredentialName, Files, Bytes, Scannable;
      if Suspicious(e.name, token) {
        return false;
      }
      match e.node
      case File(content) => ok := ScanFile(content, at, e.name, token);
      case Dir(_) => ok := ScanDirectory(e.node, at, token, depth + 1);
      case _ => return false;
    }
  }

  lemma ScanNone(es: seq<Entry>, at: Path, token: Option<Name>, depth: nat)
    ensures es[..0] == [] && DirsOf(es[..0], at) == [] && FilesOf(es[..0], at) == []
    ensures Files(es[..0]) == 0 && Bytes(es[..0]) == 0 && ScannableEntries(es[..0], token, depth)
    ensures forall p: Plan :: p.Add([], [], 0, 0) == p
  {
  }

  lemma ScanNext(es: seq<Entry>, i: nat, at: Path, token: Option<Name>, depth: nat)
    requires i < |es|
    ensures ScannableEntries(es[..i + 1], token, depth) <==>
            ScannableEntries(es[..i], token, depth) && ScannableEntry(es[i], token, depth)
    ensures DirsOf(es[..i + 1], at) == DirsOf(es[..i], at) + NodeDirs(es[i].node, at + [es[i].name])
    ensures FilesOf(es[..i + 1], at) == FilesOf(es[..i], at) + NodeFiles(es[i].node, at + [es[i].name])
    ensures Files(es[..i + 1]) == Files(es[..i]) + Files([es[i]])
    ensures Bytes(es[..i + 1]) == Bytes(es[..i]) + Bytes([es[i]])
  {
    assert es[..i + 1][..i] == es[..i];
    FilesJoin(es[..i], [es[i]]);
    assert es[..i + 1] == es[..i] + [es[i]];
  }

  // The checks on a snapshot

  /** The token file's own name, as the snapshot's copy of the configuration gives it. */
  function TokenName(root: seq<Entry>, parse: Parser): Option<Name> {
    var config := Lookup(root, Config.FileName());
    if config.None? || !config.value.File? then None
    else
      var parsed := parse(config.value.content);
      if parsed.None? || parsed.value.None? then None else FileName(parsed.value.value)
  }

  predicate ValidManifest(manifest: seq<ManifestComponent>) {
    && (forall i, j :: 0 <= i < j < |manifest| ==> manifest[i].name != manifest[j].name)
    && (exists c <- manifest :: c.name == Config)
    && (exists c <- manifest :: c.name == Memory)
  }

  predicate AllowedRoot(root: seq<Entry>, manifest: seq<ManifestComponent>) {
    forall e <- root :: e.name == MANIFEST || exists c <- manifest :: c.name.FileName() == e.name
  }

  /** What the scan of a component should gather. */
  function PlanFor(root: seq<Entry>, name: Component): Plan {
    var node, at := Lookup(root, name.FileName()), [name.FileName()];
    match node
    case Some(File(content)) => Plan([], [FileAt(at, content)], 1, |content|)
    case Some(Dir(entries)) =>
      Plan(NodeDirs(Dir(entries), at), NodeFiles(Dir(entries), at), Files(entries), Bytes(entries))
    case _ => NOTHING
  }

  predicate ComponentIntact(root: seq<Entry>, c: ManifestComponent, token: Option<Name>) {
    var node, plan := Lookup(root, c.name.FileName()), PlanFor(root, c.name);
    && node.Some?
    && (if c.name == Config then node.value.File? && !Suspicious(Config.FileName(), token)
        else Scannable(node.value, token, 0))
    && Countable(c) && c.fileCount == plan.fileCount && c.byteCount == plan.byteCount
  }

  predicate Intact(s: Snapshot, parse: Parser) {
    var token := TokenName(s.root, parse);
    && ValidManifest(s.manifest)
    && Clean(Dir(s.root), token, 0)
    && AllowedRoot(s.root, s.manifest)
    && forall c <- s.manifest :: ComponentIntact(s.root, c, token)
  }

  function AllDirs(root: seq<Entry>, manifest: seq<ManifestComponent>): seq<Path> {
    if manifest == [] then []
    else AllDirs(root, manifest[..|manifest| - 1]) + PlanFor(root, manifest[|manifest| - 1].name).dirs
  }

  function AllFiles(root: seq<Entry>, manifest: seq<ManifestComponent>): seq<FileAt> {
    if manifest == [] then []
    else AllFiles(root, manifest[..|manifest| - 1]) + PlanFor(root, manifest[|manifest| - 1].name).files
  }

  /** Rescans one component and compares it with its line in the manifest. */
  method ScanComponent(root: seq<Entry>, c: ManifestComponent, token: Option<Name>) returns (plan: Option<Plan>)
    ensures plan.Some? <==> ComponentIntact(root, c, token)
    ensures plan.Some? ==> plan.value == PlanFor(root, c.name)
  {
    hide CredentialName;
    var node, name := Lookup(root, c.name.FileName()), c.name.FileName();
    if node.None? {
      return None;
    }
    var component := new RestoreComponent();
    var ok := false;
    if c.name == Config {
      if node.value.File? {
        ok := component.ScanFile(node.value.content, [name], name, token);
        assert NOTHING.dirs + [] == [];
        assert NOTHING.files + [FileAt([name], node.value.content)] == PlanFor(root, c.name).files;
      }
    } else {
      ok := component.ScanDirectory(node.value, [name], token, 0);
      assert forall ds: seq<Path>, fs: seq<FileAt> :: NOTHING.dirs + ds == ds && NOTHING.files + fs == fs;
    }
    if !ok || component.plan.fileCount != c.fileCount || component.plan.byteCount != c.byteCount {
      return None;
    }
    return Some(component.plan);
  }

  method Preflight(s: Snapshot, parse: Parser) returns (r: Option<(seq<Path>, seq<FileAt>)>)
    ensures r.Some? <==> Intact(s, parse)
    ensures r.Some? ==> r.value == (AllDirs(s.root, s.manifest), AllFiles(s.root, s.manifest))
  {
    hide CredentialName, ComponentIntact, PlanFor, Clean;
    var token := TokenName(s.root, parse);
    if !ValidManifest(s.manifest) {
      return None;
    }
    var clean := RejectCredentialMaterial(Dir(s.root), token, 0);
    if !clean || !AllowedRoot(s.root, s.manifest) {
      return None;
    }
    var dirs, files := [], [];
    for i := 0 to |s.manifest|
      invariant forall k :: 0 <= k < i ==> ComponentIntact(s.root, s.manifest[k], token)
      invariant dirs == AllDirs(s.root, s.manifest[..i]) && files == AllFiles(s.root, s.manifest[..i])
    {
      assert s.manifest[..i + 1][..i] == s.manifest[..i];
      var plan := ScanComponent(s.root, s.manifest[i], token);
      if plan.None? {
        return None;
      }
      dirs, files := dirs + plan.value.dirs, files + plan.value.files;
    }
    assert s.manifest[..|s.manifest|] == s.manifest;
    return Some((dirs, files));
  }

  // Writing the target

  /** A directory to restore into; paths are relative to it, so none is empty. */
  class Target {
    var items: map<Path, Item>

    constructor (items: map<Path, Item>)
      ensures this.items == items
    {
      this.items := items;
    }

    predicate IsFolder(p: Path)
      reads this
    {
      p == [] || (p in items && items[p] == Folder)
    }

    /** Makes a directory, unless it is there already. */
    method MakeDir(p: Path) returns (ok: bool)
      requires p != []
      modifies this
      ensures ok <==> if p in old(items) then old(items)[p] == Folder else old(IsFolder(p[..|p| - 1]))
      ensures items == if ok then old(items)[p := Folder] else old(items)
    {
      if p in items {
        return items[p] == Folder;
      }
      if !IsFolder(p[..|p| - 1]) {
        return false;
      }
      items := items[p := Folder];
      return true;
    }

    /** Writes a file; an existing file is overwritten only by force. */
    method WriteFile(f: FileAt, force: bool) returns (ok: bool)
      requires f.path != []
      modifies this
      ensures ok <==> (f.path in old(items) ==> force && old(items)[f.path].Regular?)
                      && old(IsFolder(f.path[..|f.path| - 1]))
      ensures items == if ok then old(items)[f.path := Regular(f.content)] else old(items)
    {
      if !IsFolder(f.path[..|f.path| - 1]) {
        return false;
      }
      if f.path in items && (!items[f.path].Regular? || !force) {
        return false;
      }
      items := items[f.path := Regular(f.content)];
      return true;
    }
  }

  predicate Ascending(dirs: seq<Path>) {
    dirs == [] ||
    (Ascending(dirs[..|dirs| - 1]) && forall d <- dirs[..|dirs| - 1] :: |d| <= |dirs[|dirs| - 1]|)
  }

  /** The place of a directory in an ordering by depth. */
  function Insert(dirs: seq<Path>, d: Path): (r: seq<Path>)
    ensures forall p :: p in r <==> p in dirs || p == d
    ensures Ascending(dirs) ==> Ascending(r)
  {
    if dirs == [] || |dirs[|dirs| - 1]| <= |d| then
      assert (dirs + [d])[..|dirs|] == dirs;
      assert Ascending(dirs) ==> forall p <- dirs :: |p| <= |d| by {
        if Ascending(dirs) && dirs != [] {
          BelowLast(dirs);
        }
      }
      dirs + [d]
    else
      var init, last := dirs[..|dirs| - 1], dirs[|dirs| - 1];
      assert dirs == init + [last];
      var r := Insert(init, d);
      assert (r + [last])[..|r|] == r;
      r + [last]
  }

  lemma BelowLast(dirs: seq<Path>)
    requires dirs != [] && Ascending(dirs)
    ensures forall p <- dirs :: |p| <= |dirs[|dirs| - 1]|
  {
    var init, last := dirs[..|dirs| - 1], dirs[|dirs| - 1];
    assert dirs == init + [last];
  }

  /** Orders directories so that none comes before one that holds it. */
  method SortByDepth(dirs: seq<Path>) returns (sorted: seq<Path>)
    ensures Ascending(sorted)
    ensures forall d :: d in sorted <==> d in dirs
  {
    sorted := [];
    for i := 0 to |dirs|
      invariant Ascending(sorted)
      invariant forall d :: d in sorted <==> d in dirs[..i]
    {
      assert dirs[..i + 1] == dirs[..i] + [dirs[i]];
      sorted := Insert(sorted, dirs[i]);
    }
    assert dirs[..|dirs|] == dirs;
  }

  /** Every directory has its parent among the directories. */
  ghost predicate Rooted(dirs: seq<Path>) {
    forall d <- dirs :: d != [] && (|d| > 1 ==> d[..|d| - 1] in dirs)
  }

  /** So has every file, and no path is used twice. */
  ghost predicate Sound(dirs: seq<Path>, files: seq<FileAt>) {
    && Rooted(dirs)
    && (forall f <- files :: f.path != [] && f.path !in dirs && (|f.path| > 1 ==> f.path[..|f.path| - 1] in dirs))
    && DistinctPaths(files)
  }

  /** These directories, these files with their contents, and everything else as it was. */
  ghost predicate Image(before: map<Path, Item>, items: map<Path, Item>, dirs: seq<Path>, files: seq<FileAt>) {
    && (forall d <- dirs :: d in items && items[d] == Folder)
    && (forall f <- files :: f.path in items && items[f.path] == Regular(f.content))
    && (forall p :: p !in dirs && (forall f <- files :: f.path != p) ==> Same(before, items, p))
  }

  predicate Same(before: map<Path, Item>, items: map<Path, Item>, p: Path) {
    (p in items <==> p in before) && (p in items ==> items[p] == before[p])
  }

  predicate FolderOrFree(items: map<Path, Item>, p: Path) { p in items ==> items[p].Folder? }

  /** Nothing planned meets something of another kind. */
  ghost predicate Fits(items: map<Path, Item>, dirs: seq<Path>, files: seq<FileAt>) {
    && (forall d <- dirs :: FolderOrFree(items, d))
    && (forall f <- files :: f.path != [] ==> FolderOrFree(items, f.path[..|f.path| - 1]))
    && (forall f <- files :: f.path in items ==> items[f.path].Regular?)
  }

  /** Without force only an empty target is restored into, with force none that has a configuration. */
  predicate Open(items: map<Path, Item>, force: bool) {
    if force then [Config.FileName()] !in items else items == map[]
  }

  /** Looks at the target before anything is written. */
  method InspectTarget(target: Target, force: bool, dirs: seq<Path>, files: seq<FileAt>) returns (ok: bool)
    requires forall f <- files :: f.path != []
    ensures ok <==> Open(target.items, force) && Fits(target.items, dirs, files)
  {
    if force && [Config.FileName()] in target.items {
      return false;
    }
    if target.items != map[] && !force {
      return false;
    }
    for i := 0 to |dirs|
      invariant forall d <- dirs[..i] :: FolderOrFree(target.items, d)
    {
      if !FolderOrFree(target.items, dirs[i]) {
        assert dirs[i] in dirs;
        return false;
      }
      assert dirs[..i + 1] == dirs[..i] + [dirs[i]];
    }
    assert dirs[..|dirs|] == dirs;
    for i := 0 to |files|
      invariant forall f <- files[..i] :: FolderOrFree(target.items, f.path[..|f.path| - 1])
    {
      assert files[i] in files;
      if !FolderOrFree(target.items, files[i].path[..|files[i].path| - 1]) {
        return false;
      }
      assert files[..i + 1] == files[..i] + [files[i]];
    }
    assert files[..|files|] == files;
    for i := 0 to |files|
      invariant forall f <- files[..i] :: f.path in target.items ==> target.items[f.path].Regular?
    {
      if files[i].path in target.items && !target.items[files[i].path].Regular? {
        assert files[i] in files;
        return false;
      }
      assert files[..i + 1] == files[..i] + [files[i]];
    }
    ok := true;
  }

  function WithDirs(items: map<Path, Item>, dirs: seq<Path>): map<Path, Item> {
    if dirs == [] then items else WithDirs(items, dirs[..|dirs| - 1])[dirs[|dirs| - 1] := Folder]
  }

  function WithFiles(items: map<Path, Item>, files: seq<FileAt>): map<Path, Item> {
    if files == [] then items
    else
      var f := files[|files| - 1];
      WithFiles(items, files[..|files| - 1])[f.path := Regular(f.content)]
  }

  lemma {:induction false} WithDirsAt(items: map<Path, Item>, dirs: seq<Path>, p: Path)
    ensures p in dirs ==> p in WithDirs(items, dirs) && WithDirs(items, dirs)[p] == Folder
    ensures p !in dirs ==> Same(items, WithDirs(items, dirs), p)
  {
    if dirs != [] {
      WithDirsAt(items, dirs[..|dirs| - 1], p);
      assert dirs == dirs[..|dirs| - 1] + [dirs[|dirs| - 1]];
    }
  }

  lemma {:induction false} WithFilesAt(items: map<Path, Item>, files: seq<FileAt>, p: Path)
    ensures (forall f <- files :: f.path != p) ==> Same(items, WithFiles(items, files), p)
  {
    if files != [] {
      WithFilesAt(items, files[..|files| - 1], p);
      assert files == files[..|files| - 1] + [files[|files| - 1]];
      assert files[|files| - 1] in files;
    }
  }

  lemma {:induction false} WithFilesHas(items: map<Path, Item>, files: seq<FileAt>, f: FileAt)
    requires f in files && DistinctPaths(files)
    ensures f.path in WithFiles(items, files) && WithFiles(items, files)[f.path] == Regular(f.content)
  {
    var init, last := files[..|files| - 1], files[|files| - 1];
    if f != last {
      var k :| 0 <= k < |files| && files[k] == f;
      assert init[k] == f;
      WithFilesHas(items, init, f);
    }
  }

  /** Makes the directories, shallow ones first. */
  method WriteDirs(target: Target, dirs: seq<Path>) returns (ok: bool, ghost sorted: seq<Path>)
    modifies target
    ensures forall d :: d in sorted <==> d in dirs
    ensures Rooted(dirs) && (forall d <- dirs :: FolderOrFree(old(target.items), d)) ==> ok
    ensures ok ==> target.items == WithDirs(old(target.items), sorted)
  {
    ghost var before := target.items;
    var order := SortByDepth(dirs);
    sorted := order;
    for i := 0 to |order|
      invariant target.items == WithDirs(before, order[..i])
    {
      var d := order[i];
      assert d in dirs;
      assert order[..i + 1][..i] == order[..i];
      if d == [] {
        return false, sorted;
      }
      ok := target.MakeDir(d);
      WithDirsAt(before, order[..i], d);
      WithDirsAt(before, order[..i], d[..|d| - 1]);
      if !ok {
        DepthFirst(order, i, d[..|d| - 1]);
        return;
      }
    }
    assert order[..|order|] == order;
    ok := true;
  }

  lemma {:induction false} DepthFirst(dirs: seq<Path>, i: nat, p: Path)
    requires Ascending(dirs) && i < |dirs| && |p| < |dirs[i]|
    ensures p in dirs ==> p in dirs[..i]
    decreases |dirs|
  {
    var init, last := dirs[..|dirs| - 1], dirs[|dirs| - 1];
    assert dirs == init + [last];
    BelowLast(dirs);
    assert dirs[i] in dirs;
    if i < |init| {
      DepthFirst(init, i, p);
      assert init[..i] == dirs[..i];
    }
  }

  /** Writes what the inspection let pass: what is sound to write is written whole, and nothing else is touched. */
  method WriteRestore(target: Target, dirs: seq<Path>, files: seq<FileAt>, force: bool) returns (ok: bool)
    modifies target
    ensures Sound(dirs, files) && Open(old(target.items), force) && Fits(old(target.items), dirs, files) ==>
              ok && Image(old(target.items), target.items, dirs, files)
  {
    hide WithDirs, WithFiles, Image, Sound, Rooted, Fits, Open;
    ghost var before := target.items;
    ghost var sorted;
    ok, sorted := WriteDirs(target, dirs);
    SoundDirs(before, dirs, files);
    if !ok {
      return;
    }
    NoFiles(WithDirs(before, sorted), files);
    for i := 0 to |files|
      invariant target.items == WithFiles(WithDirs(before, sorted), files[..i])
    {
      var f := files[i];
      FilesNext(before, sorted, dirs, files, i, force);
      if f.path == [] {
        return false;
      }
      ok := target.WriteFile(f, force);
      if !ok {
        return;
      }
    }
    assert files[..|files|] == files;
    Imaged(before, sorted, dirs, files);
    ok := true;
  }

  lemma SoundDirs(before: map<Path, Item>, dirs: seq<Path>, files: seq<FileAt>)
    ensures Sound(dirs, files) ==> Rooted(dirs)
    ensures Fits(before, dirs, files) ==> forall d <- dirs :: FolderOrFree(before, d)
  {
  }

  lemma NoFiles(items: map<Path, Item>, files: seq<FileAt>)
    ensures WithFiles(items, files[..0]) == items
  {
  }

  /** One more file can be written: its parent is there, and at most an older file is in its place. */
  lemma FilesNext(
      before: map<Path, Item>, sorted: seq<Path>, dirs: seq<Path>, files: seq<FileAt>, i: nat, force: bool)
    requires i < |files| && forall d :: d in sorted <==> d in dirs
    ensures var now, f := WithFiles(WithDirs(before, sorted), files[..i]), files[i];
            && WithFiles(WithDirs(before, sorted), files[..i + 1]) == now[f.path := Regular(f.content)]
            && (Sound(dirs, files) && Open(before, force) && Fits(before, dirs, files) ==>
                  && f.path != []
                  && (f.path in now ==> force && now[f.path].Regular?)
                  && (|f.path| > 1 ==> f.path[..|f.path| - 1] in now && now[f.path[..|f.path| - 1]] == Folder))
  {
    var f := files[i];
    assert files[..i + 1][..i] == files[..i];
    if Sound(dirs, files) {
      assert f in files;
      WithFilesAt(WithDirs(before, sorted), files[..i], f.path);
      WithDirsAt(before, sorted, f.path);
      var parent := f.path[..|f.path| - 1];
      WithFilesAt(WithDirs(before, sorted), files[..i], parent);
      WithDirsAt(before, sorted, parent);
    }
  }

  lemma Imaged(before: map<Path, Item>, sorted: seq<Path>, dirs: seq<Path>, files: seq<FileAt>)
    requires forall d :: d in sorted <==> d in dirs
    ensures Sound(dirs, files) ==> Image(before, WithFiles(WithDirs(before, sorted), files), dirs, files)
  {
    if Sound(dirs, files) {
      var base := WithDirs(before, sorted);
      var items := WithFiles(base, files);
      forall d <- dirs ensures d in items && items[d] == Folder {
        WithFilesAt(base, files, d);
        WithDirsAt(before, sorted, d);
      }
      forall f <- files ensures f.path in items && items[f.path] == Regular(f.content) {
        WithFilesHas(base, files, f);
      }
      forall p | p !in dirs && forall f <- files :: f.path != p ensures Same(before, items, p) {
        WithFilesAt(base, files, p);
        WithDirsAt(before, sorted, p);
      }
    }
  }
}
