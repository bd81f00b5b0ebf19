/** A backup and its restore together: exactly when the restore accepts the snapshot, and what it gives back. */
module RoundTrip {
  import opened Common
  import opened Trees
  import opened Backup
  import opened Snapshots
  import opened Restore

  predicate Listed(manifest: seq<ManifestComponent>, name: Name) {
    exists c <- manifest :: c.name.FileName() == name
  }

  lemma {:induction false} UniqueChild(es: seq<Entry>, name: Name)
    requires UniqueNames(es)
    ensures Lookup(es, name).Some? ==> UniqueNode(Lookup(es, name).value)
  {
    if es != [] {
      UniqueChild(es[..|es| - 1], name);
    }
  }

  /** A component's plan lists exactly what its paths lead to in the snapshot. */
  lemma PlanIsExact(root: seq<Entry>, name: Component, p: Path, content: Content)
    requires UniqueNames(root)
    ensures var mine := p != [] && p[0] == name.FileName();
            && (p in PlanFor(root, name).dirs <==> mine && ItemAt(root, p) == Some(Folder))
            && (FileAt(p, content) in PlanFor(root, name).files <==> mine && ItemAt(root, p) == Some(Regular(content)))
  {
    var at := [name.FileName()];
    UniqueChild(root, name.FileName());
    var node := Lookup(root, name.FileName());
    if node.Some? {
      WalkExtends(node.value, at);
      if p != [] && p[0] == name.FileName() {
        assert p == at + p[1..];
        NodeWalkIsExact(node.value, at, p[1..], content);
      }
    }
  }

  lemma {:induction false} AllIsExact(root: seq<Entry>, manifest: seq<ManifestComponent>, p: Path, content: Content)
    requires UniqueNames(root)
    ensures var mine := p != [] && Listed(manifest, p[0]);
            && (p in AllDirs(root, manifest) <==> mine && ItemAt(root, p) == Some(Folder))
            && (FileAt(p, content) in AllFiles(root, manifest) <==> mine && ItemAt(root, p) == Some(Regular(content)))
  {
    if manifest != [] {
      var init, c := manifest[..|manifest| - 1], manifest[|manifest| - 1];
      assert manifest == init + [c];
      AllIsExact(root, init, p, content);
      PlanIsExact(root, c.name, p, content);
      hide PlanFor, ItemAt;
    }
  }

  predicate DistinctNames(manifest: seq<ManifestComponent>) {
    forall i, j :: 0 <= i < j < |manifest| ==> manifest[i].name != manifest[j].name
  }

  lemma {:induction false} AllDistinct(root: seq<Entry>, manifest: seq<ManifestComponent>)
    requires UniqueNames(root) && DistinctNames(manifest)
    ensures DistinctPaths(AllFiles(root, manifest))
  {
    if manifest != [] {
      var init, c := manifest[..|manifest| - 1], manifest[|manifest| - 1];
      AllDistinct(root, init);
      var fs, gs := AllFiles(root, init), PlanFor(root, c.name).files;
      PlanDistinct(root, c.name);
      forall i, j | 0 <= i < |fs| && 0 <= j < |gs| ensures fs[i].path != gs[j].path {
        assert fs[i] == FileAt(fs[i].path, fs[i].content) && gs[j] == FileAt(gs[j].path, gs[j].content);
        AllIsExact(root, init, fs[i].path, fs[i].content);
        PlanIsExact(root, c.name, gs[j].path, gs[j].content);
        SameFileName(init, c.name);
      }
      DistinctJoin(fs, gs);
    }
  }

  lemma SameFileName(manifest: seq<ManifestComponent>, name: Component)
    ensures Listed(manifest, name.FileName()) ==> exists i :: 0 <= i < |manifest| && manifest[i].name == name
  {
  }

  lemma PlanDistinct(root: seq<Entry>, name: Component)
    requires UniqueNames(root)
    ensures DistinctPaths(PlanFor(root, name).files)
  {
    UniqueChild(root, name.FileName());
    var node := Lookup(root, name.FileName());
    if node.Some? && node.value.Dir? {
      WalkIsDistinct(node.value.entries, [name.FileName()]);
    }
  }

  lemma AllSound(root: seq<Entry>, manifest: seq<ManifestComponent>)
    requires UniqueNames(root) && DistinctNames(manifest)
    ensures Sound(AllDirs(root, manifest), AllFiles(root, manifest))
  {
    var dirs, files := AllDirs(root, manifest), AllFiles(root, manifest);
    AllDistinct(root, manifest);
    forall d <- dirs ensures d != [] && (|d| > 1 ==> d[..|d| - 1] in dirs) {
      ParentListed(root, manifest, d);
    }
    forall f <- files
      ensures f.path != [] && f.path !in dirs && (|f.path| > 1 ==> f.path[..|f.path| - 1] in dirs)
    {
      assert f == FileAt(f.path, f.content);
      AllIsExact(root, manifest, f.path, f.content);
      ParentListed(root, manifest, f.path);
    }
  }

  lemma ParentListed(root: seq<Entry>, manifest: seq<ManifestComponent>, p: Path)
    requires UniqueNames(root)
    ensures p in AllDirs(root, manifest) ==> p != []
    ensures p != [] && Listed(manifest, p[0]) && ItemAt(root, p).Some? && |p| > 1 ==>
              p[..|p| - 1] in AllDirs(root, manifest)
    ensures p in AllDirs(root, manifest) && |p| > 1 ==> p[..|p| - 1] in AllDirs(root, manifest)
  {
    AllIsExact(root, manifest, p, []);
    if |p| > 1 && ItemAt(root, p).Some? {
      ParentIsFolder(root, p);
      AllIsExact(root, manifest, p[..|p| - 1], []);
      assert p[..|p| - 1][0] == p[0];
    }
    hide ItemAt, AllDirs;
  }

  /** What the components of a snapshot hold at a path. */
  function Planned(root: seq<Entry>, manifest: seq<ManifestComponent>, p: Path): Option<Item> {
    if p != [] && Listed(manifest, p[0]) then ItemAt(root, p) else None
  }

  /** The target holds exactly what the components of the snapshot hold, path by path, and is otherwise as it was. */
  ghost predicate Restored(
      before: map<Path, Item>, items: map<Path, Item>, root: seq<Entry>, manifest: seq<ManifestComponent>)
  {
    forall p :: RestoredAt(before, items, root, manifest, p)
  }

  predicate RestoredAt(
      before: map<Path, Item>, items: map<Path, Item>, root: seq<Entry>, manifest: seq<ManifestComponent>, p: Path)
  {
    if Planned(root, manifest, p).Some? then p in items && Planned(root, manifest, p) == Some(items[p])
    else Same(before, items, p)
  }

  lemma ImageIsRestored(
      before: map<Path, Item>, items: map<Path, Item>, root: seq<Entry>, manifest: seq<ManifestComponent>)
    requires UniqueNames(root) && Image(before, items, AllDirs(root, manifest), AllFiles(root, manifest))
    ensures Restored(before, items, root, manifest)
  {
    forall p ensures RestoredAt(before, items, root, manifest, p) {
      ItemRestored(before, items, root, manifest, p);
    }
  }

  lemma {:induction false} ItemIsPlain(es: seq<Entry>, p: Path)
    ensures ItemAt(es, p).Some? ==> !ItemAt(es, p).value.Other?
    decreases |p|
  {
    if p != [] && Lookup(es, p[0]).Some? && Lookup(es, p[0]).value.Dir? {
      ItemIsPlain(Lookup(es, p[0]).value.entries, p[1..]);
    }
  }

  lemma ItemRestored(
      before: map<Path, Item>, items: map<Path, Item>, root: seq<Entry>, manifest: seq<ManifestComponent>, p: Path)
    requires UniqueNames(root) && Image(before, items, AllDirs(root, manifest), AllFiles(root, manifest))
    ensures RestoredAt(before, items, root, manifest, p)
  {
    var dirs, files := AllDirs(root, manifest), AllFiles(root, manifest);
    AllIsExact(root, manifest, p, []);
    ItemIsPlain(root, p);
    if Planned(root, manifest, p).None? {
      forall f <- files ensures f.path != p {
        assert f == FileAt(f.path, f.content);
        AllIsExact(root, manifest, f.path, f.content);
      }
    } else if Planned(root, manifest, p).value.Regular? {
      var content := Planned(root, manifest, p).value.content;
      AllIsExact(root, manifest, p, content);
      assert FileAt(p, content) in files;
    }
    hide ItemAt, AllDirs, AllFiles;
  }

  /** Nothing in the target stands where the snapshot has something of another kind. */
  ghost predicate NoClash(items: map<Path, Item>, root: seq<Entry>, manifest: seq<ManifestComponent>) {
    forall p <- items :: Agrees(items[p], Planned(root, manifest, p))
  }

  predicate Agrees(item: Item, planned: Option<Item>) {
    planned.Some? ==> (item.Folder? && planned.value.Folder?) || (item.Regular? && planned.value.Regular?)
  }

  lemma FitsIffNoClash(items: map<Path, Item>, root: seq<Entry>, manifest: seq<ManifestComponent>)
    requires UniqueNames(root) && [] !in items
    ensures Fits(items, AllDirs(root, manifest), AllFiles(root, manifest)) <==> NoClash(items, root, manifest)
  {
    hide ItemAt, AllDirs, AllFiles, Listed;
    var dirs, files := AllDirs(root, manifest), AllFiles(root, manifest);
    if Fits(items, dirs, files) {
      forall p <- items ensures Agrees(items[p], Planned(root, manifest, p)) {
        AllIsExact(root, manifest, p, []);
        ItemIsPlain(root, p);
        if Planned(root, manifest, p).Some? && Planned(root, manifest, p).value.Regular? {
          AllIsExact(root, manifest, p, Planned(root, manifest, p).value.content);
          assert FileAt(p, Planned(root, manifest, p).value.content) in files;
        } else if Planned(root, manifest, p).Some? {
          assert p in dirs;
          assert FolderOrFree(items, p);
        }
      }
    }
    if NoClash(items, root, manifest) {
      forall d <- dirs ensures FolderOrFree(items, d) {
        AllIsExact(root, manifest, d, []);
        assert Planned(root, manifest, d) == Some(Folder);
      }
      forall f <- files
        ensures f.path != [] ==> FolderOrFree(items, f.path[..|f.path| - 1])
        ensures f.path in items ==> items[f.path].Regular?
      {
        FileFits(items, root, manifest, f);
      }
    }
  }

  lemma FileFits(items: map<Path, Item>, root: seq<Entry>, manifest: seq<ManifestComponent>, f: FileAt)
    requires UniqueNames(root) && NoClash(items, root, manifest) && f in AllFiles(root, manifest)
    requires [] !in items
    ensures f.path != [] ==> FolderOrFree(items, f.path[..|f.path| - 1])
    ensures f.path in items ==> items[f.path].Regular?
  {
    hide ItemAt, AllDirs, AllFiles, Listed;
    assert f == FileAt(f.path, f.content);
    AllIsExact(root, manifest, f.path, f.content);
    ParentListed(root, manifest, f.path);
    if |f.path| > 1 {
      AllIsExact(root, manifest, f.path[..|f.path| - 1], []);
    }
  }

  /** Restores a snapshot into a target. */
  method RestoreInto(target: Target, s: Snapshot, parse: Parser, force: bool) returns (ok: bool)
    requires UniqueNames(s.root) && [] !in target.items
    modifies target
    ensures ok <==> Intact(s, parse) && Open(old(target.items), force)
                    && NoClash(old(target.items), s.root, s.manifest)
    ensures !ok ==> target.items == old(target.items)
    ensures ok ==> Restored(old(target.items), target.items, s.root, s.manifest)
  {
    hide Clean, AllowedRoot, ComponentIntact, Fits, NoClash, Sound, Open, Image, Restored;
    var plan := Preflight(s, parse);
    if plan.None? {
      return false;
    }
    FilesHavePaths(s.root, s.manifest);
    FitsIffNoClash(target.items, s.root, s.manifest);
    ok := InspectTarget(target, force, plan.value.0, plan.value.1);
    if !ok {
      return;
    }
    AllSound(s.root, s.manifest);
    ghost var before := target.items;
    ok := WriteRestore(target, plan.value.0, plan.value.1, force);
    ImageIsRestored(before, target.items, s.root, s.manifest);
  }

  lemma FilesHavePaths(root: seq<Entry>, manifest: seq<ManifestComponent>)
    requires UniqueNames(root)
    ensures forall f <- AllFiles(root, manifest) :: f.path != []
  {
    forall f <- AllFiles(root, manifest) ensures f.path != [] {
      assert f == FileAt(f.path, f.content);
      AllIsExact(root, manifest, f.path, f.content);
    }
  }

  // When a snapshot just taken can be restored

  predicate Free(es: seq<Entry>, token: Option<Name>) { token.Some? ==> NameFree(es, token.value) }

  /** What a restore asks of a tree that a backup wrote: no entry named like the token file, and no more nesting than
      the checking pass allows, counted from the root of the snapshot. */
  predicate Restorable(root: seq<Entry>, token: Option<Name>) {
    Free(root, token) && Height(root) <= MAX_SCAN_DEPTH
  }

  lemma {:induction false} KeptIsClean(es: seq<Entry>, token: Option<Name>, depth: nat)
    requires KeptEntries(es) && depth <= MAX_SCAN_DEPTH
    ensures CleanEntries(es, token, depth) <==> Free(es, token) && depth + Height(es) <= MAX_SCAN_DEPTH
    ensures ScannableEntries(es, token, depth) <==> Free(es, token) && depth + Height(es) <= MAX_SCAN_DEPTH
    decreases es
  {
    hide CredentialName;
    if es != [] {
      var e := es[|es| - 1];
      KeptIsClean(es[..|es| - 1], token, depth);
      if e.node.Dir? && depth < MAX_SCAN_DEPTH {
        KeptIsClean(e.node.entries, token, depth + 1);
        assert Clean(e.node, token, depth + 1) == CleanEntries(e.node.entries, token, depth + 1);
        assert Scannable(e.node, token, depth + 1) == ScannableEntries(e.node.entries, token, depth + 1);
      }
      assert ScannableEntry(e, token, depth) <==>
             !Suspicious(e.name, token) && (e.node.Dir? ==> Scannable(e.node, token, depth + 1));
    }
  }

  lemma {:induction false} PartOf(es: seq<Entry>, name: Name)
    ensures var node := Lookup(es, name);
            node.Some? && node.value.Dir? ==>
              && 1 + Height(node.value.entries) <= Height(es)
              && (forall token :: Free(es, token) ==> Free(node.value.entries, token))
  {
    if es != [] {
      PartOf(es[..|es| - 1], name);
    }
  }

  lemma SubIsKept(dir: Node, name: Name, at: Path, x: Exclusions)
    requires UniqueNode(dir)
    ensures Kept(SubCopy(dir, name, at, x)) && UniqueNames(SubCopy(dir, name, at, x))
  {
    var child := Child(dir, name);
    if child.Some? {
      UniqueChild(dir.entries, name);
      TreeCopyIsKept(child.value, at + [name], x, 0);
      TreeCopyIsUnique(child.value, at + [name], x, 0);
    }
    hide TreeCopy, Kept, CredentialName;
    assert KeptEntries([]) && Kept([]) by {
      EmptyIsKept();
    }
  }

  lemma EmptyIsKept()
    ensures KeptEntries([]) && Kept([]) && UniqueNames([])
  {
  }

  /** A component is kept and well named, whatever its source is. */
  lemma ComponentIsKept(home: Home, name: Component, token: Option<seq<Part>>)
    requires name != Config && UniqueHome(home)
    ensures Kept(ComponentCopy(home, name, token)) && UniqueNames(ComponentCopy(home, name, token))
  {
    EmptyIsKept();
    if name == Memory {
      if home.memory.Some? && home.memory.value.Dir? {
        var es, x := home.memory.value.entries, Exclusions(token, None);
        if |es| > MAX_SCAN_ENTRIES {
          UniqueTake(es, MAX_SCAN_ENTRIES);
        }
        ScopesAreKeptEntries(First(es), home.memoryAt, x);
      }
    } else if home.telegram.Some? && home.telegram.value.node.Some? {
      var data := home.telegram.value;
      SubIsKept(data.node.value, name.FileName(), data.at, Exclusions(token, Some(data.at + ["health.json"])));
    }
  }

  /** No directory lists a name twice. */
  predicate UniqueHome(home: Home) {
    && (home.memory.Some? ==> UniqueNode(home.memory.value))
    && (home.telegram.Some? && home.telegram.value.node.Some? ==> UniqueNode(home.telegram.value.node.value))
  }

  lemma {:induction false} ScopesAreKeptEntries(es: seq<Entry>, at: Path, x: Exclusions)
    requires UniqueNames(es)
    ensures KeptEntries(ScopesCopy(es, at, x)) && |ScopesCopy(es, at, x)| <= |es|
    ensures UniqueNames(ScopesCopy(es, at, x))
    ensures forall name :: Lookup(es, name).None? ==> Lookup(ScopesCopy(es, at, x), name).None?
  {
    EmptyIsKept();
    if es != [] {
      var init, e := es[..|es| - 1], es[|es| - 1];
      ScopesAreKeptEntries(init, at, x);
      var before, added := ScopesCopy(init, at, x), ScopeCopy(e.name, e.node, at + [e.name], x);
      if added == [] {
        assert before + added == before;
      } else {
        ScopeIsKept(e.name, e.node, at + [e.name], x);
        hide ScopeCopy, ValidScope, CredentialName;
        KeptSnoc(before, added[0]);
        assert (before + added)[..|before|] == before;
      }
    }
  }

  lemma ScopeIsKept(name: Name, node: Node, at: Path, x: Exclusions)
    requires ScopeCopy(name, node, at, x) != [] && UniqueNode(node)
    ensures var added := ScopeCopy(name, node, at, x);
            && |added| == 1 && added[0].name == name && !CredentialName(name)
            && added[0].node.Dir? && Kept(added[0].node.entries) && UniqueNames(added[0].node.entries)
  {
    ScopesAreKept(name);
    SubIsKept(node, "state", at, x);
    SubIsKept(node, "memories", at, x);
    TreeNames();
    PairIsKept("state", SubCopy(node, "state", at, x), "memories", SubCopy(node, "memories", at, x));
    hide CredentialName, ValidScope, SubCopy, Kept, UniqueNames;
  }

  lemma PairIsKept(n: Name, a: seq<Entry>, m: Name, b: seq<Entry>)
    requires Kept(a) && Kept(b) && UniqueNames(a) && UniqueNames(b)
    requires n != m && !CredentialName(n) && !CredentialName(m)
    ensures Kept([Entry(n, Dir(a)), Entry(m, Dir(b))]) && UniqueNames([Entry(n, Dir(a)), Entry(m, Dir(b))])
  {
    hide CredentialName;
    var one, two := [Entry(n, Dir(a))], [Entry(n, Dir(a)), Entry(m, Dir(b))];
    EmptyIsKept();
    assert one[..0] == [] && two[..1] == one;
    assert Lookup([], m).None? && Lookup(one, m).None?;
    assert KeptEntries(one) && UniqueNames(one);
  }

  /** The names the backup itself gives are not credential names. */
  lemma TreeNames()
    ensures !CredentialName("state") && !CredentialName("memories")
  {
    PlainName("state");
    PlainName("memories");
  }

  lemma RootNames()
    ensures !CredentialName("memory") && !CredentialName("conversations") && !CredentialName("journals")
    ensures !CredentialName(MANIFEST) && !CredentialName("config.toml")
  {
    PlainName("memory");
    PlainName("conversations");
    PlainName("journals");
    PlainName(MANIFEST);
    ConfigIsKept();
  }

  lemma PlainName(name: Name)
    requires forall i :: 0 <= i < |name| ==> name[i] != 'k' && (name[i] == 'c' ==> i < 2) && !('A' <= name[i] <= 'Z')
    ensures !CredentialName(name)
  {
    CredentialLetters(name);
    assert Lower(name) == name;
    hide *;
    assert |name| > 2 ==> 'c' !in name[2..];
  }

  lemma NamesDiffer()
    ensures MANIFEST != "config.toml" && MANIFEST != "memory" && MANIFEST != "conversations" && MANIFEST != "journals"
    ensures "config.toml" != "memory" && "config.toml" != "conversations" && "config.toml" != "journals"
    ensures "memory" != "conversations" && "memory" != "journals" && "conversations" != "journals"
  {
    assert |MANIFEST| == 13 && |"config.toml"| == 11 && |"memory"| == 6 && |"conversations"| == 13 && |"journals"| == 8;
    assert MANIFEST[0] != "conversations"[0];
  }

  /** A well-formed tree stays so when one new entry is added, and the earlier entries stay where they are. */
  lemma AddEntry(es: seq<Entry>, name: Name, node: Node)
    requires KeptEntries(es) && UniqueNames(es) && Lookup(es, name).None? && !CredentialName(name)
    requires node.File? || (node.Dir? && Kept(node.entries) && UniqueNames(node.entries))
    ensures KeptEntries(es + [Entry(name, node)]) && UniqueNames(es + [Entry(name, node)])
    ensures forall other ::
              Lookup(es + [Entry(name, node)], other) == if other == name then Some(node) else Lookup(es, other)
  {
    hide CredentialName;
    KeptSnoc(es, Entry(name, node));
    assert (es + [Entry(name, node)])[..|es|] == es;
  }

  /** The root of a snapshot: well formed, and where to find what. */
  ghost predicate Shaped(root: seq<Entry>, manifest: Content, config: Node, memory: seq<Entry>,
                         telegram: Option<(seq<Entry>, seq<Entry>)>)
  {
    && Kept(root) && UniqueNames(root)
    && forall name :: Lookup(root, name) ==
         if name == MANIFEST then Some(File(manifest))
         else if name == "config.toml" then Some(config)
         else if name == "memory" then Some(Dir(memory))
         else if name == "conversations" && telegram.Some? then Some(Dir(telegram.value.0))
         else if name == "journals" && telegram.Some? then Some(Dir(telegram.value.1))
         else None
  }

  ghost predicate RootOf(root: seq<Entry>, home: Home, token: Option<seq<Part>>, manifest: Content) {
    home.config.Some?
    && Shaped(root, manifest, home.config.value, ComponentCopy(home, Memory, token), TelegramCopies(home, token))
  }

  lemma CapturedIsRoot(home: Home, token: Option<seq<Part>>, manifest: Content)
    requires home.config.Some? && home.config.value.File? && UniqueHome(home)
    ensures RootOf(Captured(home, token, manifest), home, token, manifest)
  {
    ComponentIsKept(home, Memory, token);
    if home.telegram.Some? {
      ComponentIsKept(home, Conversations, token);
      ComponentIsKept(home, Journals, token);
    }
    assert ComponentCopy(home, Config, token) == [Entry("config.toml", home.config.value)];
    hide Shaped, ComponentCopy, Kept, UniqueNames, RootTree;
    RootIsShaped(manifest, home.config.value, ComponentCopy(home, Memory, token), TelegramCopies(home, token));
  }

  predicate GoodTree(es: seq<Entry>) { Kept(es) && UniqueNames(es) }

  lemma RootIsShaped(manifest: Content, config: Node, memory: seq<Entry>, telegram: Option<(seq<Entry>, seq<Entry>)>)
    requires config.File? && GoodTree(memory)
    requires telegram.Some? ==> GoodTree(telegram.value.0) && GoodTree(telegram.value.1)
    ensures Shaped(RootTree(manifest, [Entry("config.toml", config)], memory, telegram), manifest, config, memory,
                   telegram)
  {
    var root := RootTree(manifest, [Entry("config.toml", config)], memory, telegram);
    var three := [Entry(MANIFEST, File(manifest)), Entry("config.toml", config), Entry("memory", Dir(memory))];
    FirstThree(manifest, config, Dir(memory));
    if telegram.None? {
      assert root == three;
    } else {
      assert root == three + [Entry("conversations", Dir(telegram.value.0)), Entry("journals", Dir(telegram.value.1))];
      NamesDiffer();
      AddTwo(three, Dir(telegram.value.0), Dir(telegram.value.1));
    }
    KeptRoot(root);
    hide RootTree, Kept, KeptEntries, UniqueNames, Lookup;
  }

  lemma FirstThree(manifest: Content, config: Node, memory: Node)
    requires config.File? && memory.Dir? && Kept(memory.entries) && UniqueNames(memory.entries)
    ensures var three := [Entry(MANIFEST, File(manifest)), Entry("config.toml", config), Entry("memory", memory)];
            && KeptEntries(three) && UniqueNames(three)
            && forall name :: Lookup(three, name) ==
                 if name == MANIFEST then Some(File(manifest)) else if name == "config.toml" then Some(config)
                 else if name == "memory" then Some(memory) else None
  {
    RootNames();
    NamesDiffer();
    EmptyIsKept();
    assert forall name :: Lookup([], name).None?;
    hide CredentialName, KeptEntries, Kept, UniqueNames, Lookup;
    var r1, r2 := [Entry(MANIFEST, File(manifest))], [Entry(MANIFEST, File(manifest)), Entry("config.toml", config)];
    AddEntry([], MANIFEST, File(manifest));
    assert [] + r1 == r1;
    AddEntry(r1, "config.toml", config);
    assert r1 + [Entry("config.toml", config)] == r2;
    AddEntry(r2, "memory", memory);
    assert r2 + [Entry("memory", memory)]
        == [Entry(MANIFEST, File(manifest)), Entry("config.toml", config), Entry("memory", memory)];
  }

  lemma AddTwo(es: seq<Entry>, c: Node, j: Node)
    requires KeptEntries(es) && UniqueNames(es)
    requires Lookup(es, "conversations").None? && Lookup(es, "journals").None?
    requires c.Dir? && Kept(c.entries) && UniqueNames(c.entries) && j.Dir? && Kept(j.entries) && UniqueNames(j.entries)
    ensures var more := es + [Entry("conversations", c), Entry("journals", j)];
            && KeptEntries(more) && UniqueNames(more)
            && forall name :: Lookup(more, name) ==
                 if name == "conversations" then Some(c) else if name == "journals" then Some(j) else Lookup(es, name)
  {
    RootNames();
    NamesDiffer();
    hide CredentialName, KeptEntries, Kept, UniqueNames, Lookup;
    AddEntry(es, "conversations", c);
    AddEntry(es + [Entry("conversations", c)], "journals", j);
    assert es + [Entry("conversations", c)] + [Entry("journals", j)]
        == es + [Entry("conversations", c), Entry("journals", j)];
  }

  lemma KeptRoot(root: seq<Entry>)
    requires KeptEntries(root) && |root| <= 5
    ensures Kept(root)
  {
  }

  /** A snapshot just taken passes the checks of the restore if and only if it is restorable: the backup and the
      restore count depth from different roots, and know the token file by path and by name. */
  lemma IntactIffRestorable(home: Home, parse: Parser, manifest: Content)
    requires Capturable(home, parse) && UniqueHome(home)
    ensures var token := home.Token(parse); var root := Captured(home, token, manifest);
            var name := if token.None? then None else FileName(token.value);
            && UniqueNames(root)
            && TokenName(root, parse) == name
            && (Intact(Snapshot(root, ManifestOf(home, token)), parse) <==> Restorable(root, name))
  {
    var token := home.Token(parse);
    var root := Captured(home, token, manifest);
    var name := if token.None? then None else FileName(token.value);
    CapturedIsRoot(home, token, manifest);
    var records := ManifestOf(home, token);
    assert TokenName(root, parse) == name;
    CleanRoot(root, name);
    ManifestIsValid(home, token);
    if Restorable(root, name) {
      forall c <- records ensures ComponentIntact(root, c, name) {
        RecordIntact(home, token, manifest, root, c, name);
      }
      RootAllowed(home, token, manifest, root);
    }
    hide CredentialName, RootOf, Restorable, Clean, ValidManifest, AllowedRoot, ComponentIntact, ManifestOf, Captured;
  }

  lemma CleanRoot(root: seq<Entry>, token: Option<Name>)
    requires Kept(root)
    ensures Clean(Dir(root), token, 0) <==> Restorable(root, token)
  {
    KeptIsClean(root, token, 0);
    hide CredentialName;
  }

  /** The manifest names each component once, and records what it holds. */
  lemma ManifestLines(home: Home, token: Option<seq<Part>>)
    ensures var m := ManifestOf(home, token);
            && |m| == (if home.telegram.None? then 2 else 4)
            && m[0].name == Config && m[1].name == Memory
            && (home.telegram.Some? ==> m[2].name == Conversations && m[3].name == Journals)
            && forall i :: 0 <= i < |m| ==> m[i] == RecordOf(home, m[i].name, token)
  {
    hide ComponentCopy, ComponentWhole, Files, Bytes;
  }

  lemma ManifestIsValid(home: Home, token: Option<seq<Part>>)
    ensures ValidManifest(ManifestOf(home, token))
  {
    ManifestLines(home, token);
    hide ManifestOf, RecordOf;
    var m := ManifestOf(home, token);
    assert m[0] in m && m[1] in m;
  }

  lemma RecordIntact(home: Home, token: Option<seq<Part>>, manifest: Content, root: seq<Entry>, c: ManifestComponent,
                     name: Option<Name>)
    requires RootOf(root, home, token, manifest) && home.config.value.File? && CountsFit(home, token)
    requires c in ManifestOf(home, token) && UniqueHome(home) && Restorable(root, name)
    ensures ComponentIntact(root, c, name)
  {
    ManifestLines(home, token);
    FoundAt(root, home, token, manifest, c.name);
    assert Countable(c);
    hide ManifestOf, RootOf, CountsFit;
    if c.name == Config {
      RootNames();
      OneEntry("config.toml", home.config.value);
      EntryFree(root, "config.toml", name);
      hide CredentialName, ComponentWhole;
    } else {
      ComponentIsKept(home, c.name, token);
      TreeIntact(root, c, name, ComponentCopy(home, c.name, token));
      hide *;
    }
  }

  lemma TreeIntact(root: seq<Entry>, c: ManifestComponent, name: Option<Name>, copy: seq<Entry>)
    requires c.name != Config && Lookup(root, c.name.FileName()) == Some(Dir(copy))
    requires Kept(copy) && Restorable(root, name)
    requires Countable(c) && c.fileCount == Files(copy) && c.byteCount == Bytes(copy)
    ensures ComponentIntact(root, c, name)
  {
    PartOf(root, c.name.FileName());
    KeptIsClean(copy, name, 0);
    hide CredentialName, KeptEntries, NodeDirs, NodeFiles;
  }

  lemma FoundAt(root: seq<Entry>, home: Home, token: Option<seq<Part>>, manifest: Content, name: Component)
    requires RootOf(root, home, token, manifest)
    requires name in {Conversations, Journals} ==> home.telegram.Some?
    ensures Lookup(root, name.FileName()) ==
            if name == Config then home.config else Some(Dir(ComponentCopy(home, name, token)))
  {
    NamesDiffer();
    hide ComponentCopy, Kept, UniqueNames, Lookup;
  }

  lemma {:induction false} EntryFree(es: seq<Entry>, name: Name, token: Option<Name>)
    requires Lookup(es, name).Some? && Free(es, token)
    ensures token != Some(name)
  {
    if es[|es| - 1].name != name {
      EntryFree(es[..|es| - 1], name, token);
    }
  }

  lemma RootAllowed(home: Home, token: Option<seq<Part>>, manifest: Content, root: seq<Entry>)
    requires RootOf(root, home, token, manifest)
    ensures AllowedRoot(root, ManifestOf(home, token))
  {
    ManifestLines(home, token);
    hide ManifestOf, RecordOf, ComponentCopy, Kept, UniqueNames;
    var m := ManifestOf(home, token);
    assert m[0] in m && m[1] in m && (home.telegram.Some? ==> m[2] in m && m[3] in m);
    forall e <- root ensures e.name == MANIFEST || exists c <- m :: c.name.FileName() == e.name {
      EntryFound(root, e);
    }
  }

  lemma {:induction false} EntryFound(es: seq<Entry>, e: Entry)
    requires e in es
    ensures Lookup(es, e.name).Some?
  {
    if es[|es| - 1] != e {
      assert es == es[..|es| - 1] + [es[|es| - 1]];
      EntryFound(es[..|es| - 1], e);
    }
  }

  // The round trip

  /** Takes a snapshot and restores it into a target. */
  method BackupAndRestore(home: Home, parse: Parser, manifest: Content, target: Target, force: bool)
    returns (s: Option<Snapshot>, restored: bool)
    requires UniqueHome(home) && [] !in target.items
    modifies target
    ensures s.Some? <==> Capturable(home, parse)
    ensures s.Some? ==>
              var token := home.Token(parse);
              && s.value.root == Captured(home, token, manifest) && s.value.manifest == ManifestOf(home, token)
              && (restored <==> Restorable(s.value.root, if token.None? then None else FileName(token.value))
                                && Open(old(target.items), force)
                                && NoClash(old(target.items), s.value.root, s.value.manifest))
    ensures restored ==> s.Some? && Restored(old(target.items), target.items, s.value.root, s.value.manifest)
    ensures !restored ==> target.items == old(target.items)
  {
    hide Capturable, Captured, ManifestOf, Intact, Restorable, Restored, Open, NoClash;
    restored := false;
    s := Create(home, parse, manifest);
    if s.None? {
      return;
    }
    IntactIffRestorable(home, parse, manifest);
    restored := RestoreInto(target, s.value, parse, force);
  }

  /** A copied tree, when no warning was due, holds exactly what its source holds and does not exclude. */
  lemma SubIsExact(dir: Node, name: Name, at: Path, x: Exclusions, p: Path)
    requires UniqueNode(dir) && SubWhole(dir, name, at, x) && p != []
    ensures ItemAt(SubCopy(dir, name, at, x), p) ==
            if Hidden(at + [name], p, x) then None else ItemAt(Child(dir, name).value.entries, p)
  {
    var child := Child(dir, name).value;
    UniqueChild(dir.entries, name);
    WholeIsPruned(child.entries, at + [name], x, 0);
    PrunedIsExact(child.entries, at + [name], x, p);
    assert First(child.entries) == child.entries;
    hide CredentialName, Hidden, ItemAt;
  }

  /** What a path below a node leads to, if the node is there. */
  function SourceItem(node: Option<Node>, p: Path): Option<Item> {
    if node.None? then None else ItemOf(node.value, p)
  }

  /** End to end for the Telegram trees: without a warning in the manifest, the restored tree is the source tree, path
      by path, except for what is excluded. */
  lemma RestoredTelegram(
      before: map<Path, Item>, items: map<Path, Item>, home: Home, token: Option<seq<Part>>, manifest: Content,
      tree: Component, p: Path)
    requires UniqueHome(home) && home.config.Some? && home.config.value.File? && p != []
    requires tree in {Conversations, Journals} && home.telegram.Some?
    requires !RecordOf(home, tree, token).warned
    requires Restored(before, items, Captured(home, token, manifest), ManifestOf(home, token))
    ensures var data := home.telegram.value; var name := tree.FileName();
            var source := SourceItem(if data.node.None? then None else Child(data.node.value, name), p);
            var there := [name] + p;
            var x := Exclusions(token, Some(data.at + ["health.json"]));
            if Hidden(data.at + [name], p, x) || source.None? then Same(before, items, there)
            else there in items && items[there] == source.value
  {
    var data, name := home.telegram.value, tree.FileName();
    var there := [name] + p;
    SubIsExact(data.node.value, name, data.at, Exclusions(token, Some(data.at + ["health.json"])), p);
    CapturedIsRoot(home, token, manifest);
    var root := Captured(home, token, manifest);
    FoundAt(root, home, token, manifest, tree);
    assert there[0] == name && there[1..] == p;
    assert ItemAt(root, there) == ItemAt(ComponentCopy(home, tree, token), p);
    ManifestLines(home, token);
    var m := ManifestOf(home, token);
    assert (if tree == Conversations then m[2] else m[3]) in m;
    assert Listed(m, name);
    assert RestoredAt(before, items, root, m, there);
    hide CredentialName, Hidden, ItemAt, Captured, ManifestOf, RootOf;
  }

  lemma AtChild(es: seq<Entry>, name: Name, inner: seq<Entry>, p: Path)
    requires Lookup(es, name) == Some(Dir(inner))
    ensures ItemAt(es, [name] + p) == ItemAt(inner, p)
  {
    assert ([name] + p)[1..] == p;
  }

  lemma {:induction false} ScopeAt(es: seq<Entry>, at: Path, x: Exclusions, scope: Name)
    requires UniqueNames(es) && ValidScope(scope) && Lookup(es, scope).Some? && ScopesWhole(es, at, x)
    ensures var node := Lookup(es, scope).value;
            && ScopeWhole(scope, node, at + [scope], x)
            && ScopeCopy(scope, node, at + [scope], x) != []
            && Lookup(ScopesCopy(es, at, x), scope) == Some(ScopeCopy(scope, node, at + [scope], x)[0].node)
  {
    hide ValidScope, SubCopy, SubWhole;
    var init, e := es[..|es| - 1], es[|es| - 1];
    var before, added := ScopesCopy(init, at, x), ScopeCopy(e.name, e.node, at + [e.name], x);
    if e.name != scope {
      ScopeAt(init, at, x, scope);
    }
    if added == [] {
      assert before + added == before;
    } else {
      LookupSnoc(before, added[0], scope);
      assert before + added == before + [added[0]];
    }
  }

  /** End to end for the memory: without a warning, the two trees of every scope come back as they were, except for
      what is excluded. */
  lemma RestoredMemory(
      before: map<Path, Item>, items: map<Path, Item>, home: Home, token: Option<seq<Part>>, manifest: Content,
      scope: Name, tree: Name, p: Path)
    requires UniqueHome(home) && home.config.Some? && home.config.value.File? && p != []
    requires tree == "state" || tree == "memories"
    requires home.memory.Some? && !RecordOf(home, Memory, token).warned && ValidScope(scope)
    requires home.memory.value.Dir? && Lookup(home.memory.value.entries, scope).Some?
    requires Restored(before, items, Captured(home, token, manifest), ManifestOf(home, token))
    ensures var node := Lookup(home.memory.value.entries, scope).value;
            var at := home.memoryAt + [scope] + [tree];
            var source := SourceItem(Child(node, tree), p);
            var there := ["memory"] + ([scope] + ([tree] + p));
            if Hidden(at, p, Exclusions(token, None)) || source.None? then Same(before, items, there)
            else there in items && items[there] == source.value
  {
    var es, x, at := home.memory.value.entries, Exclusions(token, None), home.memoryAt + [scope];
    var node := Lookup(es, scope).value;
    UniqueChild(es, scope);
    assert First(es) == es;
    ScopeAt(es, home.memoryAt, x, scope);
    SubIsExact(node, tree, at, x, p);
    var copy := ScopesCopy(es, home.memoryAt, x);
    TreeAt(copy, scope, node, at, x, tree, p);
    ThereInMemory(before, items, home, token, manifest, [scope] + ([tree] + p));
    hide CredentialName, Hidden, ItemAt, Captured, ManifestOf, SubCopy, SubWhole, Restored, ScopesCopy, ScopesWhole,
         ValidScope;
    assert ComponentCopy(home, Memory, token) == copy;
  }

  lemma TreeAt(copy: seq<Entry>, scope: Name, node: Node, at: Path, x: Exclusions, tree: Name, p: Path)
    requires tree == "state" || tree == "memories"
    requires ScopeCopy(scope, node, at, x) != []
    requires Lookup(copy, scope) == Some(ScopeCopy(scope, node, at, x)[0].node)
    ensures ItemAt(copy, [scope] + ([tree] + p)) == ItemAt(SubCopy(node, tree, at, x), p)
  {
    hide SubCopy, ValidScope;
    var state, memories := SubCopy(node, "state", at, x), SubCopy(node, "memories", at, x);
    var two := [Entry("state", Dir(state)), Entry("memories", Dir(memories))];
    AtChild(copy, scope, two, [tree] + p);
    assert two[..1] == [Entry("state", Dir(state))] && two[..1][..0] == [];
    assert Lookup(two[..1], "state") == Some(Dir(state));
    assert |"state"| != |"memories"|;
    assert Lookup(two, tree) == Some(Dir(SubCopy(node, tree, at, x)));
    AtChild(two, tree, SubCopy(node, tree, at, x), p);
  }

  lemma ThereInMemory(
      before: map<Path, Item>, items: map<Path, Item>, home: Home, token: Option<seq<Part>>, manifest: Content, p: Path)
    requires UniqueHome(home) && home.config.Some? && home.config.value.File? && p != []
    requires Restored(before, items, Captured(home, token, manifest), ManifestOf(home, token))
    ensures var there, item := ["memory"] + p, ItemAt(ComponentCopy(home, Memory, token), p);
            if item.Some? then there in items && item == Some(items[there]) else Same(before, items, there)
  {
    var root := Captured(home, token, manifest);
    CapturedIsRoot(home, token, manifest);
    FoundAt(root, home, token, manifest, Memory);
    AtChild(root, "memory", ComponentCopy(home, Memory, token), p);
    ManifestLines(home, token);
    var m := ManifestOf(home, token);
    assert m[1] in m && Listed(m, "memory");
    assert (["memory"] + p)[0] == "memory";
    assert RestoredAt(before, items, root, m, ["memory"] + p);
    hide ItemAt, Captured, ManifestOf, RootOf, ComponentCopy, Listed;
  }

  // Snapshots that the backup takes and the restore refuses

  /** A home with one Telegram tree, and nothing else beside its configuration. */
  function TreeHome(tree: seq<Entry>): Home {
    Home(["home", "config.toml"], Some(File([])), ["home", "memory"], None,
         Some(DataDir(["data"], Some(Dir([Entry("conversations", Dir(tree))])))))
  }

  /** Directories nested n deep. */
  function Chain(n: nat): seq<Entry> {
    if n == 0 then [] else [Entry("d", Dir(Chain(n - 1)))]
  }

  lemma {:induction false} ChainSize(n: nat)
    ensures Height(Chain(n)) == n && Files(Chain(n)) == 0 && Bytes(Chain(n)) == 0
    ensures UniqueNames(Chain(n)) && |Chain(n)| <= 1
  {
    if n > 0 {
      ChainSize(n - 1);
      OneEntry("d", Dir(Chain(n - 1)));
      var es := Chain(n);
      assert es[..0] == [];
      assert Lookup(es[..0], "d").None? && UniqueNames(es[..0]) && Height(es[..0]) == 0;
    }
  }

  /** No exclusion concerns a directory called d. */
  lemma ChainNamed(at: Path, x: Exclusions)
    requires x.token.None? && x.health == Some(["data", "health.json"])
    ensures !x.Exclude(at + ["d"], "d")
  {
    PlainName("d");
    var there := at + ["d"];
    assert |there| == 2 ==> there[1] == "d";
    assert |"d"| == 1 && |"health.json"| == 11 && |TOKEN_LOCK| == 20;
    hide CredentialName;
  }

  lemma {:induction false} ChainCopy(n: nat, at: Path, x: Exclusions, depth: nat)
    requires depth + n <= MAX_SCAN_DEPTH + 1 && x.token.None? && x.health == Some(["data", "health.json"])
    ensures TreeCopy(Dir(Chain(n)), at, x, depth) == Chain(n)
  {
    if n > 0 {
      ChainCopy(n - 1, at + ["d"], x, depth + 1);
      ChainNamed(at, x);
      hide Chain;
      OneDirCopied("d", Chain(n - 1), at, x, depth);
      assert Chain(n) == [Entry("d", Dir(Chain(n - 1)))] by {
        ChainIs(n);
      }
    }
  }

  lemma ChainIs(n: nat)
    requires n > 0
    ensures Chain(n) == [Entry("d", Dir(Chain(n - 1)))]
  {
  }

  lemma OneDirCopied(name: Name, inner: seq<Entry>, at: Path, x: Exclusions, depth: nat)
    requires !x.Exclude(at + [name], name) && depth <= MAX_SCAN_DEPTH
    ensures TreeCopy(Dir([Entry(name, Dir(inner))]), at, x, depth) ==
            [Entry(name, Dir(TreeCopy(Dir(inner), at + [name], x, depth + 1)))]
  {
    hide CredentialName, Normalize;
    var one, d := [Entry(name, Dir(inner))], Dir(inner);
    assert one[..0] == [] && Copied(one[..0], at, x, depth) == [];
    assert CopyOf(name, d, at + [name], x, depth) == [Entry(name, Dir(TreeCopy(d, at + [name], x, depth + 1)))];
  }

  /** What the backup copies of that tree. */
  function TreeHomeCopy(tree: seq<Entry>, token: Option<seq<Part>>): seq<Entry> {
    TreeCopy(Dir(tree), ["data", "conversations"], Exclusions(token, Some(["data", "health.json"])), 0)
  }

  /** A snapshot of such a home is taken, whatever its tree is; if what was copied of the tree is nested too deep or
      holds a namesake of the token file, the restore refuses it. */
  lemma TreeHomeTaken(tree: seq<Entry>, token: Option<seq<Part>>, manifest: Content)
    requires UniqueNames(tree) && (token.Some? ==> Normalize(token.value) != ["home", "config.toml"])
    requires Files(TreeHomeCopy(tree, token)) <= U64_MAX && Bytes(TreeHomeCopy(tree, token)) <= U64_MAX
    ensures var home := TreeHome(tree); var parse := (c: Content) => Some(token);
            var copy := TreeHomeCopy(tree, token);
            var name := if token.None? then None else FileName(token.value);
            && Capturable(home, parse)
            && (Height(copy) >= MAX_SCAN_DEPTH || !Free(copy, name) ==>
                  !Intact(Snapshot(Captured(home, token, manifest), ManifestOf(home, token)), parse))
  {
    var home, copy := TreeHome(tree), TreeHomeCopy(tree, token);
    var parse := (c: Content) => Some(token);
    var root := Captured(home, token, manifest);
    TreeHomeCounts(tree, token);
    TreeHomeFits(tree, token);
    assert Capturable(home, parse) by {
      hide CountsFit, Normalize;
    }
    hide CountsFit, Capturable, TreeHomeCopy, Captured, ManifestOf, Intact;
    IntactIffRestorable(home, parse, manifest);
    CapturedIsRoot(home, token, manifest);
    FoundAt(root, home, token, manifest, Conversations);
    PartOf(root, "conversations");
    hide RootOf, ComponentCopy, Height, NameFree;
  }

  /** The conversations are all the home holds beside its configuration. */
  lemma TreeHomeCounts(tree: seq<Entry>, token: Option<seq<Part>>)
    requires UniqueNames(tree)
    ensures ComponentCopy(TreeHome(tree), Conversations, token) == TreeHomeCopy(tree, token)
    ensures ComponentCopy(TreeHome(tree), Journals, token) == [] && ComponentCopy(TreeHome(tree), Memory, token) == []
    ensures UniqueHome(TreeHome(tree))
  {
    var data := [Entry("conversations", Dir(tree))];
    assert data[..0] == [];
    assert Lookup(data[..0], "conversations").None? && Lookup(data[..0], "journals").None?;
    assert Lookup(data, "conversations") == Some(Dir(tree));
    assert |"conversations"| != |"journals"|;
    assert Lookup(data, "journals").None?;
    assert ["data"] + ["conversations"] == ["data", "conversations"];
    assert ["data"] + ["health.json"] == ["data", "health.json"];
    hide TreeCopy;
  }

  lemma TreeHomeFits(tree: seq<Entry>, token: Option<seq<Part>>)
    requires UniqueNames(tree)
    requires Files(TreeHomeCopy(tree, token)) <= U64_MAX && Bytes(TreeHomeCopy(tree, token)) <= U64_MAX
    ensures CountsFit(TreeHome(tree), token)
  {
    TreeHomeCounts(tree, token);
    NoScopes([], [], Exclusions(None, None));
    OneEntry("config.toml", File([]));
    assert ComponentCopy(TreeHome(tree), Config, token) == [Entry("config.toml", File([]))];
    hide ComponentCopy, ComponentWhole, TreeHomeCopy, Files, Bytes, TreeHome, RecordOf;
    RecordFits(TreeHome(tree), Config, token);
    RecordFits(TreeHome(tree), Memory, token);
    RecordFits(TreeHome(tree), Conversations, token);
    RecordFits(TreeHome(tree), Journals, token);
  }

  lemma RecordFits(home: Home, name: Component, token: Option<seq<Part>>)
    requires Files(ComponentCopy(home, name, token)) <= U64_MAX && Bytes(ComponentCopy(home, name, token)) <= U64_MAX
    ensures Countable(RecordOf(home, name, token))
  {
    hide ComponentCopy, ComponentWhole, Files, Bytes;
  }

  /** Sixty-four directories nested in the conversations are copied, one too many for the restore, whose depth counts
      from the root of the snapshot. */
  lemma DeepTreeIsRefused(n: nat, manifest: Content)
    requires n == MAX_SCAN_DEPTH
    ensures var home := TreeHome(Chain(n)); var parse := (c: Content) => Some(None);
            && Capturable(home, parse)
            && TreeHomeCopy(Chain(n), None) == Chain(n)
            && !Intact(Snapshot(Captured(home, None, manifest), ManifestOf(home, None)), parse)
  {
    ChainCopy(n, ["data", "conversations"], Exclusions(None, Some(["data", "health.json"])), 0);
    ChainSize(n);
    hide Chain, TreeHome, Capturable, Intact, Captured, ManifestOf, Height, Files, Bytes;
    TreeHomeTaken(Chain(n), None, manifest);
  }

  lemma NormalizeTwo(a: Name, b: Name)
    ensures Normalize([Normal(a), Normal(b)]) == [a, b]
  {
    var two := [Normal(a), Normal(b)];
    assert two[..1] == [Normal(a)] && two[..1][..0] == [];
    assert Normalize(two[..1][..0]) == [];
    assert Normalize(two[..1]) == [a];
  }

  lemma NamesakeCopied(dir: Name, name: Name, tree: seq<Entry>)
    requires name == "bot" && dir == "etc" && tree == [Entry(name, File([]))]
    ensures TreeHomeCopy(tree, Some([Normal(dir), Normal(name)])) == tree
  {
    NormalizeTwo(dir, name);
    PlainName(name);
    var x := Exclusions(Some([Normal(dir), Normal(name)]), Some(["data", "health.json"]));
    var at := ["data", "conversations"];
    hide CredentialName, Normalize, Copied, TreeCopy;
    assert |at + [name]| == 3 && |TOKEN_LOCK| == 20 && !x.Exclude(at + [name], name);
    OneCopied(name, at, x);
    assert TreeCopy(Dir(tree), at, x, 0) == tree;
  }

  lemma OneCopied(name: Name, at: Path, x: Exclusions)
    requires !x.Exclude(at + [name], name)
    ensures TreeCopy(Dir([Entry(name, File([]))]), at, x, 0) == [Entry(name, File([]))]
  {
    hide CredentialName, Normalize;
    var tree := [Entry(name, File([]))];
    assert tree[..0] == [] && Copied(tree[..0], at, x, 0) == [];
    assert CopyOf(name, File([]), at + [name], x, 0) == tree;
  }

  /** A file in the conversations that only shares its name with the token file is copied too, and then taken for it. */
  lemma NamesakeIsRefused(dir: Name, name: Name, tree: seq<Entry>, manifest: Content)
    requires name == "bot" && dir == "etc" && tree == [Entry(name, File([]))]
    ensures var home := TreeHome(tree); var token := Some([Normal(dir), Normal(name)]);
            var parse := (c: Content) => Some(token);
            && Capturable(home, parse)
            && TreeHomeCopy(tree, token) == tree
            && !Intact(Snapshot(Captured(home, token, manifest), ManifestOf(home, token)), parse)
  {
    var raw := [Normal(dir), Normal(name)];
    NamesakeCopied(dir, name, tree);
    NormalizeTwo(dir, name);
    OneEntry(name, File([]));
    OneUnique(name);
    assert |dir| == 3 && |"home"| == 4 && [dir, name][0] != ["home", "config.toml"][0];
    assert FileName(raw) == Some(name);
    hide *;
    TreeHomeTaken(tree, Some(raw), manifest);
  }

  lemma OneUnique(name: Name)
    ensures var one := [Entry(name, File([]))]; UniqueNames(one) && !Free(one, Some(name))
  {
    var one := [Entry(name, File([]))];
    assert one[..0] == [];
    assert Lookup(one[..0], name).None? && UniqueNames(one[..0]);
  }
}
