/** Directory trees: what a path holds, and the counts and lists a walk gathers. */
module Trees {
  import opened Common

  type Name = string
  type Path = seq<Name>
  type Content = seq<bv8>

  /** Sealed files and directories are those that cannot be read. */
  datatype Node = File(content: Content) | Dir(entries: seq<Entry>) | SealedFile | SealedDir | Link | Special
  {
    predicate Directory() { Dir? || SealedDir? }
  }

  datatype Entry = Entry(name: Name, node: Node)

  /** What may be found at a path; other things are links and devices. */
  datatype Item = Folder | Regular(content: Content) | Other

  datatype FileAt = FileAt(path: Path, content: Content)

  function Lookup(es: seq<Entry>, name: Name): Option<Node> {
    if es == [] then None
    else if es[|es| - 1].name == name then Some(es[|es| - 1].node)
    else Lookup(es[..|es| - 1], name)
  }

  /** What a path leads to, from these entries or from a node. */
  function ItemAt(es: seq<Entry>, p: Path): Option<Item>
    decreases |p|, 0
  {
    if p == [] then Some(Folder)
    else
      var node := Lookup(es, p[0]);
      if node.None? then None else ItemOf(node.value, p[1..])
  }

  function ItemOf(node: Node, p: Path): Option<Item>
    decreases |p|, 1
  {
    match node
    case File(content) => if p == [] then Some(Regular(content)) else None
    case Dir(entries) => ItemAt(entries, p)
    case _ => None
  }

  /** No directory holds the same name twice. */
  predicate UniqueNames(es: seq<Entry>) {
    es == [] ||
    var init, e := es[..|es| - 1], es[|es| - 1];
    && UniqueNames(init)
    && Lookup(init, e.name).None?
    && (e.node.Dir? ==> UniqueNames(e.node.entries))
  }

  function Files(es: seq<Entry>): nat {
    if es == [] then 0
    else
      var e := es[|es| - 1];
      Files(es[..|es| - 1]) + match e.node case File(_) => 1 case Dir(inner) => Files(inner) case _ => 0
  }

  function Bytes(es: seq<Entry>): nat {
    if es == [] then 0
    else
      var e := es[|es| - 1];
      Bytes(es[..|es| - 1]) + match e.node case File(content) => |content| case Dir(inner) => Bytes(inner) case _ => 0
  }

  /** How many directories are nested below these entries. */
  function Height(es: seq<Entry>): nat {
    if es == [] then 0
    else
      var e := es[|es| - 1];
      Max(Height(es[..|es| - 1]), if e.node.Dir? then 1 + Height(e.node.entries) else 0)
  }

  /** No entry anywhere has this name. */
  predicate NameFree(es: seq<Entry>, name: Name) {
    es == [] ||
    var e := es[|es| - 1];
    && NameFree(es[..|es| - 1], name)
    && e.name != name
    && (e.node.Dir? ==> NameFree(e.node.entries, name))
  }

  /** The directories below a path, each before what it holds. */
  function DirsOf(es: seq<Entry>, at: Path): seq<Path> {
    if es == [] then []
    else DirsOf(es[..|es| - 1], at) + NodeDirs(es[|es| - 1].node, at + [es[|es| - 1].name])
  }

  function NodeDirs(node: Node, at: Path): seq<Path> {
    if node.Dir? then [at] + DirsOf(node.entries, at) else []
  }

  function FilesOf(es: seq<Entry>, at: Path): seq<FileAt> {
    if es == [] then []
    else FilesOf(es[..|es| - 1], at) + NodeFiles(es[|es| - 1].node, at + [es[|es| - 1].name])
  }

  function NodeFiles(node: Node, at: Path): seq<FileAt> {
    match node
    case File(content) => [FileAt(at, content)]
    case Dir(entries) => FilesOf(entries, at)
    case _ => []
  }

  lemma LookupSnoc(es: seq<Entry>, e: Entry, name: Name)
    ensures Lookup(es + [e], name) == if e.name == name then Some(e.node) else Lookup(es, name)
  {
    assert (es + [e])[..|es|] == es;
  }

  /** Everything a walk lists below a path extends that path. */
  lemma {:induction false} WalkExtends(node: Node, at: Path)
    ensures forall d <- NodeDirs(node, at) :: at <= d
    ensures forall f <- NodeFiles(node, at) :: at <= f.path
    decreases node
  {
    if node.Dir? {
      WalkBelow(node.entries, at);
    }
  }

  lemma {:induction false} WalkBelow(es: seq<Entry>, at: Path)
    ensures forall d <- DirsOf(es, at) :: Below(es, at, d)
    ensures forall f <- FilesOf(es, at) :: Below(es, at, f.path)
    decreases es
  {
    if es != [] {
      WalkBelow(es[..|es| - 1], at);
      WalkExtends(es[|es| - 1].node, at + [es[|es| - 1].name]);
    }
  }

  /** p lies below a path, under the name of an entry. */
  ghost predicate Below(es: seq<Entry>, at: Path, p: Path) {
    |p| > |at| && at <= p && Lookup(es, p[|at|]).Some?
  }

  /** The walk lists exactly the directories and the files that a path leads to. */
  lemma {:induction false} WalkIsExact(es: seq<Entry>, at: Path, p: Path, content: Content)
    requires UniqueNames(es) && p != []
    ensures at + p in DirsOf(es, at) <==> ItemAt(es, p) == Some(Folder)
    ensures FileAt(at + p, content) in FilesOf(es, at) <==> ItemAt(es, p) == Some(Regular(content))
    decreases es
  {
    if es != [] {
      var init, e := es[..|es| - 1], es[|es| - 1];
      var below := at + [e.name];
      WalkIsExact(init, at, p, content);
      if p[0] == e.name {
        WalkBelow(init, at);
        assert at + p == below + p[1..];
        NodeWalkIsExact(e.node, below, p[1..], content);
      } else {
        WalkExtends(e.node, below);
        assert (at + p)[|at|] != below[|at|];
      }
      hide NodeDirs, NodeFiles, ItemOf;
    }
  }

  lemma {:induction false} NodeWalkIsExact(node: Node, at: Path, p: Path, content: Content)
    requires node.Dir? ==> UniqueNames(node.entries)
    ensures at + p in NodeDirs(node, at) <==> ItemOf(node, p) == Some(Folder)
    ensures FileAt(at + p, content) in NodeFiles(node, at) <==> ItemOf(node, p) == Some(Regular(content))
    decreases node
  {
    if p == [] {
      assert at + p == at;
      if node.Dir? {
        WalkBelow(node.entries, at);
      }
    } else {
      assert |at + p| != |at|;
      if node.Dir? {
        WalkIsExact(node.entries, at, p, content);
      }
    }
  }

  /** What holds something is a directory. */
  lemma {:induction false} ParentIsFolder(es: seq<Entry>, p: Path)
    requires |p| > 1 && ItemAt(es, p).Some?
    ensures ItemAt(es, p[..|p| - 1]) == Some(Folder)
    decreases |p|
  {
    var node, q := Lookup(es, p[0]).value, p[..|p| - 1];
    assert node.Dir?;
    assert q[0] == p[0] && q[1..] == p[1..][..|p| - 2];
    assert ItemAt(es, q) == ItemAt(node.entries, q[1..]);
    if |p| > 2 {
      ParentIsFolder(node.entries, p[1..]);
    }
  }

  ghost predicate DistinctPaths(fs: seq<FileAt>) {
    forall i, j :: 0 <= i < j < |fs| ==> fs[i].path != fs[j].path
  }

  lemma {:induction false} WalkIsDistinct(es: seq<Entry>, at: Path)
    requires UniqueNames(es)
    ensures DistinctPaths(FilesOf(es, at))
    decreases es
  {
    if es != [] {
      var init, e := es[..|es| - 1], es[|es| - 1];
      var below := at + [e.name];
      WalkIsDistinct(init, at);
      if e.node.Dir? {
        WalkIsDistinct(e.node.entries, below);
      }
      WalkBelow(init, at);
      WalkExtends(e.node, below);
      var fs, gs := FilesOf(init, at), NodeFiles(e.node, below);
      forall i, j | 0 <= i < |fs| && 0 <= j < |gs| ensures fs[i].path != gs[j].path {
        assert fs[i] in fs && gs[j] in gs;
        assert fs[i].path[|at|] != below[|at|] == gs[j].path[|at|];
      }
      DistinctJoin(fs, gs);
    }
  }

  lemma DistinctJoin(fs: seq<FileAt>, gs: seq<FileAt>)
    requires DistinctPaths(fs) && DistinctPaths(gs)
    requires forall i, j :: 0 <= i < |fs| && 0 <= j < |gs| ==> fs[i].path != gs[j].path
    ensures DistinctPaths(fs + gs)
  {
  }
}
