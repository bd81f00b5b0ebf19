/** The snapshot of the state home: what the backup walk copies, counts and leaves out. */
module Backup {
  import opened Common
  import opened Trees

  const MAX_SCAN_ENTRIES: nat := 4096
  const MAX_SCAN_DEPTH: nat := 64

  /** A part of an absolute path as configured, before it is normalized. */
  datatype Part = Normal(name: Name) | Up

  function Normalize(raw: seq<Part>): Path {
    if raw == [] then []
    else
      var before := Normalize(raw[..|raw| - 1]);
      match raw[|raw| - 1]
      case Normal(name) => before + [name]
      case Up => if before == [] then [] else before[..|before| - 1]
  }

  function FileName(raw: seq<Part>): Option<Name> {
    if raw != [] && raw[|raw| - 1].Normal? then Some(raw[|raw| - 1].name) else None
  }

  function LowerChar(c: char): char {
    if 'A' <= c <= 'Z' then c + ' ' else c
  }

  function Lower(s: string): string {
    seq(|s|, i requires 0 <= i < |s| => LowerChar(s[i]))
  }

  predicate OccursAt(s: string, t: string, i: nat) { i + |t| <= |s| && s[i..i + |t|] == t }

  predicate Contains(s: string, t: string) { exists i :: 0 <= i <= |s| && OccursAt(s, t, i) }

  predicate EndsWith(s: string, t: string) { |t| <= |s| && s[|s| - |t|..] == t }

  const TOKEN_LOCK := ".telegram-token.lock"

  predicate CredentialName(name: Name) {
    var l := Lower(name);
    || l in {TOKEN_LOCK, "token", "token.txt", "telegram.token", "telegram-token", "telegram_token"}
    || Contains(l, "token")
    || EndsWith(l, ".secret")
    || (Contains(l, "secret") && (Contains(l, "telegram") || "bot-" <= l))
  }

  /** What a walk must not copy: the configured token file, and the health file of the Telegram data directory. */
  datatype Exclusions = Exclusions(token: Option<seq<Part>>, health: Option<Path>) {
    predicate IsToken(at: Path) { token.Some? && at == Normalize(token.value) }

    predicate Exclude(at: Path, name: Name) {
      name == TOKEN_LOCK || CredentialName(name) || IsToken(at) || health == Some(at)
    }
  }

  function First(es: seq<Entry>): seq<Entry> {
    if |es| <= MAX_SCAN_ENTRIES then es else es[..MAX_SCAN_ENTRIES]
  }

  /** What is copied of a directory at a given depth. */
  function TreeCopy(source: Node, at: Path, x: Exclusions, depth: nat): seq<Entry>
    decreases source, 0
  {
    if depth > MAX_SCAN_DEPTH || !source.Dir? then [] else Copied(First(source.entries), at, x, depth)
  }

  function Copied(es: seq<Entry>, at: Path, x: Exclusions, depth: nat): seq<Entry>
    decreases es, 0
  {
    if es == [] then []
    else
      var e := es[|es| - 1];
      Copied(es[..|es| - 1], at, x, depth) + CopyOf(e.name, e.node, at + [e.name], x, depth)
  }

  function CopyOf(name: Name, node: Node, at: Path, x: Exclusions, depth: nat): seq<Entry>
    decreases node, 1
  {
    if x.Exclude(at, name) then []
    else if node.File? then [Entry(name, node)]
    else if node.Directory() then [Entry(name, Dir(TreeCopy(node, at, x, depth + 1)))]
    else []
  }

  /** The walk leaves nothing out beyond the exclusions. */
  predicate Whole(source: Node, at: Path, x: Exclusions, depth: nat) {
    source.Dir? && depth <= MAX_SCAN_DEPTH && |source.entries| <= MAX_SCAN_ENTRIES
    && WholeEntries(source.entries, at, x, depth)
  }

  predicate WholeEntries(es: seq<Entry>, at: Path, x: Exclusions, depth: nat) {
    es == [] ||
    var e := es[|es| - 1];
    && WholeEntries(es[..|es| - 1], at, x, depth)
    && (x.Exclude(at + [e.name], e.name) || e.node.File?
        || (e.node.Directory() && Whole(e.node, at + [e.name], x, depth + 1)))
  }

  /** The tree without its excluded entries, with no bound on depth or width. */
  function Pruned(es: seq<Entry>, at: Path, x: Exclusions): seq<Entry> {
    if es == [] then []
    else
      var e := es[|es| - 1];
      Pruned(es[..|es| - 1], at, x) +
      if x.Exclude(at + [e.name], e.name) then [] else [Entry(e.name, PrunedNode(e.node, at + [e.name], x))]
  }

  function PrunedNode(node: Node, at: Path, x: Exclusions): Node {
    if node.Dir? then Dir(Pruned(node.entries, at, x)) else node
  }

  /** Counters of one component, and whether a warning was raised. */
  datatype Tally = Tally(files: nat, bytes: nat, warned: bool) {
    /** The 64-bit counters can take this much more. */
    predicate Holds(moreFiles: nat, moreBytes: nat) {
      files + moreFiles <= U64_MAX && bytes + moreBytes <= U64_MAX
    }
  }

  /** A walk succeeds exactly when the counters can take what it should copy; then it has copied and counted just that,
      and raised a warning exactly when that is not everything. */
  ghost predicate Counted(before: Tally, after: Tally, ok: bool, copy: seq<Entry>, expected: seq<Entry>, whole: bool) {
    && (ok <==> before.Holds(Files(expected), Bytes(expected)))
    && (ok ==>
          && copy == expected
          && after == Tally(before.files + Files(expected), before.bytes + Bytes(expected), before.warned || !whole))
  }

  class ComponentBuilder {
    var fileCount: nat
    var byteCount: nat
    var warned: bool

    constructor ()
      ensures fileCount == 0 && byteCount == 0 && !warned
    {
      fileCount, byteCount, warned := 0, 0, false;
    }

    function Count(): Tally
      reads this
    {
      Tally(fileCount, byteCount, warned)
    }

    method AddFile(bytes: nat) returns (ok: bool)
      requires Count().Holds(0, 0)
      modifies this`fileCount, this`byteCount
      ensures ok <==> old(Count()).Holds(1, bytes)
      ensures ok ==> fileCount == old(fileCount) + 1 && byteCount == old(byteCount) + bytes
    {
      if fileCount == U64_MAX {
        return false;
      }
      fileCount := fileCount + 1;
      if byteCount + bytes > U64_MAX {
        return false;
      }
      byteCount := byteCount + bytes;
      return true;
    }
  }

  lemma FilesJoin(a: seq<Entry>, b: seq<Entry>)
    ensures Files(a + b) == Files(a) + Files(b) && Bytes(a + b) == Bytes(a) + Bytes(b)
  {
    if b == [] {
      assert a + b == a;
    } else {
      assert (a + b)[..|a + b| - 1] == a + b[..|b| - 1];
      FilesJoin(a, b[..|b| - 1]);
    }
  }

  lemma OneEntry(name: Name, node: Node)
    ensures Files([Entry(name, node)]) == match node case File(_) => 1 case Dir(inner) => Files(inner) case _ => 0
    ensures Bytes([Entry(name, node)]) ==
            match node case File(content) => |content| case Dir(inner) => Bytes(inner) case _ => 0
  {
    var one := [Entry(name, node)];
    assert one[..0] == [];
  }

  lemma CopiedPrefix(es: seq<Entry>, i: nat, at: Path, x: Exclusions, depth: nat)
    requires i < |es|
    ensures var e := es[i];
            Copied(es[..i + 1], at, x, depth) == Copied(es[..i], at, x, depth)
                                                 + CopyOf(e.name, e.node, at + [e.name], x, depth)
    ensures var e := es[i];
            WholeEntries(es[..i + 1], at, x, depth) <==>
            WholeEntries(es[..i], at, x, depth)
            && (x.Exclude(at + [e.name], e.name) || e.node.File?
                || (e.node.Directory() && Whole(e.node, at + [e.name], x, depth + 1)))
  {
    assert es[..i + 1][..i] == es[..i];
  }

  lemma {:induction false} CopiedGrows(es: seq<Entry>, i: nat, at: Path, x: Exclusions, depth: nat)
    requires i <= |es|
    ensures Files(Copied(es[..i], at, x, depth)) <= Files(Copied(es, at, x, depth))
    ensures Bytes(Copied(es[..i], at, x, depth)) <= Bytes(Copied(es, at, x, depth))
    decreases |es|
  {
    if i == |es| {
      assert es[..i] == es;
    } else {
      var e := es[|es| - 1];
      assert es[..|es| - 1][..i] == es[..i];
      CopiedGrows(es[..|es| - 1], i, at, x, depth);
      FilesJoin(Copied(es[..|es| - 1], at, x, depth), CopyOf(e.name, e.node, at + [e.name], x, depth));
    }
  }

  /** Copies a directory, counting files and bytes. It fails exactly when a 64-bit counter would overflow; otherwise it
      raises a warning exactly when something beyond the exclusions is left out. */
  method CopyTree(source: Node, at: Path, x: Exclusions, builder: ComponentBuilder, depth: nat)
    returns (ok: bool, copy: seq<Entry>)
    requires source.Directory() && builder.Count().Holds(0, 0)
    modifies builder
    ensures Counted(old(builder.Count()), builder.Count(), ok, copy, TreeCopy(source, at, x, depth),
                    Whole(source, at, x, depth))
    decreases source, 0
  {
    hide CredentialName, Normalize, Copied, WholeEntries;
    if depth > MAX_SCAN_DEPTH || source.SealedDir? {
      builder.warned := true;
      return true, [];
    }
    ok, copy := CopyListed(First(source.entries), at, x, builder, depth);
    if ok && |source.entries| > MAX_SCAN_ENTRIES {
      builder.warned := true;
    }
  }

  lemma CopiedNone(es: seq<Entry>, at: Path, x: Exclusions, depth: nat)
    ensures Copied(es[..0], at, x, depth) == [] && WholeEntries(es[..0], at, x, depth)
    ensures Files([]) == 0 && Bytes([]) == 0
  {
    assert es[..0] == [];
  }

  /** The loop over what the directory lists. */
  method CopyListed(listed: seq<Entry>, at: Path, x: Exclusions, builder: ComponentBuilder, depth: nat)
    returns (ok: bool, copy: seq<Entry>)
    requires builder.Count().Holds(0, 0)
    modifies builder
    ensures Counted(old(builder.Count()), builder.Count(), ok, copy, Copied(listed, at, x, depth),
                    WholeEntries(listed, at, x, depth))
    decreases listed, 0
  {
    CopiedNone(listed, at, x, depth);
    hide CredentialName, Normalize, Copied, WholeEntries, Whole, CopyOf, Files, Bytes;
    ok, copy := true, [];
    for i := 0 to |listed|
      invariant Counted(old(builder.Count()), builder.Count(), true, copy, Copied(listed[..i], at, x, depth),
                        WholeEntries(listed[..i], at, x, depth))
    {
      CopiedPrefix(listed, i, at, x, depth);
      CopiedGrows(listed, i + 1, at, x, depth);
      FilesJoin(copy, CopyOf(listed[i].name, listed[i].node, at + [listed[i].name], x, depth));
      var added;
      ok, added := CopyEntry(listed[i].name, listed[i].node, at + [listed[i].name], x, builder, depth);
      if !ok {
        return;
      }
      copy := copy + added;
    }
    assert listed[..|listed|] == listed;
  }

  /** One entry of the walk. */
  method CopyEntry(name: Name, node: Node, at: Path, x: Exclusions, builder: ComponentBuilder, depth: nat)
    returns (ok: bool, added: seq<Entry>)
    requires builder.Count().Holds(0, 0)
    modifies builder
    ensures Counted(old(builder.Count()), builder.Count(), ok, added, CopyOf(name, node, at, x, depth),
                    x.Exclude(at, name) || node.File? || (node.Directory() && Whole(node, at, x, depth + 1)))
    decreases node, 1
  {
    hide CredentialName, Normalize;
    CopiedNone([], at, x, depth);
    ok, added := true, [];
    if x.Exclude(at, name) {
      return;
    }
    match node
    case File(content) =>
      ok := builder.AddFile(|content|);
      added := [Entry(name, node)];
      OneEntry(name, node);
    case Dir(_) =>
      var inner;
      ok, inner := CopyTree(node, at, x, builder, depth + 1);
      added := [Entry(name, Dir(inner))];
      OneEntry(name, Dir(TreeCopy(node, at, x, depth + 1)));
    case SealedDir =>
      var inner;
      ok, inner := CopyTree(node, at, x, builder, depth + 1);
      added := [Entry(name, Dir(inner))];
      OneEntry(name, Dir(TreeCopy(node, at, x, depth + 1)));
    case _ =>
      builder.warned := true;
  }

  /** What every copied tree is: nothing but files and directories, no directory too wide, no credential name. */
  predicate Kept(es: seq<Entry>)
    decreases es, 1
  {
    |es| <= MAX_SCAN_ENTRIES && KeptEntries(es)
  }

  predicate KeptEntries(es: seq<Entry>)
    decreases es, 0
  {
    es == [] ||
    var e := es[|es| - 1];
    && KeptEntries(es[..|es| - 1])
    && !CredentialName(e.name)
    && (e.node.File? || (e.node.Dir? && Kept(e.node.entries)))
  }

  lemma KeptSnoc(es: seq<Entry>, e: Entry)
    ensures KeptEntries(es + [e]) <==>
            KeptEntries(es) && !CredentialName(e.name) && (e.node.File? || (e.node.Dir? && Kept(e.node.entries)))
  {
    assert (es + [e])[..|es|] == es;
  }

  lemma {:induction false} TreeCopyIsKept(source: Node, at: Path, x: Exclusions, depth: nat)
    ensures Kept(TreeCopy(source, at, x, depth))
    decreases source, 0
  {
    if depth <= MAX_SCAN_DEPTH && source.Dir? {
      CopiedIsKept(First(source.entries), at, x, depth);
    }
  }

  lemma {:induction false} CopiedIsKept(es: seq<Entry>, at: Path, x: Exclusions, depth: nat)
    ensures KeptEntries(Copied(es, at, x, depth)) && |Copied(es, at, x, depth)| <= |es|
    decreases es, 0
  {
    hide CredentialName, Normalize;
    if es != [] {
      var init, e := es[..|es| - 1], es[|es| - 1];
      CopiedIsKept(init, at, x, depth);
      var added := CopyOf(e.name, e.node, at + [e.name], x, depth);
      if added == [] {
        assert Copied(init, at, x, depth) + added == Copied(init, at, x, depth);
      } else {
        TreeCopyIsKept(e.node, at + [e.name], x, depth + 1);
        KeptSnoc(Copied(init, at, x, depth), added[0]);
      }
    }
  }

  lemma {:induction false} UniqueTake(es: seq<Entry>, k: nat)
    requires UniqueNames(es) && k <= |es|
    ensures UniqueNames(es[..k])
  {
    if k == |es| {
      assert es[..k] == es;
    } else {
      assert es[..|es| - 1][..k] == es[..k];
      UniqueTake(es[..|es| - 1], k);
    }
  }

  predicate UniqueNode(node: Node) { node.Dir? ==> UniqueNames(node.entries) }

  lemma {:induction false} TreeCopyIsUnique(source: Node, at: Path, x: Exclusions, depth: nat)
    requires UniqueNode(source)
    ensures UniqueNames(TreeCopy(source, at, x, depth))
    decreases source, 0
  {
    if depth <= MAX_SCAN_DEPTH && source.Dir? {
      if |source.entries| > MAX_SCAN_ENTRIES {
        UniqueTake(source.entries, MAX_SCAN_ENTRIES);
      }
      CopiedIsUnique(First(source.entries), at, x, depth);
    }
  }

  lemma {:induction false} CopiedIsUnique(es: seq<Entry>, at: Path, x: Exclusions, depth: nat)
    requires UniqueNames(es)
    ensures UniqueNames(Copied(es, at, x, depth))
    decreases es, 0
  {
    hide CredentialName, Normalize;
    if es != [] {
      var init, e := es[..|es| - 1], es[|es| - 1];
      var before := Copied(init, at, x, depth);
      CopiedIsUnique(init, at, x, depth);
      CopiedIsNamed(init, at, x, depth, e.name);
      TreeCopyIsUnique(e.node, at + [e.name], x, depth + 1);
      var added := CopyOf(e.name, e.node, at + [e.name], x, depth);
      if added == [] {
        assert before + added == before;
      } else {
        assert (before + added)[..|before|] == before;
      }
      hide TreeCopy;
    }
  }

  lemma {:induction false} CopiedIsNamed(es: seq<Entry>, at: Path, x: Exclusions, depth: nat, name: Name)
    requires Lookup(es, name).None?
    ensures Lookup(Copied(es, at, x, depth), name).None?
    decreases |es|
  {
    hide CredentialName, Normalize;
    if es != [] {
      var init, e := es[..|es| - 1], es[|es| - 1];
      CopiedIsNamed(init, at, x, depth, name);
      var before, added := Copied(init, at, x, depth), CopyOf(e.name, e.node, at + [e.name], x, depth);
      if added == [] {
        assert before + added == before;
      } else {
        LookupSnoc(before, added[0], name);
        assert before + added == before + [added[0]];
      }
      hide TreeCopy;
    }
  }

  /** When no warning was due, the bounds played no part: the copy is the tree without its exclusions. */
  lemma {:induction false} WholeIsPruned(es: seq<Entry>, at: Path, x: Exclusions, depth: nat)
    requires WholeEntries(es, at, x, depth)
    ensures Copied(es, at, x, depth) == Pruned(es, at, x)
    decreases es
  {
    hide CredentialName, Normalize;
    if es != [] {
      var init, e := es[..|es| - 1], es[|es| - 1];
      WholeIsPruned(init, at, x, depth);
      assert e == Entry(e.name, e.node);
      var added := CopyOf(e.name, e.node, at + [e.name], x, depth);
      if x.Exclude(at + [e.name], e.name) {
        assert added == [];
      } else if e.node.File? {
        assert added == [e];
      } else {
        assert Whole(e.node, at + [e.name], x, depth + 1);
        WholeIsPruned(e.node.entries, at + [e.name], x, depth + 1);
        assert First(e.node.entries) == e.node.entries;
        assert TreeCopy(e.node, at + [e.name], x, depth + 1) == Pruned(e.node.entries, at + [e.name], x);
        assert added == [Entry(e.name, Dir(Pruned(e.node.entries, at + [e.name], x)))];
      }
    }
  }

  /** A path is hidden if it is excluded, or lies below something excluded. */
  ghost predicate Hidden(at: Path, p: Path, x: Exclusions) {
    exists k :: 0 < k <= |p| && x.Exclude(at + p[..k], p[k - 1])
  }

  /** The pruned tree holds exactly what the tree holds, except for what is hidden. */
  lemma {:induction false} PrunedIsExact(es: seq<Entry>, at: Path, x: Exclusions, p: Path)
    requires UniqueNames(es) && p != []
    ensures ItemAt(Pruned(es, at, x), p) == if Hidden(at, p, x) then None else ItemAt(es, p)
    decreases es
  {
    if es != [] {
      var init, e := es[..|es| - 1], es[|es| - 1];
      var below, before := at + [e.name], Pruned(init, at, x);
      PrunedIsExact(init, at, x, p);
      if x.Exclude(below, e.name) {
        assert before + [] == before;
        if p[0] == e.name {
          assert at + p[..1] == below;
          hide CredentialName, Normalize;
        }
      } else {
        hide CredentialName, Normalize;
        LookupSnoc(before, Entry(e.name, PrunedNode(e.node, below, x)), p[0]);
        if p[0] == e.name {
          HiddenBelow(at, p, x);
          NodePrunedIsExact(e.node, below, x, p[1..]);
        }
        hide Hidden, PrunedNode, ItemOf;
      }
    }
  }

  lemma {:induction false} NodePrunedIsExact(node: Node, at: Path, x: Exclusions, p: Path)
    requires UniqueNode(node)
    ensures ItemOf(PrunedNode(node, at, x), p) == if Hidden(at, p, x) then None else ItemOf(node, p)
    decreases node
  {
    if p != [] && node.Dir? {
      PrunedIsExact(node.entries, at, x, p);
    }
  }

  lemma HiddenBelow(at: Path, p: Path, x: Exclusions)
    requires p != [] && !x.Exclude(at + [p[0]], p[0])
    ensures Hidden(at, p, x) <==> Hidden(at + [p[0]], p[1..], x)
  {
    hide CredentialName, Normalize;
    var below, q := at + [p[0]], p[1..];
    forall k | 0 < k <= |p|
      ensures k == 1 ==> at + p[..k] == below
      ensures k > 1 ==> at + p[..k] == below + q[..k - 1] && q[k - 2] == p[k - 1]
    {
    }
    if Hidden(at, p, x) {
      var k :| 0 < k <= |p| && x.Exclude(at + p[..k], p[k - 1]);
      assert x.Exclude(below + q[..k - 1], q[k - 2]);
    }
    if Hidden(below, q, x) {
      var k :| 0 < k <= |q| && x.Exclude(below + q[..k], q[k - 1]);
      assert x.Exclude(at + p[..k + 1], p[k]);
    }
  }
}
