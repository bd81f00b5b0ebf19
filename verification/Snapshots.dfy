/** The components of a snapshot, built from the state home. */
module Snapshots {
  import opened Common
  import opened Trees
  import opened Backup

  predicate IsHex(c: char) { '0' <= c <= '9' || 'a' <= c <= 'f' }

  predicate ValidScope(name: Name) {
    || name == "global" || name == "shared"
    || (|name| == 40 && name[..8] == "private-" && forall i :: 8 <= i < 40 ==> IsHex(name[i]))
  }

  /** An occurrence spells every letter of the word, no earlier than in the word. */
  lemma Spells(s: string, t: string, k: nat)
    requires k < |t|
    ensures Contains(s, t) || EndsWith(s, t) ==> k < |s| && t[k] in s[k..]
  {
    if EndsWith(s, t) {
      assert s[k..][|s| - |t|] == s[|s| - |t|..][k];
    } else if Contains(s, t) {
      var i :| 0 <= i <= |s| && OccursAt(s, t, i);
      assert s[k..][i] == s[i..i + |t|][k];
    }
  }

  lemma ScopeLetters(name: Name)
    requires ValidScope(name)
    ensures Lower(name) == name && 'k' !in name && ('c' !in name || 's' !in name)
  {
    var prefix := "private-";
    if name != "global" && name != "shared" {
      forall i | 0 <= i < |name| ensures IsHex(name[i]) || name[i] in prefix {
        if i < 8 {
          assert name[i] == name[..8][i];
        }
      }
      assert 's' !in prefix && 'k' !in prefix;
    }
  }

  lemma CredentialLetters(name: Name)
    ensures var l := Lower(name); CredentialName(name) ==> 'k' in l || ('s' in l && |l| > 2 && 'c' in l[2..])
  {
    var l := Lower(name);
    Spells(l, "token", 2);
    Spells(l, "secret", 0);
    Spells(l, "secret", 2);
    Spells(l, ".secret", 1);
    Spells(l, ".secret", 3);
    assert TOKEN_LOCK[12] == "token"[2] == "token.txt"[2] == 'k';
    assert "telegram.token"[11] == "telegram-token"[11] == "telegram_token"[11] == 'k';
    assert |l| > 3 ==> l[2..][1..] == l[3..];
    hide Contains, EndsWith, Lower;
  }

  /** The scope directories are not checked against the exclusions, and need not be. */
  lemma ScopesAreKept(name: Name)
    requires ValidScope(name)
    ensures !CredentialName(name)
  {
    ScopeLetters(name);
    CredentialLetters(name);
    hide *;
  }

  // The components

  function Child(dir: Node, name: Name): Option<Node> {
    if dir.Dir? then Lookup(dir.entries, name) else None
  }

  function SubCopy(dir: Node, name: Name, at: Path, x: Exclusions): seq<Entry> {
    var child := Child(dir, name);
    if child.Some? && child.value.Directory() then TreeCopy(child.value, at + [name], x, 0) else []
  }

  predicate SubWhole(dir: Node, name: Name, at: Path, x: Exclusions) {
    var child := Child(dir, name);
    child.Some? && Whole(child.value, at + [name], x, 0)
  }

  /** Of a memory scope, its two trees are kept. */
  function ScopeCopy(name: Name, node: Node, at: Path, x: Exclusions): seq<Entry> {
    if !ValidScope(name) || !node.Directory() then []
    else [Entry(name, Dir([Entry("state", Dir(SubCopy(node, "state", at, x))),
                           Entry("memories", Dir(SubCopy(node, "memories", at, x)))]))]
  }

  predicate ScopeWhole(name: Name, node: Node, at: Path, x: Exclusions) {
    ValidScope(name) ==> node.Dir? && SubWhole(node, "state", at, x) && SubWhole(node, "memories", at, x)
  }

  function ScopesCopy(es: seq<Entry>, at: Path, x: Exclusions): seq<Entry> {
    if es == [] then []
    else
      var e := es[|es| - 1];
      ScopesCopy(es[..|es| - 1], at, x) + ScopeCopy(e.name, e.node, at + [e.name], x)
  }

  predicate ScopesWhole(es: seq<Entry>, at: Path, x: Exclusions) {
    es == [] ||
    var e := es[|es| - 1];
    ScopesWhole(es[..|es| - 1], at, x) && ScopeWhole(e.name, e.node, at + [e.name], x)
  }

  predicate AnyScope(es: seq<Entry>) {
    exists e <- es :: ValidScope(e.name)
  }

  function MemoryCopy(memory: Option<Node>, at: Path, x: Exclusions): seq<Entry> {
    if memory.Some? && memory.value.Dir? then ScopesCopy(First(memory.value.entries), at, x) else []
  }

  predicate MemoryWhole(memory: Option<Node>, at: Path, x: Exclusions) {
    && memory.Some? && memory.value.Dir? && |memory.value.entries| <= MAX_SCAN_ENTRIES
    && ScopesWhole(memory.value.entries, at, x) && AnyScope(memory.value.entries)
  }

  method BuildSub(dir: Node, name: Name, at: Path, x: Exclusions, builder: ComponentBuilder)
    returns (ok: bool, copy: seq<Entry>)
    requires builder.Count().Holds(0, 0)
    modifies builder
    ensures Counted(old(builder.Count()), builder.Count(), ok, copy, SubCopy(dir, name, at, x),
                    SubWhole(dir, name, at, x))
  {
    var child := Child(dir, name);
    if child.None? || !child.value.Directory() {
      builder.warned := true;
      return true, [];
    }
    ok, copy := CopyTree(child.value, at + [name], x, builder, 0);
  }

  method BuildScope(name: Name, node: Node, at: Path, x: Exclusions, builder: ComponentBuilder)
    returns (ok: bool, copy: seq<Entry>)
    requires builder.Count().Holds(0, 0)
    modifies builder
    ensures Counted(old(builder.Count()), builder.Count(), ok, copy, ScopeCopy(name, node, at, x),
                    ScopeWhole(name, node, at, x))
  {
    ok, copy := true, [];
    ScopeSizes(name, SubCopy(node, "state", at, x), SubCopy(node, "memories", at, x));
    if !ValidScope(name) {
      return;
    }
    if !node.Directory() {
      builder.warned := true;
      return;
    }
    var state, memories;
    ok, state := BuildSub(node, "state", at, x, builder);
    if !ok {
      return;
    }
    ok, memories := BuildSub(node, "memories", at, x, builder);
    if !ok {
      return;
    }
    copy := [Entry(name, Dir([Entry("state", Dir(state)), Entry("memories", Dir(memories))]))];
  }

  lemma ScopeSizes(name: Name, state: seq<Entry>, memories: seq<Entry>)
    ensures var two := [Entry("state", Dir(state)), Entry("memories", Dir(memories))];
            && Files([]) == 0 && Bytes([]) == 0
            && Files([Entry(name, Dir(two))]) == Files(two) == Files(state) + Files(memories)
            && Bytes([Entry(name, Dir(two))]) == Bytes(two) == Bytes(state) + Bytes(memories)
  {
    var a, b := [Entry("state", Dir(state))], [Entry("memories", Dir(memories))];
    OneEntry("state", Dir(state));
    OneEntry("memories", Dir(memories));
    FilesJoin(a, b);
    OneEntry(name, Dir(a + b));
    assert a + b == [Entry("state", Dir(state)), Entry("memories", Dir(memories))];
  }

  lemma ScopesPrefix(es: seq<Entry>, i: nat, at: Path, x: Exclusions)
    requires i < |es|
    ensures var e := es[i];
            ScopesCopy(es[..i + 1], at, x) == ScopesCopy(es[..i], at, x) + ScopeCopy(e.name, e.node, at + [e.name], x)
    ensures var e := es[i];
            ScopesWhole(es[..i + 1], at, x) <==>
            ScopesWhole(es[..i], at, x) && ScopeWhole(e.name, e.node, at + [e.name], x)
  {
    assert es[..i + 1][..i] == es[..i];
  }

  lemma {:induction false} ScopesGrow(es: seq<Entry>, i: nat, at: Path, x: Exclusions)
    requires i <= |es|
    ensures Files(ScopesCopy(es[..i], at, x)) <= Files(ScopesCopy(es, at, x))
    ensures Bytes(ScopesCopy(es[..i], at, x)) <= Bytes(ScopesCopy(es, at, x))
  {
    if i == |es| {
      assert es[..i] == es;
    } else {
      var e := es[|es| - 1];
      assert es[..|es| - 1][..i] == es[..i];
      ScopesGrow(es[..|es| - 1], i, at, x);
      FilesJoin(ScopesCopy(es[..|es| - 1], at, x), ScopeCopy(e.name, e.node, at + [e.name], x));
    }
  }

  lemma NoScopes(es: seq<Entry>, at: Path, x: Exclusions)
    ensures ScopesCopy(es[..0], at, x) == [] && ScopesWhole(es[..0], at, x)
    ensures Files([]) == 0 && Bytes([]) == 0
  {
    assert es[..0] == [];
  }

  /** The memory component. Its warning flag is raised for everything left out, and also when there is no scope. */
  method BuildMemory(memory: Option<Node>, at: Path, x: Exclusions, builder: ComponentBuilder)
    returns (ok: bool, copy: seq<Entry>)
    requires builder.Count().Holds(0, 0)
    modifies builder
    ensures Counted(old(builder.Count()), builder.Count(), ok, copy, MemoryCopy(memory, at, x),
                    MemoryWhole(memory, at, x))
  {
    NoScopes([], at, x);
    if memory.None? || !memory.value.Dir? {
      builder.warned := true;
      return true, [];
    }
    ok, copy := BuildScopes(First(memory.value.entries), at, x, builder);
    if ok && (|memory.value.entries| > MAX_SCAN_ENTRIES || !AnyScope(memory.value.entries)) {
      builder.warned := true;
    }
    hide ScopesCopy, ScopesWhole, ValidScope;
  }

  method BuildScopes(es: seq<Entry>, at: Path, x: Exclusions, builder: ComponentBuilder)
    returns (ok: bool, copy: seq<Entry>)
    requires builder.Count().Holds(0, 0)
    modifies builder
    ensures Counted(old(builder.Count()), builder.Count(), ok, copy, ScopesCopy(es, at, x), ScopesWhole(es, at, x))
  {
    NoScopes(es, at, x);
    hide ScopesCopy, ScopesWhole, ScopeCopy, ScopeWhole, Files, Bytes;
    ok, copy := true, [];
    for i := 0 to |es|
      invariant Counted(old(builder.Count()), builder.Count(), true, copy, ScopesCopy(es[..i], at, x),
                        ScopesWhole(es[..i], at, x))
    {
      ScopesPrefix(es, i, at, x);
      ScopesGrow(es, i + 1, at, x);
      FilesJoin(copy, ScopeCopy(es[i].name, es[i].node, at + [es[i].name], x));
      var added;
      ok, added := BuildScope(es[i].name, es[i].node, at + [es[i].name], x, builder);
      if !ok {
        return;
      }
      copy := copy + added;
    }
    assert es[..|es|] == es;
  }

  // The snapshot

  datatype Component = Config | Memory | Conversations | Journals {
    function FileName(): Name {
      match this
      case Config => "config.toml"
      case Memory => "memory"
      case Conversations => "conversations"
      case Journals => "journals"
    }
  }

  const MANIFEST: Name := "manifest.json"

  datatype ManifestComponent = ManifestComponent(name: Component, fileCount: nat, byteCount: nat, warned: bool)

  datatype Snapshot = Snapshot(root: seq<Entry>, manifest: seq<ManifestComponent>)

  /** What parsing a configuration gives: None if it is invalid, else its token file, if any. */
  type Parser = Content -> Option<Option<seq<Part>>>

  datatype DataDir = DataDir(at: Path, node: Option<Node>)

  datatype Home = Home(configAt: Path, config: Option<Node>, memoryAt: Path, memory: Option<Node>,
                       telegram: Option<DataDir>)
  {
    predicate HasConfig(parse: Parser) { config.Some? && config.value.File? && parse(config.value.content).Some? }

    function Token(parse: Parser): Option<seq<Part>>
      requires HasConfig(parse)
    {
      parse(config.value.content).value
    }
  }

  function TelegramCopy(data: DataDir, tree: Component, token: Option<seq<Part>>): seq<Entry> {
    var x := Exclusions(token, Some(data.at + ["health.json"]));
    if data.node.None? then [] else SubCopy(data.node.value, tree.FileName(), data.at, x)
  }

  predicate TelegramWhole(data: DataDir, tree: Component, token: Option<seq<Part>>) {
    var x := Exclusions(token, Some(data.at + ["health.json"]));
    data.node.Some? && SubWhole(data.node.value, tree.FileName(), data.at, x)
  }

  /** What a component should hold, and whether that is everything its source holds. */
  function ComponentCopy(home: Home, name: Component, token: Option<seq<Part>>): seq<Entry> {
    match name
    case Config => if home.config.Some? then [Entry(Config.FileName(), home.config.value)] else []
    case Memory => MemoryCopy(home.memory, home.memoryAt, Exclusions(token, None))
    case _ => if home.telegram.Some? then TelegramCopy(home.telegram.value, name, token) else []
  }

  predicate ComponentWhole(home: Home, name: Component, token: Option<seq<Part>>) {
    match name
    case Config => true
    case Memory => MemoryWhole(home.memory, home.memoryAt, Exclusions(token, None))
    case _ => home.telegram.Some? && TelegramWhole(home.telegram.value, name, token)
  }

  /** The root of a snapshot. */
  function RootTree(manifest: Content, config: seq<Entry>, memory: seq<Entry>,
                    telegram: Option<(seq<Entry>, seq<Entry>)>): seq<Entry>
  {
    [Entry(MANIFEST, File(manifest))] + config + [Entry("memory", Dir(memory))]
    + match telegram
      case None => []
      case Some(trees) => [Entry("conversations", Dir(trees.0)), Entry("journals", Dir(trees.1))]
  }

  function TelegramCopies(home: Home, token: Option<seq<Part>>): Option<(seq<Entry>, seq<Entry>)> {
    if home.telegram.None? then None
    else Some((ComponentCopy(home, Conversations, token), ComponentCopy(home, Journals, token)))
  }

  function Captured(home: Home, token: Option<seq<Part>>, manifest: Content): seq<Entry> {
    RootTree(manifest, ComponentCopy(home, Config, token), ComponentCopy(home, Memory, token),
             TelegramCopies(home, token))
  }

  function RecordOf(home: Home, name: Component, token: Option<seq<Part>>): ManifestComponent {
    var copy := ComponentCopy(home, name, token);
    ManifestComponent(name, Files(copy), Bytes(copy), !ComponentWhole(home, name, token))
  }

  /** The manifest lists every component with what it holds, and flags the ones that do not hold everything. */
  function ManifestOf(home: Home, token: Option<seq<Part>>): seq<ManifestComponent> {
    [RecordOf(home, Config, token), RecordOf(home, Memory, token)]
    + if home.telegram.None? then [] else [RecordOf(home, Conversations, token), RecordOf(home, Journals, token)]
  }

  predicate Countable(c: ManifestComponent) { c.fileCount <= U64_MAX && c.byteCount <= U64_MAX }

  predicate CountsFit(home: Home, token: Option<seq<Part>>) {
    && Countable(RecordOf(home, Config, token))
    && Countable(RecordOf(home, Memory, token))
    && (home.telegram.Some? ==>
          Countable(RecordOf(home, Conversations, token)) && Countable(RecordOf(home, Journals, token)))
  }

  /** A snapshot can be taken: the configuration is a readable, valid file, is not itself the token file, and no count
      overflows. */
  predicate Capturable(home: Home, parse: Parser) {
    && home.HasConfig(parse)
    && !Exclusions(home.Token(parse), None).IsToken(home.configAt)
    && CountsFit(home, home.Token(parse))
  }

  /** One component and its line in the manifest. */
  method BuildComponent(home: Home, name: Component, token: Option<seq<Part>>)
    returns (ok: bool, copy: seq<Entry>, c: ManifestComponent)
    requires name != Config
    ensures ok <==> Countable(RecordOf(home, name, token))
    ensures ok ==> copy == ComponentCopy(home, name, token) && c == RecordOf(home, name, token)
  {
    NoScopes([], [], Exclusions(None, None));
    var builder := new ComponentBuilder();
    if name == Memory {
      ok, copy := BuildMemory(home.memory, home.memoryAt, Exclusions(token, None), builder);
    } else if home.telegram.None? || home.telegram.value.node.None? {
      builder.warned := true;
      ok, copy := true, [];
    } else {
      var data := home.telegram.value;
      var x := Exclusions(token, Some(data.at + ["health.json"]));
      ok, copy := BuildSub(data.node.value, name.FileName(), data.at, x, builder);
    }
    c := ManifestComponent(name, builder.fileCount, builder.byteCount, builder.warned);
    hide MemoryCopy, MemoryWhole, SubCopy, SubWhole, Files, Bytes;
  }

  /** Takes a snapshot of the home, or none at all. */
  method Create(home: Home, parse: Parser, manifest: Content) returns (s: Option<Snapshot>)
    ensures s.Some? <==> Capturable(home, parse)
    ensures s.Some? ==>
              s.value == Snapshot(Captured(home, home.Token(parse), manifest), ManifestOf(home, home.Token(parse)))
  {
    if home.config.None? || !home.config.value.File? || parse(home.config.value.content).None? {
      return None;
    }
    var token := home.Token(parse);
    var content := home.config.value.content;
    var config := ManifestComponent(Config, 1, |content|, false);
    OneEntry(Config.FileName(), File(content));
    ConfigIsKept();
    assert config == RecordOf(home, Config, token);
    assert ComponentCopy(home, Config, token) == [Entry(Config.FileName(), home.config.value)];
    hide ComponentCopy, RecordOf, CredentialName, Normalize;
    if Exclusions(token, None).IsToken(home.configAt) || CredentialName(Config.FileName()) || |content| > U64_MAX {
      return None;
    }
    var ok, copy, c := BuildComponent(home, Memory, token);
    if !ok {
      return None;
    }
    var root := [Entry(MANIFEST, File(manifest))] + [Entry(Config.FileName(), home.config.value)]
                + [Entry("memory", Dir(copy))];
    var records := [config, c];
    if home.telegram.Some? {
      var conversations, journals, d;
      ok, conversations, c := BuildComponent(home, Conversations, token);
      if !ok {
        return None;
      }
      ok, journals, d := BuildComponent(home, Journals, token);
      if !ok {
        return None;
      }
      root := root + [Entry("conversations", Dir(conversations)), Entry("journals", Dir(journals))];
      records := records + [c, d];
    }
    return Some(Snapshot(root, records));
  }

  lemma ConfigIsKept()
    ensures !CredentialName(Config.FileName())
  {
    var l := "config.toml";
    assert Lower(l) == l;
    CredentialLetters(l);
  }
}
