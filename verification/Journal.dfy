/** The journal as data: its entries, the tool-recovery state a reader rebuilds, and what a reader accepts. */
module Journal {
  import opened Common
  import opened LongTask
  import opened Messages
  import opened Compaction

  datatype Operation = Started | Settled | BadOperation

  datatype Body =
    | MessageBody(message: Message)
    | OperationBody(callId: Option<Id>, operation: Operation)
    | CompactionBody(version: nat, throughId: Option<Id>, userEntryId: Id, summary: Summary)
    | LongTaskBody(record: Record)
    | OtherBody
    | UnsupportedBody

  /** One journal line after the session header. */
  datatype Entry = Entry(id: Id, parent: Option<Id>, body: Body) {
    predicate IsUser() { body.MessageBody? && body.message.IsUserRole() }
    predicate IsTask() { body.LongTaskBody? }
  }

  /** Tool calls by id with their names, results seen, and operations started or settled. */
  datatype Recovery = Recovery(calls: map<Id, Text>, results: set<Id>, started: set<Id>, settled: set<Id>) {
    /** Nothing is in flight. */
    predicate Complete() {
      started == {} && forall id <- calls :: id in results
    }
  }

  const NO_CALLS := Recovery(map[], {}, {}, {})

  /** Adds calls in order; None on the first id already present. */
  function InsertCalls(calls: map<Id, Text>, cs: seq<ToolCall>): Option<map<Id, Text>>
    decreases |cs|
  {
    if cs == [] then Some(calls)
    else if cs[0].id in calls then None
    else InsertCalls(calls[cs[0].id := cs[0].name], cs[1..])
  }

  predicate ReadableBlocks(blocks: seq<Block>) {
    forall b <- blocks :: !b.Raw?
  }

  function RecoverMessage(r: Recovery, m: Message): Option<Recovery> {
    match m
    case User(content, _) => if content.Readable() then Some(r) else None
    case Checkpoint(_, _) => Some(r)
    case Assistant(blocks, _) =>
      var cs := ToolCalls(blocks);
      if !ReadableBlocks(blocks) || cs.None? then None
      else
        var calls := InsertCalls(r.calls, cs.value);
        if calls.None? then None else Some(r.(calls := calls.value))
    case ToolResult(callId, toolName, content, _) =>
      if !content.Readable() || callId.None? then None
      else if callId.value !in r.calls || callId.value in r.results then None
      else if toolName.Some? && r.calls[callId.value] != toolName.value then None
      else Some(r.(results := r.results + {callId.value}))
    case OtherRole => None
  }

  function RecoverOperation(r: Recovery, callId: Option<Id>, operation: Operation): Option<Recovery> {
    if callId.None? || callId.value !in r.calls then None
    else
      var id := callId.value;
      match operation
      case Started =>
        if id in r.results || id in r.settled || id in r.started then None
        else Some(r.(started := r.started + {id}))
      case Settled =>
        if id !in r.results || id !in r.started || id in r.settled then None
        else Some(r.(started := r.started - {id}, settled := r.settled + {id}))
      case BadOperation => None
  }

  /** The state of the message scan after a prefix of the journal. */
  datatype Scan = Scan(last: Option<Entry>, messages: seq<Message>, latestUser: Option<Id>, recovery: Recovery) {
    function Prev(): Option<Id> {
      if last.None? then None else Some(last.value.id)
    }
  }

  const START := Scan(None, [], None, NO_CALLS)

  predicate CompactionOk(s: Scan, b: Body)
    requires b.CompactionBody?
  {
    && s.recovery.Complete()
    && s.latestUser.Some?
    && b.version == 1 && b.throughId == s.Prev() && b.userEntryId == s.latestUser.value
    && ValidSummary(b.summary, MAX_SUMMARY_BYTES)
    && CheckpointMessages(b.summary, s.messages).Some?
  }

  function ScanBody(s: Scan, e: Entry): Option<Scan> {
    match e.body
    case MessageBody(m) =>
      var r := RecoverMessage(s.recovery, m);
      if r.None? then None
      else Some(s.(messages := s.messages + [m], recovery := r.value,
                   latestUser := if m.IsUserRole() then Some(e.id) else s.latestUser))
    case OperationBody(callId, operation) =>
      var r := RecoverOperation(s.recovery, callId, operation);
      if r.None? then None else Some(s.(recovery := r.value))
    case CompactionBody(_, _, _, summary) =>
      if CompactionOk(s, e.body)
      then Some(s.(messages := CheckpointMessages(summary, s.messages).value)) else None
    case LongTaskBody(_) => Some(s)
    case OtherBody => Some(s)
    case UnsupportedBody => None
  }

  function ScanStep(s: Scan, e: Entry): Option<Scan> {
    if e.parent != s.Prev() then None
    else
      var t := ScanBody(s, e);
      if t.None? then None else Some(t.value.(last := Some(e)))
  }

  function ScanAll(es: seq<Entry>): Option<Scan> {
    if es == [] then Some(START)
    else
      var before := ScanAll(es[..|es| - 1]);
      if before.None? then None else ScanStep(before.value, es[|es| - 1])
  }

  /** The adjacency rules of creation and interruption records. */
  predicate Bound(last: Option<Entry>, r: Record) {
    && (r.ProviderInterrupted? ==>
          && last.Some? && last.value.IsTask()
          && last.value.body.record.RequestStarted? && last.value.body.record.sequence == r.sequence)
    && (r.Created? ==> last.Some? && last.value.IsUser() && last.value.id == r.userEntryId)
  }

  function Before(es: seq<Entry>, i: nat): Option<Entry>
    requires i <= |es|
  {
    if i == 0 then None else Some(es[i - 1])
  }

  /** The separate pass over the whole entry list that checks those rules. */
  predicate BindingsOk(es: seq<Entry>) {
    forall i :: 0 <= i < |es| && es[i].IsTask() ==>
      Bound(Before(es, i), es[i].body.record)
  }

  function Records(es: seq<Entry>): seq<Record> {
    if es == [] then []
    else Records(es[..|es| - 1]) + if es[|es| - 1].IsTask() then [es[|es| - 1].body.record] else []
  }

  /** What a session reader demands of a journal: the message scan, the binding pass and the ledger replay. */
  predicate Accepted(task: Id, es: seq<Entry>) {
    ScanAll(es).Some? && BindingsOk(es) && Replay(Records(es), Some(task)).Some?
  }

  /** Entry ids are nonempty and pairwise distinct. */
  ghost predicate UniqueIds(es: seq<Entry>) {
    && (forall i :: 0 <= i < |es| ==> es[i].id != EMPTY)
    && (forall i, j :: 0 <= i < j < |es| ==> es[i].id != es[j].id)
  }

  // One incremental reader that does the work of the three passes

  datatype View = View(scan: Scan, ledger: Snapshot)

  function TaskStep(task: Id, v: View, e: Entry): Option<Snapshot> {
    if !e.IsTask() then Some(v.ledger)
    else if !Bound(v.scan.last, e.body.record) then None
    else Apply(v.ledger, e.body.record, Some(task))
  }

  function Step(task: Id, v: View, e: Entry): Option<View> {
    var s := ScanStep(v.scan, e);
    var l := TaskStep(task, v, e);
    if s.None? || l.None? then None else Some(View(s.value, l.value))
  }

  function Read(task: Id, es: seq<Entry>): Option<View> {
    if es == [] then Some(View(START, EMPTY_LEDGER))
    else
      var before := Read(task, es[..|es| - 1]);
      if before.None? then None else Step(task, before.value, es[|es| - 1])
  }

  lemma ReadSnoc(task: Id, es: seq<Entry>, e: Entry)
    ensures Read(task, es + [e]) ==
            if Read(task, es).None? then None else Step(task, Read(task, es).value, e)
  {
    assert (es + [e])[..|es + [e]| - 1] == es;
  }

  lemma {:induction false} ScanLast(es: seq<Entry>)
    requires ScanAll(es).Some?
    ensures ScanAll(es).value.last == if es == [] then None else Some(es[|es| - 1])
  {
  }

  lemma BindingsSnoc(es: seq<Entry>)
    requires es != []
    ensures BindingsOk(es) <==>
            && BindingsOk(es[..|es| - 1])
            && (es[|es| - 1].IsTask() ==> Bound(Before(es, |es| - 1), es[|es| - 1].body.record))
  {
    var init := es[..|es| - 1];
    assert forall i :: 0 <= i < |init| ==> init[i] == es[i] && Before(init, i) == Before(es, i);
  }

  /** The three passes of the reader accept exactly what the one-step reader accepts, with the same result. So
      acceptance is a property of every prefix, and an append can be judged from the state before it. */
  lemma {:induction false} ReadIsAccepted(task: Id, es: seq<Entry>)
    ensures Read(task, es).Some? <==> Accepted(task, es)
    ensures Accepted(task, es) ==>
            Read(task, es).value == View(ScanAll(es).value, Replay(Records(es), Some(task)).value)
  {
    if es != [] {
      var init, e := es[..|es| - 1], es[|es| - 1];
      ReadIsAccepted(task, init);
      BindingsSnoc(es);
      if e.IsTask() {
        ReplaySnoc(Records(init), e.body.record, Some(task));
      } else {
        assert Records(es) == Records(init);
      }
      if ScanAll(init).Some? {
        ScanLast(init);
      }
    }
  }

  lemma {:induction false} ReadPrefix(task: Id, es: seq<Entry>, k: nat)
    requires Read(task, es).Some? && k <= |es|
    ensures Read(task, es[..k]).Some?
  {
    if k == |es| {
      assert es[..k] == es;
    } else {
      assert es[..|es| - 1][..k] == es[..k];
      ReadPrefix(task, es[..|es| - 1], k);
    }
  }

  // Recovery bookkeeping

  ghost predicate Tidy(r: Recovery) {
    && r.results <= r.calls.Keys
    && r.started <= r.calls.Keys
    && r.settled <= r.results
    && r.started !! r.settled
  }

  /** The calls of one message may be inserted: their ids are new and distinct. */
  ghost predicate FreshCalls(known: set<Id>, cs: seq<ToolCall>) {
    && (forall i :: 0 <= i < |cs| ==> cs[i].id !in known)
    && (forall i, j :: 0 <= i < j < |cs| ==> cs[i].id != cs[j].id)
  }

  function Ids(cs: seq<ToolCall>): set<Id> {
    set i | 0 <= i < |cs| :: cs[i].id
  }

  lemma FreshCallsCons(known: set<Id>, cs: seq<ToolCall>)
    requires cs != []
    ensures FreshCalls(known, cs) <==> cs[0].id !in known && FreshCalls(known + {cs[0].id}, cs[1..])
  {
    var rest := cs[1..];
    assert forall i :: 0 <= i < |rest| ==> rest[i] == cs[i + 1];
    if FreshCalls(known + {cs[0].id}, rest) {
      forall i, j | 0 <= i < j < |cs| ensures cs[i].id != cs[j].id {
        assert cs[j] == rest[j - 1] && (i == 0 || cs[i] == rest[i - 1]);
      }
      forall i | 1 <= i < |cs| ensures cs[i].id !in known {
        assert cs[i] == rest[i - 1];
      }
    }
    if FreshCalls(known, cs) {
      assert forall i :: 0 <= i < |rest| ==> cs[0].id != rest[i].id;
    }
  }

  /** Calls are inserted exactly when their ids are new and distinct; then nothing else changes. */
  lemma {:induction false} InsertCallsExact(calls: map<Id, Text>, cs: seq<ToolCall>)
    ensures InsertCalls(calls, cs).Some? <==> FreshCalls(calls.Keys, cs)
    ensures InsertCalls(calls, cs).Some? ==>
            var after := InsertCalls(calls, cs).value;
            && after.Keys == calls.Keys + Ids(cs)
            && (forall id <- calls :: after[id] == calls[id])
            && (forall i :: 0 <= i < |cs| ==> cs[i].id in after && after[cs[i].id] == cs[i].name)
    decreases |cs|
  {
    if cs != [] {
      var rest := cs[1..];
      var with := calls[cs[0].id := cs[0].name];
      FreshCallsCons(calls.Keys, cs);
      assert with.Keys == calls.Keys + {cs[0].id};
      assert forall i :: 1 <= i < |cs| ==> cs[i] == rest[i - 1];
      assert Ids(cs) == {cs[0].id} + Ids(rest);
      hide FreshCalls, Ids;
      InsertCallsExact(with, rest);
    }
  }
}
