/** The mutable side of the protocol: the recovery table, the session and the ledger, updated as the program does. */
module Durable {
  import opened Common
  import opened LongTask
  import opened Messages
  import opened Compaction
  import opened Journal
  import opened JournalHistory

  /** Tool recovery, rebuilt entry by entry. */
  class RecoveryTable {
    var calls: map<Id, Text>
    var results: set<Id>
    var started: set<Id>
    var settled: set<Id>

    function View(): Recovery
      reads this
    {
      Recovery(calls, results, started, settled)
    }

    constructor ()
      ensures View() == NO_CALLS
    {
      calls, results, started, settled := map[], {}, {}, {};
    }

    method Message(m: Message) returns (ok: bool)
      modifies this
      ensures ok <==> RecoverMessage(old(View()), m).Some?
      ensures ok ==> View() == RecoverMessage(old(View()), m).value
    {
      match m
      case User(content, _) => return content.Readable();
      case Checkpoint(_, _) => return true;
      case Assistant(blocks, _) =>
        var cs := ToolCalls(blocks);
        if !ReadableBlocks(blocks) || cs.None? {
          return false;
        }
        for i := 0 to |cs.value|
          invariant results == old(results) && started == old(started) && settled == old(settled)
          invariant InsertCalls(calls, cs.value[i..]) == InsertCalls(old(calls), cs.value)
        {
          if cs.value[i].id in calls {
            return false;
          }
          calls := calls[cs.value[i].id := cs.value[i].name];
        }
        return true;
      case ToolResult(callId, toolName, content, _) =>
        if !content.Readable() || callId.None? || callId.value !in calls || callId.value in results {
          return false;
        }
        results := results + {callId.value};
        return toolName.None? || calls[callId.value] == toolName.value;
      case OtherRole => return false;
    }

    method Operation(callId: Option<Id>, operation: Operation) returns (ok: bool)
      modifies this
      ensures ok <==> RecoverOperation(old(View()), callId, operation).Some?
      ensures ok ==> View() == RecoverOperation(old(View()), callId, operation).value
    {
      if callId.None? || callId.value !in calls {
        return false;
      }
      var id := callId.value;
      match operation
      case Started =>
        if id in results || id in settled || id in started {
          return false;
        }
        started := started + {id};
        return true;
      case Settled =>
        if id !in results || id !in started || id in settled {
          return false;
        }
        started, settled := started - {id}, settled + {id};
        return true;
      case BadOperation => return false;
    }
  }

  /** The step one landed live record makes: live code may write it, and replaying it gives the new fields. */
  predicate Advanced(task: Id, s: Snapshot, t: Snapshot, r: Record) {
    LiveWrites(s, r, Some(task)) && Apply(s, r, Some(task)) == Some(t)
  }

  /** One entry was added: linked to its predecessor, under an unused id. */
  ghost predicate Appended(before: seq<Entry>, after: seq<Entry>, body: Body) {
    && |after| == |before| + 1
    && after == before + [after[|before|]]
    && after[|before|].parent == LastId(before)
    && after[|before|].body == body
    && UniqueIds(after)
  }

  /** An id no entry has; drawing again until the id is unused can end in any such id. */
  function UnusedId(es: seq<Entry>): (id: Id)
    ensures id != EMPTY && forall e <- es :: e.id < id
  {
    if es == [] then EMPTY + 1
    else
      var rest := UnusedId(es[..|es| - 1]);
      assert forall e <- es :: e in es[..|es| - 1] || e == es[|es| - 1];
      Max(rest, es[|es| - 1].id + 1)
  }

  /** The open journal of one session. Appends land whole or not at all. */
  class Session {
    const task: Id
    /** Only long-task runs use this journal. */
    ghost const longOnly: bool
    var entries: seq<Entry>
    /** What the next append will meet: room in the journal and a write that succeeds, or not. */
    var writable: bool

    constructor (task: Id, ghost longOnly: bool)
      ensures this.task == task && this.longOnly == longOnly && entries == []
    {
      this.task, this.longOnly, entries, writable := task, longOnly, [], *;
    }

    /** Draws ids until one is unused, and writes one line; a failed write leaves the journal as it was. */
    method Append(body: Body) returns (id: Option<Id>)
      requires UniqueIds(entries)
      modifies this
      ensures id.Some? <==> old(writable)
      ensures id.None? ==> entries == old(entries)
      ensures id.Some? ==> Appended(old(entries), entries, body) && entries[|old(entries)|].id == id.value
    {
      var drawn: Id := *;
      if drawn <= EMPTY || exists e <- entries :: e.id == drawn {
        drawn := UnusedId(entries);
      }
      var lands := writable;
      writable := *;
      if !lands {
        return None;
      }
      entries := entries + [Entry(drawn, LastId(entries), body)];
      return Some(drawn);
    }

    method RecordLongTask(r: Record) returns (landed: bool)
      requires UniqueIds(entries)
      modifies this
      ensures landed <==> old(writable)
      ensures !landed ==> entries == old(entries)
      ensures landed ==> Appended(old(entries), entries, LongTaskBody(r))
    {
      var id := Append(LongTaskBody(r));
      return id.Some?;
    }

    /** Accepted, with nothing in flight. */
    method CheckRecovery() returns (ok: bool)
      ensures ok <==> Accepted(task, entries) && ScanAll(entries).value.recovery.Complete()
    {
      var scanned := ScanEntries(task, entries);
      return scanned.Some? && scanned.value.1.Complete();
    }

    method Messages() returns (messages: Option<seq<Message>>)
      ensures messages.Some? <==> Accepted(task, entries) && ScanAll(entries).value.recovery.Complete()
      ensures messages.Some? ==> messages.value == ScanAll(entries).value.messages
    {
      var scanned := ScanEntries(task, entries);
      if scanned.None? || !scanned.value.1.Complete() {
        return None;
      }
      return Some(scanned.value.0);
    }

    method ToolCallIds() returns (ids: Option<set<Id>>)
      ensures ids.Some? <==> Accepted(task, entries)
      ensures ids.Some? ==> ids.value == ScanAll(entries).value.recovery.calls.Keys
    {
      var scanned := ScanEntries(task, entries);
      if scanned.None? {
        return None;
      }
      return Some(scanned.value.1.calls.Keys);
    }

    /** Writes a checkpoint. Once it has landed, the reader accepts the journal exactly when the context held a
        request to keep, and then it rebuilds exactly the checkpoint messages. */
    method RecordCompaction(summary: Summary) returns (landed: bool)
      requires UniqueIds(entries)
      modifies this
      ensures landed <==>
                && old(writable) && ValidSummary(summary, MAX_SUMMARY_BYTES)
                && Accepted(task, old(entries)) && ScanAll(old(entries)).value.recovery.Complete()
                && ScanAll(old(entries)).value.latestUser.Some?
      ensures !landed ==> entries == old(entries)
      ensures landed ==>
                && |entries| == |old(entries)| + 1 && old(entries) <= entries && UniqueIds(entries)
                && var before := ScanAll(old(entries)).value;
                   && entries[|old(entries)|].body ==
                      CompactionBody(1, LastId(old(entries)), before.latestUser.value, summary)
                   && (Accepted(task, entries) <==> LatestUser(before.messages).Some?)
                   && (Accepted(task, entries) ==>
                         && CheckpointMessages(summary, before.messages).Some?
                         && ScanAll(entries).value ==
                            before.(messages := CheckpointMessages(summary, before.messages).value,
                                    last := Some(entries[|entries| - 1]))
                         && Replay(Records(entries), Some(task)) == Replay(Records(old(entries)), Some(task)))
    {
      var settled := CheckRecovery();
      if !settled || !ValidSummary(summary, MAX_SUMMARY_BYTES) {
        return false;
      }
      var user := LastUserEntry();
      if user.None? || entries == [] {
        return false;
      }
      ghost var before := ScanAll(entries).value;
      var id := Append(CompactionBody(1, LastId(entries), user.value, summary));
      if id.None? {
        return false;
      }
      landed := true;
      CompactionReads(task, old(entries), entries[|entries| - 1], summary);
    }

    /** The newest entry with the user role, searched from the end. */
    method LastUserEntry() returns (id: Option<Id>)
      ensures ScanAll(entries).Some? ==> id == ScanAll(entries).value.latestUser
    {
      var i := |entries|;
      assert entries[..i] == entries;
      while i > 0
        invariant 0 <= i <= |entries|
        invariant ScanAll(entries).Some? ==>
                    ScanAll(entries[..i]).Some?
                    && ScanAll(entries[..i]).value.latestUser == ScanAll(entries).value.latestUser
      {
        i := i - 1;
        assert entries[..i + 1][..i] == entries[..i];
        if entries[i].IsUser() {
          return Some(entries[i].id);
        }
      }
      return None;
    }
  }

  /** What the reader makes of a checkpoint entry written by RecordCompaction. */
  lemma CompactionReads(task: Id, es: seq<Entry>, e: Entry, summary: Summary)
    requires Accepted(task, es) && ScanAll(es).value.recovery.Complete() && ValidSummary(summary, MAX_SUMMARY_BYTES)
    requires es != [] && e.parent == LastId(es) && ScanAll(es).value.latestUser.Some?
    requires e.body == CompactionBody(1, LastId(es), ScanAll(es).value.latestUser.value, summary)
    ensures var s := ScanAll(es).value;
            && (Accepted(task, es + [e]) <==> LatestUser(s.messages).Some?)
            && (Accepted(task, es + [e]) ==>
                  && CheckpointMessages(summary, s.messages).Some?
                  && ScanAll(es + [e]).value ==
                     s.(messages := CheckpointMessages(summary, s.messages).value, last := Some(e))
                  && Replay(Records(es + [e]), Some(task)) == Replay(Records(es), Some(task)))
  {
    hide BindingsOk, Read, ScanAll, Replay, Step, ValidSummary, LatestUser, ObserveAll, MayWrite, CheckpointMessages;
    ReadIsAccepted(task, es);
    ReadIsAccepted(task, es + [e]);
    CheckpointWorks(es, summary);
    AppendReads(false, task, es, e, Read(task, es).value);
    ReadLast(task, es);
  }

  /** A readable context without open calls makes a checkpoint exactly when it holds a request. */
  lemma CheckpointWorks(es: seq<Entry>, summary: Summary)
    requires ScanAll(es).Some? && ScanAll(es).value.recovery.Complete()
    ensures CheckpointMessages(summary, ScanAll(es).value.messages).Some? <==>
            LatestUser(ScanAll(es).value.messages).Some?
  {
    CompactionTransparent(es);
    hide ObserveAll, LatestUser, ScanAll;
  }

  /** A journal of that kind: its only user entry is a continuation notice. Every check before the write passes, the
      checkpoint lands, and the journal cannot be read any more. */
  lemma ContinuationOnlyIsUnreadable(task: Id, notice: Message, summary: Summary)
    requires notice == User(Plain(""), true) && summary == Summary("x", [], [], [], [])
    ensures var es := [Entry(1, None, MessageBody(notice))];
            var e := Entry(2, Some(1), CompactionBody(1, Some(1), 1, summary));
            && Accepted(task, es) && ScanAll(es).value.recovery.Complete()
            && ScanAll(es).value.latestUser == Some(1) && ValidSummary(summary, MAX_SUMMARY_BYTES)
            && UniqueIds(es + [e]) && ScanAll(es + [e]).None?
  {
    var es := [Entry(1, None, MessageBody(notice))];
    var e := Entry(2, Some(1), CompactionBody(1, Some(1), 1, summary));
    SummaryIsValid(summary);
    NoticeOnly(task, notice);
    NoRequestNoCheckpoint(ScanAll(es).value, e);
    assert (es + [e])[..1] == es;
    hide ValidSummary, ScanStep, Accepted, LatestUser;
  }

  lemma NoRequestNoCheckpoint(s: Scan, e: Entry)
    requires e.body.CompactionBody? && LatestUser(s.messages).None?
    ensures ScanStep(s, e).None?
  {
    hide ValidSummary, ObserveAll, LatestUser;
  }

  lemma NoticeOnly(task: Id, notice: Message)
    requires notice == User(Plain(""), true)
    ensures var first := Entry(1, None, MessageBody(notice));
            && ScanAll([first]) == Some(Scan(Some(first), [notice], Some(1), NO_CALLS))
            && Accepted(task, [first]) && NO_CALLS.Complete() && LastId([first]) == Some(1)
    ensures LatestUser([notice]) == None
  {
    var first := Entry(1, None, MessageBody(notice));
    var es, ms := [first], [notice];
    assert es[..0] == [] && ms[..0] == [];
    assert ScanAll(es[..0]) == Some(START) && Records(es[..0]) == [] && LatestUser(ms[..0]) == None;
    assert [] + [notice] == [notice];
    hide Apply, RecoverOperation;
  }

  lemma SummaryIsValid(summary: Summary)
    requires summary == Summary("x", [], [], [], [])
    ensures ValidSummary(summary, MAX_SUMMARY_BYTES)
  {
    assert summary.objective[0] == 'x' && !IsWhite('x');
    assert JsonBodyBytes(summary.objective[1..]) == 0;
  }

  /** The reader's message scan, its binding pass and its ledger replay, in the program's order. */
  method ScanEntries(task: Id, es: seq<Entry>) returns (r: Option<(seq<Message>, Recovery)>)
    ensures r.Some? <==> Accepted(task, es)
    ensures r.Some? ==> r.value.0 == ScanAll(es).value.messages && r.value.1 == ScanAll(es).value.recovery
  {
    var prev: Option<Id> := None;
    var messages: seq<Message> := [];
    var latestUser: Option<Id> := None;
    var recovery := new RecoveryTable();
    for i := 0 to |es|
      invariant fresh(recovery)
      invariant ScanAll(es[..i]).Some?
      invariant var s := ScanAll(es[..i]).value;
                s.Prev() == prev && s.messages == messages && s.latestUser == latestUser
                && s.recovery == recovery.View()
    {
      var e := es[i];
      ScanTake(es, i);
      ScanFails(es, i + 1);
      if e.parent != prev {
        return None;
      }
      match e.body {
        case MessageBody(m) =>
          var ok := recovery.Message(m);
          if !ok {
            return None;
          }
          if m.IsUserRole() {
            latestUser := Some(e.id);
          }
          messages := messages + [m];
        case OperationBody(callId, operation) =>
          var ok := recovery.Operation(callId, operation);
          if !ok {
            return None;
          }
        case CompactionBody(version, throughId, userEntryId, summary) =>
          if !recovery.View().Complete() || latestUser.None? {
            return None;
          }
          if version != 1 || throughId != prev || userEntryId != latestUser.value {
            return None;
          }
          if !ValidSummary(summary, MAX_SUMMARY_BYTES) {
            return None;
          }
          var compacted := BuildCheckpoint(summary, messages);
          if compacted.None? {
            return None;
          }
          messages := compacted.value;
        case LongTaskBody(_) =>
        case OtherBody =>
        case UnsupportedBody => return None;
      }
      prev := Some(e.id);
    }
    assert es[..|es|] == es;
    var bound := ValidateBindings(es);
    if !bound {
      return None;
    }
    var replayed, _ := FromRecords(Records(es), Some(task));
    if !replayed {
      return None;
    }
    return Some((messages, recovery.View()));
  }

  lemma ScanTake(es: seq<Entry>, i: nat)
    requires i < |es|
    ensures ScanAll(es[..i + 1]) ==
            if ScanAll(es[..i]).None? then None else ScanStep(ScanAll(es[..i]).value, es[i])
  {
    assert es[..i + 1][..i] == es[..i];
  }

  lemma {:induction false} ScanFails(es: seq<Entry>, k: nat)
    requires k <= |es|
    ensures ScanAll(es).Some? ==> ScanAll(es[..k]).Some?
  {
    if k == |es| {
      assert es[..k] == es;
    } else {
      assert es[..|es| - 1][..k] == es[..k];
      ScanFails(es[..|es| - 1], k);
    }
  }

  method ValidateBindings(es: seq<Entry>) returns (ok: bool)
    ensures ok <==> BindingsOk(es)
  {
    for i := 0 to |es|
      invariant forall k :: 0 <= k < i && es[k].IsTask() ==> Bound(Before(es, k), es[k].body.record)
    {
      if es[i].IsTask() {
        var r := es[i].body.record;
        if r.ProviderInterrupted? {
          if i == 0 || !es[i - 1].IsTask() || !es[i - 1].body.record.RequestStarted?
             || es[i - 1].body.record.sequence != r.sequence {
            return false;
          }
        }
        if r.Created? {
          if i == 0 || es[i - 1].id != r.userEntryId || !es[i - 1].IsUser() {
            return false;
          }
        }
      }
    }
    return true;
  }

  datatype TaskStatus = TaskStatus(ledger: Snapshot, blocked: bool, resumeAllowed: bool)

  function EntryIds(es: seq<Entry>): set<Id> {
    set i | 0 <= i < |es| :: es[i].id
  }

  lemma UniqueNone()
    ensures UniqueIds([]) && EntryIds([]) == {}
  {
  }

  lemma UniqueTake(es: seq<Entry>, i: nat)
    requires i < |es|
    ensures UniqueIds(es[..i + 1]) <==>
            UniqueIds(es[..i]) && es[i].id != EMPTY && es[i].id !in EntryIds(es[..i])
    ensures EntryIds(es[..i + 1]) == EntryIds(es[..i]) + {es[i].id}
    ensures UniqueIds(es) ==> UniqueIds(es[..i + 1])
  {
    var a, b := es[..i], es[..i + 1];
    assert forall k :: 0 <= k < i ==> b[k] == a[k] == es[k];
    assert b[i] == es[i];
  }

  /** The status projection reads messages more leniently than the reader: where the reader accepts, it agrees. */
  method InspectMessage(r: Recovery, m: Message) returns (ok: bool, next: Recovery)
    ensures RecoverMessage(r, m).Some? ==> ok && next == RecoverMessage(r, m).value
  {
    ok, next := false, r;
    match m
    case Assistant(blocks, _) =>
      var cs := ToolCalls(blocks);
      if cs.Some? {
        var inserted := InsertCalls(r.calls, cs.value);
        if inserted.Some? {
          ok, next := true, r.(calls := inserted.value);
        }
      }
    case ToolResult(callId, toolName, _, _) =>
      if callId.Some? && callId.value in r.calls && callId.value !in r.results {
        ok := toolName.None? || r.calls[callId.value] == toolName.value;
        next := r.(results := r.results + {callId.value});
      }
    case User(_, _) => ok := true;
    case Checkpoint(_, _) => ok := true;
    case OtherRole =>
  }

  /** It also lets an operation start after its result; the reader's own pass refuses that later. */
  method InspectOperation(r: Recovery, callId: Option<Id>, operation: Operation) returns (ok: bool, next: Recovery)
    ensures RecoverOperation(r, callId, operation).Some? ==> ok && next == RecoverOperation(r, callId, operation).value
  {
    ok, next := false, r;
    if callId.None? || callId.value !in r.calls {
      return;
    }
    var id := callId.value;
    match operation
    case Started =>
      ok := id !in r.started && id !in r.settled;
      next := r.(started := r.started + {id});
    case Settled =>
      ok := id in r.results && id in r.started && id !in r.settled;
      next := r.(started := r.started - {id}, settled := r.settled + {id});
    case BadOperation =>
  }

  /** The read-only status of a journal. It keeps its own call and operation tables, with weaker checks than the
      reader; it still accepts exactly the journals the reader accepts whose entry ids are unique, and it reports
      a resume as allowed exactly when the reader finds nothing in flight and the ledger agrees. */
  method InspectEntries(task: Id, es: seq<Entry>) returns (r: Option<TaskStatus>)
    ensures r.Some? <==> UniqueIds(es) && Accepted(task, es)
    ensures r.Some? ==>
              && r.value.ledger == Replay(Records(es), Some(task)).value
              && (r.value.blocked <==> !ScanAll(es).value.recovery.Complete())
              && (r.value.resumeAllowed <==>
                    ScanAll(es).value.recovery.Complete() && r.value.ledger.ResumeAllowed())
  {
    hide UniqueIds, EntryIds, RecoverMessage, RecoverOperation, CheckpointMessages, Apply;
    UniqueNone();
    var previous: Option<Id> := None;
    var tables := NO_CALLS;
    var seen: set<Id> := {};
    assert es[..0] == [];
    for i := 0 to |es|
      invariant seen == EntryIds(es[..i]) && UniqueIds(es[..i])
      invariant ScanAll(es[..i]).Some? ==>
                  ScanAll(es[..i]).value.Prev() == previous && ScanAll(es[..i]).value.recovery == tables
    {
      var e := es[i];
      UniqueTake(es, i);
      ScanTake(es, i);
      ScanFails(es, i + 1);
      if e.id == EMPTY || e.id in seen {
        return None;
      }
      seen := seen + {e.id};
      if e.parent != previous {
        return None;
      }
      var ok := true;
      match e.body {
        case MessageBody(m) => ok, tables := InspectMessage(tables, m);
        case OperationBody(callId, operation) => ok, tables := InspectOperation(tables, callId, operation);
        case CompactionBody(_, _, _, _) =>
        case LongTaskBody(_) =>
        case OtherBody =>
        case UnsupportedBody => ok := false;
      }
      if !ok {
        return None;
      }
      previous := Some(e.id);
    }
    assert es[..|es|] == es;
    var scanned := ScanEntries(task, es);
    if scanned.None? {
      return None;
    }
    var bound := ValidateBindings(es);
    var replayed, ledger := FromRecords(Records(es), Some(task));
    if !bound || !replayed {
      return None;
    }
    var blocked := tables.started != {} || exists id <- tables.calls :: id !in tables.results;
    return Some(TaskStatus(ledger.fields, blocked, !blocked && ledger.fields.ResumeAllowed()));
  }

  datatype PendingResponse = PendingResponse(sequence: nat, elapsedMs: nat, tokens: TokenDelta)

  /** The ledger as the runtime holds it: the fields the journal can restore, and the response of an action
      request that is not settled yet, which lives in memory only. */
  class Ledger {
    var fields: Snapshot
    var pendingResponse: Option<PendingResponse>

    constructor ()
      ensures fields == EMPTY_LEDGER && pendingResponse == None
    {
      fields, pendingResponse := EMPTY_LEDGER, None;
    }

    /** Counts one request of the given checked total. A failing call may leave some counters moved. */
    method AddRequest(elapsed: nat, total: Option<nat>) returns (ok: bool)
      requires fields.limits.Some?
      modifies this`fields
      ensures ok <==> total.Some? && old(fields).CanAdd(total.value)
      ensures ok ==> fields == old(fields).Add(elapsed, total.value)
    {
      if fields.requests >= fields.limits.value.maxRequests {
        return false;
      }
      fields := fields.(requests := fields.requests + 1);
      fields := fields.(stageRequests := fields.stageRequests + 1);
      if total.None? || fields.reportedTokens + total.value > U64_MAX {
        return false;
      }
      fields := fields.(reportedTokens := fields.reportedTokens + total.value);
      fields := fields.(elapsedMs := elapsed);
      return true;
    }

    /** One step of replay, in the program's order of checks and updates. */
    method Apply(r: Record, expected: Option<Id>) returns (ok: bool)
      modifies this
      ensures ok <==> LongTask.Apply(old(fields), r, expected).Some?
                      && (r.ProviderInterrupted? ==> old(pendingResponse).None?)
      ensures ok ==> fields == LongTask.Apply(old(fields), r, expected).value
      ensures old(pendingResponse).None? ==> pendingResponse.None?
    {
      match r
      case Malformed => return false;
      case Created(_, _, _) => ok := ApplyCreated(r, expected);
      case RequestSettled(_, _, _, _, _, _) => ok := ApplyEnd(r, expected);
      case RequestFailed(_, _, _, _, _, _) => ok := ApplyEnd(r, expected);
      case ProviderInterrupted(_, _, _, _, _) => ok := ApplyInterruption(r, expected);
      case StageCheckpoint(_, _, _, _, _) => ok := ApplyCheckpoint(r, expected);
      case ToolBatch(_, _, _, _, _) => ok := ApplyBatch(r, expected);
      case RequestStarted(sequence, stage, elapsed) =>
        if || fields.limits.None? || fields.pendingSequence.Some?
           || (fields.state != Ready && fields.state != Paused)
           || sequence != fields.requests + 1 || stage != fields.stage || !fields.ElapsedOk(elapsed)
        {
          return false;
        }
        fields := fields.(pendingSequence := Some(sequence), state := PendingProvider, elapsedMs := elapsed);
        return true;
      case TaskPaused(_, stage, elapsed) =>
        if fields.limits.None? || fields.state != Ready || stage != fields.stage || !fields.ElapsedOk(elapsed) {
          return false;
        }
        fields := fields.(elapsedMs := elapsed, state := Paused);
        return true;
      case TaskFailed(category, stage, elapsed) =>
        if || fields.limits.None? || fields.state != Ready
           || (category != Runtime && category != RequestBudget)
           || stage != fields.stage || !fields.ElapsedOk(elapsed)
        {
          return false;
        }
        fields := fields.(elapsedMs := elapsed, state := Failed, terminalReason := Some(category));
        return true;
      case TaskCompleted(stage, elapsed) =>
        if fields.state != FinalPending || fields.limits.None? || stage != fields.stage || !fields.ElapsedOk(elapsed) {
          return false;
        }
        fields := fields.(elapsedMs := elapsed, state := Completed);
        return true;
    }

    method ApplyCreated(r: Record, expected: Option<Id>) returns (ok: bool)
      requires r.Created?
      modifies this
      ensures ok <==> LongTask.Apply(old(fields), r, expected).Some?
      ensures ok ==> fields == LongTask.Apply(old(fields), r, expected).value
      ensures old(pendingResponse).None? ==> pendingResponse.None?
    {
      if fields.limits.Some? {
        if fields.state != Completed && fields.state != Failed {
          return false;
        }
        fields, pendingResponse := EMPTY_LEDGER, None;
      }
      if (expected.Some? && r.taskId != expected.value) || r.userEntryId == EMPTY || !r.limits.Valid() {
        return false;
      }
      fields := fields.(limits := Some(r.limits), userEntryId := Some(r.userEntryId), state := Ready);
      return true;
    }

    /** request_settled and request_failed: the two ways a reservation ends with a known usage. */
    method ApplyEnd(r: Record, expected: Option<Id>) returns (ok: bool)
      requires r.RequestSettled? || r.RequestFailed?
      modifies this`fields
      ensures ok <==> LongTask.Apply(old(fields), r, expected).Some?
      ensures ok ==> fields == LongTask.Apply(old(fields), r, expected).value
    {
      if || fields.limits.None? || fields.pendingSequence != Some(r.sequence) || r.stage != fields.stage
         || !fields.ElapsedOk(r.elapsedMs) || r.tokens.Total() != Some(r.total)
      {
        return false;
      }
      ok := AddRequest(r.elapsedMs, r.tokens.Total());
      if !ok {
        return;
      }
      if r.RequestSettled? {
        fields := fields.(pendingSequence := None, state := StateAfter(r.kind));
      } else {
        fields := fields.(pendingSequence := None, state := Failed, terminalReason := Some(r.category));
      }
    }

    method ApplyInterruption(r: Record, expected: Option<Id>) returns (ok: bool)
      requires r.ProviderInterrupted?
      modifies this`fields
      ensures ok <==> LongTask.Apply(old(fields), r, expected).Some? && pendingResponse.None?
      ensures ok ==> fields == LongTask.Apply(old(fields), r, expected).value
    {
      if || fields.limits.None? || fields.state != PendingProvider || pendingResponse.Some?
         || fields.pendingSequence != Some(r.sequence) || r.stage != fields.stage
         || !fields.ElapsedOk(r.elapsedMs) || fields.interruptedRequests >= MAX_INTERRUPTED_REQUESTS
      {
        return false;
      }
      ok := AddRequest(r.elapsedMs, Some(0));
      if !ok {
        return;
      }
      fields := fields.(interruptedRequests := fields.interruptedRequests + 1,
                        interruptionReason := Some(r.reason), pendingSequence := None, state := Paused);
    }

    method ApplyCheckpoint(r: Record, expected: Option<Id>) returns (ok: bool)
      requires r.StageCheckpoint?
      modifies this`fields
      ensures ok <==> LongTask.Apply(old(fields), r, expected).Some?
      ensures ok ==> fields == LongTask.Apply(old(fields), r, expected).value
    {
      if || fields.limits.None? || fields.state != Ready || r.stage != fields.stage + 1
         || !(0 < r.stageRequests <= fields.limits.value.maxRequests) || !fields.ElapsedOk(r.elapsedMs)
         || !r.fingerprint.Digest? || fields.lastFingerprint != Some(r.fingerprint)
         || r.repeatCount != fields.repeatCount || r.repeatCount > fields.limits.value.repeatLimit
      {
        return false;
      }
      fields := fields.(stage := r.stage, stageRequests := 0, elapsedMs := r.elapsedMs);
      return true;
    }

    method ApplyBatch(r: Record, expected: Option<Id>) returns (ok: bool)
      requires r.ToolBatch?
      modifies this`fields
      ensures ok <==> LongTask.Apply(old(fields), r, expected).Some?
      ensures ok ==> fields == LongTask.Apply(old(fields), r, expected).value
    {
      if || fields.limits.None? || fields.state != PendingTools || r.stage != fields.stage
         || !(0 < r.stageRequests <= fields.limits.value.maxRequests) || !fields.ElapsedOk(r.elapsedMs)
         || !r.fingerprint.Digest?
      {
        return false;
      }
      var repeat := fields.NextRepeat(r.fingerprint);
      if r.repeatCount != repeat || repeat > fields.limits.value.repeatLimit {
        return false;
      }
      fields := fields.(stageRequests := r.stageRequests, elapsedMs := r.elapsedMs,
                        lastFingerprint := Some(r.fingerprint), repeatCount := repeat, state := Ready);
      return true;
    }

    // The live methods. Each writes its record exactly when the append will land and the record is one that live code
    // may write; the fields change only once it has landed, to what replaying it gives.

    method BeginRequest(session: Session, elapsed: nat) returns (sequence: Option<nat>)
      requires Consistent(fields) && UniqueIds(session.entries)
      modifies this`fields, session
      ensures sequence.Some? <==>
                && old(session.writable)
                && LiveWrites(old(fields), RequestStarted(old(fields).requests + 1, old(fields).stage, elapsed),
                              Some(session.task))
      ensures sequence.None? ==> fields == old(fields) && session.entries == old(session.entries)
      ensures sequence.Some? ==>
                var r := RequestStarted(sequence.value, old(fields).stage, elapsed);
                Advanced(session.task, old(fields), fields, r)
                && Appended(old(session.entries), session.entries, LongTaskBody(r))
    {
      if || fields.limits.None? || !fields.ResumeAllowed()
         || fields.requests >= fields.limits.value.maxRequests
         || fields.reportedTokens >= fields.limits.value.maxTokens
         || !fields.ElapsedOk(elapsed)
      {
        return None;
      }
      var next := fields.requests + 1;
      var landed := session.RecordLongTask(RequestStarted(next, fields.stage, elapsed));
      if !landed {
        return None;
      }
      fields := fields.(pendingSequence := Some(next), state := PendingProvider, elapsedMs := elapsed);
      return Some(next);
    }

    method SettleRequest(session: Session, kind: ResponseKind, elapsed: nat, tokens: TokenDelta) returns (ok: bool)
      requires Consistent(fields) && UniqueIds(session.entries)
      modifies this`fields, session
      ensures ok <==>
                && old(session.writable) && old(fields).pendingSequence.Some? && tokens.Total().Some?
                && LiveWrites(old(fields), RequestSettled(old(fields).pendingSequence.value, old(fields).stage, elapsed,
                                                          kind, tokens, tokens.Total().value), Some(session.task))
      ensures !ok ==> fields == old(fields) && session.entries == old(session.entries)
      ensures ok ==>
                && old(fields).pendingSequence.Some? && tokens.Total().Some?
                && var r := RequestSettled(old(fields).pendingSequence.value, old(fields).stage, elapsed, kind,
                                           tokens, tokens.Total().value);
                   Advanced(session.task, old(fields), fields, r)
                   && Appended(old(session.entries), session.entries, LongTaskBody(r))
    {
      var total := tokens.Total();
      if || fields.pendingSequence.None? || fields.limits.None? || !fields.ElapsedOk(elapsed) || total.None?
         || fields.requests >= fields.limits.value.maxRequests || fields.reportedTokens + total.value > U64_MAX
      {
        return false;
      }
      ok := session.RecordLongTask(
        RequestSettled(fields.pendingSequence.value, fields.stage, elapsed, kind, tokens, total.value));
      if ok {
        fields := fields.(pendingSequence := None, requests := fields.requests + 1,
                          stageRequests := fields.stageRequests + 1,
                          reportedTokens := fields.reportedTokens + total.value,
                          elapsedMs := elapsed, state := StateAfter(kind));
      }
    }

    method FailRequest(session: Session, category: Category, elapsed: nat, tokens: TokenDelta) returns (ok: bool)
      requires Consistent(fields) && UniqueIds(session.entries)
      modifies this`fields, session
      ensures ok <==>
                && old(session.writable) && old(fields).pendingSequence.Some? && tokens.Total().Some?
                && LiveWrites(old(fields), RequestFailed(old(fields).pendingSequence.value, old(fields).stage, elapsed,
                                                         category, tokens, tokens.Total().value), Some(session.task))
      ensures !ok ==> fields == old(fields) && session.entries == old(session.entries)
      ensures ok ==>
                && old(fields).pendingSequence.Some? && tokens.Total().Some?
                && var r := RequestFailed(old(fields).pendingSequence.value, old(fields).stage, elapsed, category,
                                          tokens, tokens.Total().value);
                   Advanced(session.task, old(fields), fields, r)
                   && Appended(old(session.entries), session.entries, LongTaskBody(r))
    {
      var total := tokens.Total();
      if || fields.pendingSequence.None? || fields.limits.None? || !fields.ElapsedOk(elapsed) || total.None?
         || fields.requests >= fields.limits.value.maxRequests || fields.reportedTokens + total.value > U64_MAX
      {
        return false;
      }
      ok := session.RecordLongTask(
        RequestFailed(fields.pendingSequence.value, fields.stage, elapsed, category, tokens, total.value));
      if ok {
        fields := fields.(pendingSequence := None, requests := fields.requests + 1,
                          stageRequests := fields.stageRequests + 1,
                          reportedTokens := fields.reportedTokens + total.value,
                          elapsedMs := elapsed, state := Failed, terminalReason := Some(category));
      }
    }

    /** Runs the replay step on a copy first and adopts the copy once the record has landed. */
    method InterruptRequest(session: Session, elapsed: nat, reason: InterruptReason, kind: RequestKind)
      returns (ok: bool)
      requires Consistent(fields) && UniqueIds(session.entries)
      modifies this, session
      ensures ok <==>
                && old(session.writable) && old(fields).pendingSequence.Some? && old(pendingResponse).None?
                && LiveWrites(old(fields), ProviderInterrupted(old(fields).pendingSequence.value, old(fields).stage,
                                                               elapsed, reason, kind), Some(session.task))
      ensures !ok ==> fields == old(fields) && session.entries == old(session.entries)
      ensures ok ==>
                && old(fields).pendingSequence.Some?
                && var r := ProviderInterrupted(old(fields).pendingSequence.value, old(fields).stage, elapsed,
                                                reason, kind);
                   Advanced(session.task, old(fields), fields, r)
                   && Appended(old(session.entries), session.entries, LongTaskBody(r))
    {
      if fields.pendingSequence.None? {
        return false;
      }
      var r := ProviderInterrupted(fields.pendingSequence.value, fields.stage, elapsed, reason, kind);
      var next := new Ledger();
      next.fields, next.pendingResponse := fields, pendingResponse;
      ok := next.Apply(r, None);
      if !ok {
        return;
      }
      ok := session.RecordLongTask(r);
      if ok {
        fields, pendingResponse := next.fields, next.pendingResponse;
      }
    }

    method StageCheckpoint(session: Session, elapsed: nat, fingerprint: Fingerprint) returns (repeat: Option<nat>)
      requires Consistent(fields) && UniqueIds(session.entries)
      modifies this`fields, session
      ensures repeat.Some? <==>
                && old(session.writable)
                && LiveWrites(old(fields), LongTask.StageCheckpoint(old(fields).stage + 1, old(fields).stageRequests,
                                             elapsed, fingerprint, old(fields).repeatCount), Some(session.task))
      ensures repeat.None? ==> fields == old(fields) && session.entries == old(session.entries)
      ensures repeat.Some? ==>
                var r := LongTask.StageCheckpoint(old(fields).stage + 1, old(fields).stageRequests, elapsed,
                                                  fingerprint, repeat.value);
                Advanced(session.task, old(fields), fields, r)
                && Appended(old(session.entries), session.entries, LongTaskBody(r))
    {
      if || fields.limits.None? || fields.state != Ready
         || !(0 < fields.stageRequests <= fields.limits.value.maxRequests)
         || !fingerprint.Digest? || !fields.ElapsedOk(elapsed)
         || fields.lastFingerprint != Some(fingerprint) || fields.repeatCount > fields.limits.value.repeatLimit
      {
        return None;
      }
      var stage := fields.stage + 1;
      var landed := session.RecordLongTask(
        LongTask.StageCheckpoint(stage, fields.stageRequests, elapsed, fingerprint, fields.repeatCount));
      if !landed {
        return None;
      }
      fields := fields.(stage := stage, stageRequests := 0, elapsedMs := elapsed);
      return Some(fields.repeatCount);
    }

    method RecordToolBatch(session: Session, elapsed: nat, fingerprint: Fingerprint) returns (repeat: Option<nat>)
      requires Consistent(fields) && UniqueIds(session.entries)
      modifies this`fields, session
      ensures repeat.Some? <==>
                && old(session.writable)
                && LiveWrites(old(fields), ToolBatch(old(fields).stage, old(fields).stageRequests, elapsed, fingerprint,
                                                     old(fields).NextRepeat(fingerprint)), Some(session.task))
      ensures repeat.None? ==> fields == old(fields) && session.entries == old(session.entries)
      ensures repeat.Some? ==>
                var r := ToolBatch(old(fields).stage, old(fields).stageRequests, elapsed, fingerprint, repeat.value);
                Advanced(session.task, old(fields), fields, r)
                && Appended(old(session.entries), session.entries, LongTaskBody(r))
    {
      if || fields.limits.None? || fields.state != PendingTools
         || !(0 < fields.stageRequests <= fields.limits.value.maxRequests)
         || !fields.ElapsedOk(elapsed) || !fingerprint.Digest?
      {
        return None;
      }
      var count := fields.NextRepeat(fingerprint);
      if count > fields.limits.value.repeatLimit {
        return None;
      }
      var landed := session.RecordLongTask(
        ToolBatch(fields.stage, fields.stageRequests, elapsed, fingerprint, count));
      if !landed {
        return None;
      }
      fields := fields.(elapsedMs := elapsed, lastFingerprint := Some(fingerprint), repeatCount := count,
                        state := Ready);
      return Some(count);
    }

    method FailTerminal(session: Session, category: Category) returns (ok: bool)
      requires Consistent(fields) && UniqueIds(session.entries)
      modifies this`fields, session
      ensures ok <==>
                && old(session.writable)
                && LiveWrites(old(fields), TaskFailed(category, old(fields).stage, old(fields).elapsedMs),
                              Some(session.task))
      ensures !ok ==> fields == old(fields) && session.entries == old(session.entries)
      ensures ok ==>
                var r := TaskFailed(category, old(fields).stage, old(fields).elapsedMs);
                Advanced(session.task, old(fields), fields, r)
                && Appended(old(session.entries), session.entries, LongTaskBody(r))
    {
      if fields.limits.None? || fields.state != Ready || (category != Runtime && category != RequestBudget) {
        return false;
      }
      ok := session.RecordLongTask(TaskFailed(category, fields.stage, fields.elapsedMs));
      if ok {
        fields := fields.(state := Failed, terminalReason := Some(category));
      }
    }

    method Pause(session: Session, reason: PauseReason) returns (ok: bool)
      requires Consistent(fields) && UniqueIds(session.entries)
      modifies this`fields, session
      ensures ok <==>
                && old(session.writable)
                && LiveWrites(old(fields), TaskPaused(reason, old(fields).stage, old(fields).elapsedMs),
                              Some(session.task))
      ensures !ok ==> fields == old(fields) && session.entries == old(session.entries)
      ensures ok ==>
                var r := TaskPaused(reason, old(fields).stage, old(fields).elapsedMs);
                Advanced(session.task, old(fields), fields, r)
                && Appended(old(session.entries), session.entries, LongTaskBody(r))
    {
      if fields.state != Ready {
        return false;
      }
      ok := session.RecordLongTask(TaskPaused(reason, fields.stage, fields.elapsedMs));
      if ok {
        fields := fields.(state := Paused);
      }
    }

    method Complete(session: Session) returns (ok: bool)
      requires Consistent(fields) && UniqueIds(session.entries)
      modifies this`fields, session
      ensures ok <==>
                && old(session.writable)
                && LiveWrites(old(fields), TaskCompleted(old(fields).stage, old(fields).elapsedMs), Some(session.task))
      ensures !ok ==> fields == old(fields) && session.entries == old(session.entries)
      ensures ok ==>
                var r := TaskCompleted(old(fields).stage, old(fields).elapsedMs);
                Advanced(session.task, old(fields), fields, r)
                && Appended(old(session.entries), session.entries, LongTaskBody(r))
    {
      if fields.state != FinalPending {
        return false;
      }
      ok := session.RecordLongTask(TaskCompleted(fields.stage, fields.elapsedMs));
      if ok {
        fields := fields.(state := Completed);
      }
    }
  }

  /** Rebuilds a ledger from its records. */
  method FromRecords(records: seq<Record>, expected: Option<Id>) returns (ok: bool, ledger: Ledger)
    ensures fresh(ledger) && ledger.pendingResponse == None
    ensures ok <==> Replay(records, expected).Some?
    ensures ok ==> ledger.fields == Replay(records, expected).value
  {
    ledger := new Ledger();
    for i := 0 to |records|
      invariant ledger.pendingResponse == None
      invariant Replay(records[..i], expected) == Some(ledger.fields)
    {
      assert records[..i + 1] == records[..i] + [records[i]];
      ReplaySnoc(records[..i], records[i], expected);
      ok := ledger.Apply(records[i], expected);
      if !ok {
        ReplayFails(records, expected, i + 1);
        return;
      }
    }
    assert records[..|records|] == records;
    ok := true;
  }

  lemma {:induction false} ReplayFails(rs: seq<Record>, expected: Option<Id>, k: nat)
    requires k <= |rs| && Replay(rs[..k], expected).None?
    ensures Replay(rs, expected).None?
  {
    if k == |rs| {
      assert rs[..k] == rs;
    } else {
      assert rs[..|rs| - 1][..k] == rs[..k];
      ReplayFails(rs[..|rs| - 1], expected, k);
    }
  }
}
