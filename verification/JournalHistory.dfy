/** What every accepted journal guarantees, and what every journal the runtime wrote guarantees on top. */
module JournalHistory {
  import opened Common
  import opened LongTask
  import opened LongTaskHistory
  import opened Messages
  import opened Compaction
  import opened Journal

  /** Every message ever journaled, compacted or not. */
  function History(es: seq<Entry>): seq<Message> {
    if es == [] then []
    else History(es[..|es| - 1])
         + if es[|es| - 1].body.MessageBody? then [es[|es| - 1].body.message] else []
  }

  lemma {:induction false} AddCallsKeys(calls: map<Id, ToolCall>, cs: seq<ToolCall>)
    ensures AddCalls(calls, cs).Keys == calls.Keys + Ids(cs)
    decreases |cs|
  {
    if cs != [] {
      AddCallsKeys(calls[cs[0].id := cs[0]], cs[1..]);
      assert forall i :: 1 <= i < |cs| ==> cs[i] == cs[1..][i - 1];
      assert Ids(cs) == {cs[0].id} + Ids(cs[1..]);
    }
  }

  lemma RecoverTidy(r: Recovery, m: Message)
    requires Tidy(r) && RecoverMessage(r, m).Some?
    ensures Tidy(RecoverMessage(r, m).value)
  {
    if m.Assistant? {
      InsertCallsExact(r.calls, ToolCalls(m.blocks).value);
    }
  }

  lemma {:induction false} ScanTidy(es: seq<Entry>)
    requires ScanAll(es).Some?
    ensures Tidy(ScanAll(es).value.recovery)
  {
    if es != [] {
      var init, e := es[..|es| - 1], es[|es| - 1];
      ScanTidy(init);
      if e.body.MessageBody? {
        RecoverTidy(ScanAll(init).value.recovery, e.body.message);
      }
    }
  }

  /** The open calls of the evidence are the calls without a result. */
  lemma OpenCallsStep(ev: Evidence, r: Recovery, m: Message)
    requires Tidy(r) && ev.calls.Keys == r.calls.Keys - r.results && RecoverMessage(r, m).Some?
    ensures Observe(ev, m).Some?
    ensures var t := RecoverMessage(r, m).value;
            Observe(ev, m).value.calls.Keys == t.calls.Keys - t.results
  {
    if m.Assistant? {
      var cs := ToolCalls(m.blocks).value;
      InsertCallsExact(r.calls, cs);
      AddCallsKeys(ev.calls, cs);
      assert Ids(cs) !! r.calls.Keys;
    }
  }

  /** A scan agrees with the full history about everything a checkpoint would carry. */
  ghost predicate Transparent(history: seq<Message>, s: Scan) {
    && ObserveAll(s.messages).Some?
    && ObserveAll(history) == ObserveAll(s.messages)
    && LatestUser(history) == LatestUser(s.messages)
    && ObserveAll(s.messages).value.calls.Keys == s.recovery.calls.Keys - s.recovery.results
  }

  lemma TransparentMessage(history: seq<Message>, s: Scan, m: Message, t: Scan)
    requires Transparent(history, s) && Tidy(s.recovery) && RecoverMessage(s.recovery, m).Some?
    requires t.messages == s.messages + [m] && t.recovery == RecoverMessage(s.recovery, m).value
    ensures Transparent(history + [m], t)
  {
    OpenCallsStep(ObserveAll(s.messages).value, s.recovery, m);
    ObserveSnoc(s.messages, m);
    ObserveSnoc(history, m);
    LatestUserSnoc(s.messages, m);
    LatestUserSnoc(history, m);
    hide Observe, ObserveAll, LatestUser, RecoverMessage;
  }

  lemma TransparentCheckpoint(history: seq<Message>, s: Scan, summary: Summary, t: Scan)
    requires Transparent(history, s) && Tidy(s.recovery) && s.recovery.Complete()
    requires CheckpointMessages(summary, s.messages) == Some(t.messages) && t.recovery == s.recovery
    ensures Transparent(history, t)
  {
    CheckpointCarries(summary, s.messages);
    assert s.recovery.calls.Keys - s.recovery.results == {};
    assert ObserveAll(s.messages).value.calls.Keys == {};
    assert ObserveAll(s.messages).value.calls == map[];
    hide ObserveAll, LatestUser, CheckpointMessages;
  }

  /** Compaction is transparent: for every accepted journal, however often it was compacted, the compacted
      context yields the same receipts, the same open calls and the same current request as the full history. */
  lemma {:induction false} CompactionTransparent(es: seq<Entry>)
    requires ScanAll(es).Some?
    ensures Transparent(History(es), ScanAll(es).value)
  {
    if es != [] {
      var init, e := es[..|es| - 1], es[|es| - 1];
      var s := ScanAll(init).value;
      CompactionTransparent(init);
      ScanTidy(init);
      hide ObserveAll, LatestUser, RecoverMessage, RecoverOperation;
      match e.body
      case MessageBody(m) => TransparentMessage(History(init), s, m, ScanAll(es).value);
      case CompactionBody(_, _, _, summary) =>
        assert History(es) == History(init);
        TransparentCheckpoint(History(init), s, summary, ScanAll(es).value);
      case OperationBody(callId, operation) =>
        assert History(es) == History(init);
        OperationKeeps(s.recovery, callId, operation);
      case _ =>
        assert History(es) == History(init);
    }
  }

  lemma OperationKeeps(r: Recovery, callId: Option<Id>, operation: Operation)
    requires RecoverOperation(r, callId, operation).Some?
    ensures RecoverOperation(r, callId, operation).value.calls == r.calls
    ensures RecoverOperation(r, callId, operation).value.results == r.results
  {
  }

  /** So a checkpoint built now, after any number of earlier ones, is the checkpoint of the uncompacted history;
      and its receipts are the longest suffix of all settled-call receipts within the two limits. */
  lemma CheckpointOfFullHistory(es: seq<Entry>, summary: Summary)
    requires ScanAll(es).Some?
    ensures CheckpointMessages(summary, ScanAll(es).value.messages) == CheckpointMessages(summary, History(es))
    ensures NoteAll(History(es)).Some? && ObserveAll(ScanAll(es).value.messages).Some?
    ensures LongestFitting(ObserveAll(ScanAll(es).value.messages).value.receipts,
                           NoteAll(History(es)).value.receipts)
  {
    CompactionTransparent(es);
    WindowIsLongestSuffix(History(es));
  }

  // Journals written by the runtime

  /** The ledger says that a request or a batch is under way. */
  predicate Working(l: Snapshot) { l.state == PendingProvider || l.state == PendingTools }

  /** Nothing is in flight, or the ledger says what is. */
  predicate Quiet(v: View) { v.scan.recovery.Complete() || Working(v.ledger) }

  /** The ledger holds a task between two requests. */
  predicate Resting(s: Snapshot) { s.state in {Ready, Paused, FinalPending} }

  /** Tool work may go on: a short run never meets a resting task, and a long one has its request or batch pending. */
  predicate Active(longOnly: bool, l: Snapshot) { !Resting(l) && (longOnly ==> Working(l)) }

  predicate SettlesTools(r: Record) { r.RequestSettled? && r.kind == ToolsResponse }

  /** What the runtime writes, and when. Answers and markers while tool work may go on, a result while its call is
      started; task records as live code writes them, with nothing in flight unless they settle an answer with calls. */
  predicate MayWrite(longOnly: bool, task: Id, v: View, e: Entry) {
    match e.body
    case MessageBody(Assistant(_, _)) => Active(longOnly, v.ledger)
    case MessageBody(ToolResult(callId, _, _, _)) => callId.Some? && callId.value in v.scan.recovery.started
    case OperationBody(_, _) => Active(longOnly, v.ledger)
    case LongTaskBody(r) => LiveWrites(v.ledger, r, Some(task)) && (SettlesTools(r) || v.scan.recovery.Complete())
    case _ => true
  }

  /** A journal as the runtime writes it, entry by entry; longOnly if none of its runs was a short one. */
  predicate Live(longOnly: bool, task: Id, es: seq<Entry>)
    ensures Live(longOnly, task, es) ==> Read(task, es).Some?
  {
    es == [] ||
    (&& Live(longOnly, task, es[..|es| - 1])
     && Read(task, es).Some?
     && MayWrite(longOnly, task, Read(task, es[..|es| - 1]).value, es[|es| - 1]))
  }

  /** What such a journal comes to: no result without a start before it; and after a task record, while the ledger
      rests, and always where only long-task runs write, tool work is open only if the ledger says so. */
  predicate AtRest(longOnly: bool, e: Option<Entry>, v: View) {
    && v.scan.recovery.results <= v.scan.recovery.started + v.scan.recovery.settled
    && (longOnly || (e.Some? && e.value.IsTask()) || Resting(v.ledger) ==> Quiet(v))
  }

  lemma {:induction false} LivePrefixes(longOnly: bool, task: Id, es: seq<Entry>, k: nat)
    requires Live(longOnly, task, es) && k <= |es|
    ensures Live(longOnly, task, es[..k])
  {
    if k == |es| {
      assert es[..k] == es;
    } else {
      assert es[..|es| - 1][..k] == es[..k];
      LivePrefixes(longOnly, task, es[..|es| - 1], k);
    }
  }

  lemma {:induction false} LiveAtRest(longOnly: bool, task: Id, es: seq<Entry>)
    requires Live(longOnly, task, es)
    ensures AtRest(longOnly, if es == [] then None else Some(es[|es| - 1]), Read(task, es).value)
  {
    hide Apply, RecoverMessage, RecoverOperation, Step, AtRest, MayWrite;
    EmptyAtRest(longOnly);
    if es != [] {
      var init := es[..|es| - 1];
      LiveAtRest(longOnly, task, init);
      ReadLast(task, init);
      StepAtRest(longOnly, task, if init == [] then None else Some(init[|init| - 1]), Read(task, init).value,
                 es[|es| - 1]);
    }
  }

  lemma EmptyAtRest(longOnly: bool)
    ensures AtRest(longOnly, None, View(START, EMPTY_LEDGER))
  {
  }

  lemma StepAtRest(longOnly: bool, task: Id, last: Option<Entry>, v: View, e: Entry)
    requires AtRest(longOnly, last, v) && Tidy(v.scan.recovery) && MayWrite(longOnly, task, v, e)
    requires Step(task, v, e).Some?
    ensures AtRest(longOnly, Some(e), Step(task, v, e).value)
  {
    hide Apply, InsertCalls, CompactionOk;
    match e.body
    case LongTaskBody(r) => ToolsPending(task, v.ledger, r);
    case MessageBody(m) => MessageKeeps(v.scan.recovery, m);
    case _ =>
  }

  lemma ToolsPending(task: Id, l: Snapshot, r: Record)
    ensures SettlesTools(r) && Apply(l, r, Some(task)).Some? ==> Working(Apply(l, r, Some(task)).value)
  {
  }

  /** A message without calls keeps what is settled settled, and a result answers a call that is open. */
  lemma MessageKeeps(r: Recovery, m: Message)
    requires Tidy(r) && RecoverMessage(r, m).Some?
    ensures var t := RecoverMessage(r, m).value;
            && t.started == r.started && t.settled == r.settled && r.results <= t.results
            && (!m.ToolResult? ==> t.results == r.results)
            && (!m.Assistant? && !m.ToolResult? ==> t == r)
            && (m.ToolResult? ==> !r.Complete() && m.callId.Some? && t.results == r.results + {m.callId.value})
  {
    hide InsertCalls;
  }

  // What a crash leaves: a prefix

  /** Every call ever journaled has its result and was settled, and nothing is started. */
  predicate AllSettled(r: Recovery) {
    r.started == {} && r.calls.Keys == r.results == r.settled
  }

  /** The reader accepts the journal, and if its ledger allows a resume then every call is settled. */
  ghost predicate Safe(task: Id, es: seq<Entry>) {
    && Accepted(task, es)
    && (Replay(Records(es), Some(task)).value.ResumeAllowed() ==> AllSettled(ScanAll(es).value.recovery))
  }

  predicate IsOpen(r: Recovery, id: Id) { id in r.calls && (id !in r.results || id in r.started) }

  /** Entry i brought this call, and no task record came after it. */
  ghost predicate OpenedAt(es: seq<Entry>, id: Id, i: nat) {
    && i < |es|
    && es[i].body.MessageBody? && es[i].body.message.Assistant? && ToolCalls(es[i].body.message.blocks).Some?
    && id in Ids(ToolCalls(es[i].body.message.blocks).value)
    && forall j :: i <= j < |es| ==> !es[j].IsTask()
  }

  /** A call is open only while the ledger is pending, or it was journaled after the last task record. */
  ghost predicate AllAccounted(es: seq<Entry>, v: View) {
    forall id :: IsOpen(v.scan.recovery, id) && !Working(v.ledger) ==> exists i :: OpenedAt(es, id, i)
  }

  ghost predicate Accounted(task: Id, es: seq<Entry>) {
    Read(task, es).Some? && AllAccounted(es, Read(task, es).value)
  }

  /** Every prefix of a journal the runtime wrote is safe to resume, its open calls are accounted for, and where only
      long-task runs wrote, a call is open only while the ledger is pending. */
  lemma CrashPrefixIsSafe(longOnly: bool, task: Id, es: seq<Entry>, k: nat)
    requires Live(longOnly, task, es) && k <= |es|
    ensures Safe(task, es[..k]) && Accounted(task, es[..k])
    ensures longOnly ==> Quiet(Read(task, es[..k]).value)
  {
    LivePrefixes(longOnly, task, es, k);
    LiveIsSafe(longOnly, task, es[..k]);
    OpenCallsAreRecent(longOnly, task, es[..k]);
    LiveAtRest(longOnly, task, es[..k]);
    hide Accepted, Accounted, ScanAll;
  }

  lemma LiveIsSafe(longOnly: bool, task: Id, es: seq<Entry>)
    requires Live(longOnly, task, es)
    ensures Safe(task, es)
  {
    ReadIsAccepted(task, es);
    LiveAtRest(longOnly, task, es);
    ScanTidy(es);
    hide Read, ScanAll, Replay, Accepted;
  }

  lemma {:induction false} OpenCallsAreRecent(longOnly: bool, task: Id, es: seq<Entry>)
    requires Live(longOnly, task, es)
    ensures Accounted(task, es)
  {
    hide Read, Step, Tidy, IsOpen, AllAccounted, LiveWrites, Quiet, Working;
    LiveAtRest(longOnly, task, es);
    EmptyIsAccounted(task);
    if es != [] {
      var init, e := es[..|es| - 1], es[|es| - 1];
      OpenCallsAreRecent(longOnly, task, init);
      ReadLast(task, init);
      assert es == init + [e];
      ReadSnoc(task, init, e);
      RecentStep(task, init, e, Read(task, init).value);
    }
  }

  lemma EmptyIsAccounted(task: Id)
    ensures Accounted(task, [])
  {
  }

  lemma RecentStep(task: Id, es: seq<Entry>, e: Entry, v: View)
    requires AllAccounted(es, v) && Tidy(v.scan.recovery) && Step(task, v, e).Some?
    requires e.IsTask() ==> Quiet(Step(task, v, e).value)
    ensures AllAccounted(es + [e], Step(task, v, e).value)
  {
    var w := Step(task, v, e).value;
    if e.IsTask() {
      NothingOpen(task, v, e);
    } else {
      StepParts(task, v, e);
      hide Step, ScanStep, OpenedAt, Tidy, IsOpen;
      forall id | IsOpen(w.scan.recovery, id) && !Working(w.ledger) ensures exists i :: OpenedAt(es + [e], id, i) {
        RecentCall(es, e, v.scan, w.scan, id);
      }
    }
  }

  lemma NothingOpen(task: Id, v: View, e: Entry)
    requires Tidy(v.scan.recovery) && Step(task, v, e).Some? && e.IsTask() && Quiet(Step(task, v, e).value)
    ensures var w := Step(task, v, e).value;
            Working(w.ledger) || forall id :: !IsOpen(w.scan.recovery, id)
  {
    hide Apply;
  }

  lemma StepParts(task: Id, v: View, e: Entry)
    requires Step(task, v, e).Some? && !e.IsTask()
    ensures ScanStep(v.scan, e) == Some(Step(task, v, e).value.scan) && Step(task, v, e).value.ledger == v.ledger
  {
    hide ScanStep;
  }

  lemma RecentCall(es: seq<Entry>, e: Entry, s: Scan, t: Scan, id: Id)
    requires Tidy(s.recovery) && ScanStep(s, e) == Some(t) && !e.IsTask() && IsOpen(t.recovery, id)
    requires IsOpen(s.recovery, id) ==> exists i :: OpenedAt(es, id, i)
    ensures exists i :: OpenedAt(es + [e], id, i)
  {
    OpenBefore(s, e, t, id);
    hide ScanStep, IsOpen, Tidy;
    if IsOpen(s.recovery, id) {
      var i :| OpenedAt(es, id, i);
      OpenedStill(es, e, id, i);
    } else {
      assert OpenedAt(es + [e], id, |es|);
    }
  }

  lemma OpenedStill(es: seq<Entry>, e: Entry, id: Id, i: nat)
    requires OpenedAt(es, id, i) && !e.IsTask()
    ensures OpenedAt(es + [e], id, i)
  {
  }

  /** A call that is open after an entry was open before it, or the entry brought it. */
  lemma OpenBefore(s: Scan, e: Entry, t: Scan, id: Id)
    requires Tidy(s.recovery) && ScanStep(s, e) == Some(t) && IsOpen(t.recovery, id)
    ensures IsOpen(s.recovery, id) ||
            (e.body.MessageBody? && e.body.message.Assistant? && ToolCalls(e.body.message.blocks).Some?
             && id in Ids(ToolCalls(e.body.message.blocks).value))
  {
    if e.body.MessageBody? && e.body.message.Assistant? {
      InsertCallsExact(s.recovery.calls, ToolCalls(e.body.message.blocks).value);
    }
  }

  /** The long-task records of a live journal are a live record list, so every budget law of the history applies. */
  lemma {:induction false} LiveJournalRecords(longOnly: bool, task: Id, es: seq<Entry>)
    requires Live(longOnly, task, es)
    ensures LiveRecords(Records(es), Some(task))
  {
    ReadIsAccepted(task, es);
    if es != [] {
      var init, e := es[..|es| - 1], es[|es| - 1];
      LiveJournalRecords(longOnly, task, init);
      ReadIsAccepted(task, init);
      if e.IsTask() {
        assert Records(es)[..|Records(es)| - 1] == Records(init);
      } else {
        assert Records(es) == Records(init);
      }
    }
  }

  /** The running task of a journal kept its budgets: stage counts add up, the token cap is passed by the last request
      only, it wrote no more records than its request cap allows, and started nothing after its repeat stop. */
  ghost predicate Frugal(task: Id, es: seq<Entry>) {
    var rs := Records(es);
    && LiveRecords(rs, Some(task))
    && (rs != [] ==>
          var s := Replay(rs, Some(task)).value;
          var mine := CurrentTask(rs);
          && s.limits.Some? && s.requests <= s.limits.value.maxRequests
          && s.requests == CheckpointedRequests(mine) + s.stageRequests
          && LastCharge(mine) <= s.reportedTokens < s.limits.value.maxTokens + LastCharge(mine)
          && |mine| + Potential(s) <= 5 * s.limits.value.maxRequests + 3)
    && (forall i :: 0 <= i <= |rs| ==> StopsFor(rs, Some(task), i))
  }

  /** If the task had reached its repeat limit after i records, none of its later records starts a request. */
  ghost predicate StopsFor(rs: seq<Record>, expected: Option<Id>, i: nat)
    requires LiveRecords(rs, expected) && i <= |rs|
  {
    LiveRecords(rs[..i], expected) && Stopped(Replay(rs[..i], expected).value) ==>
      forall j :: i <= j < |rs| && (forall k :: i <= k <= j ==> !rs[k].Created?) ==> !rs[j].RequestStarted?
  }

  lemma LiveIsFrugal(longOnly: bool, task: Id, es: seq<Entry>)
    requires Live(longOnly, task, es)
    ensures Frugal(task, es)
  {
    hide Apply, Replay, CheckpointedRequests, CurrentTask, LastCharge, Potential, LiveRecords, Records;
    var rs := Records(es);
    LiveJournalRecords(longOnly, task, es);
    if rs != [] {
      LiveBudget(rs, Some(task));
      RecordBound(rs, Some(task));
    }
    forall i | 0 <= i <= |rs| ensures StopsFor(rs, Some(task), i) {
      StopsAt(rs, Some(task), i);
    }
  }

  lemma StopsAt(rs: seq<Record>, expected: Option<Id>, i: nat)
    requires LiveRecords(rs, expected) && i <= |rs|
    ensures StopsFor(rs, expected, i)
  {
    hide Apply, Replay, LiveRecords;
    if LiveRecords(rs[..i], expected) && Stopped(Replay(rs[..i], expected).value) {
      forall j | i <= j < |rs| && (forall k :: i <= k <= j ==> !rs[k].Created?) ensures !rs[j].RequestStarted? {
        RepeatStopIsFinal(rs, expected, i, j + 1);
      }
    }
  }

  // Appending to a readable journal

  /** The id the next entry must name as its parent. */
  function LastId(es: seq<Entry>): Option<Id> {
    if es == [] then None else Some(es[|es| - 1].id)
  }

  lemma {:induction false} ReadLast(task: Id, es: seq<Entry>)
    requires Read(task, es).Some?
    ensures Read(task, es).value.scan.Prev() == LastId(es)
    ensures Read(task, es).value.scan.last == if es == [] then None else Some(es[|es| - 1])
    ensures Tidy(Read(task, es).value.scan.recovery)
    ensures Consistent(Read(task, es).value.ledger)
  {
    ReadIsAccepted(task, es);
    ScanLast(es);
    ScanTidy(es);
    ReplayConsistent(Records(es), Some(task));
  }

  /** Appending a correctly linked entry whose step succeeds keeps a journal readable, and live if the runtime may
      write it. */
  lemma AppendReads(longOnly: bool, task: Id, es: seq<Entry>, e: Entry, v: View)
    requires Read(task, es) == Some(v) && e.parent == LastId(es)
    ensures Read(task, es + [e]) == Step(task, v, e)
    ensures Step(task, v, e) ==
            if ScanBody(v.scan, e).None? || TaskStep(task, v, e).None? then None
            else Some(View(ScanBody(v.scan, e).value.(last := Some(e)), TaskStep(task, v, e).value))
    ensures Live(longOnly, task, es) && Step(task, v, e).Some? && MayWrite(longOnly, task, v, e) ==>
              Live(longOnly, task, es + [e])
  {
    ReadSnoc(task, es, e);
    ReadLast(task, es);
    assert (es + [e])[..|es + [e]| - 1] == es;
  }
}
