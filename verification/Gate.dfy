/** The provider gate of a long task: a durable reservation before each request, a durable outcome after it. */
module Gate {
  import opened Common
  import opened LongTask
  import opened LongTaskHistory
  import opened Messages
  import opened Utf8
  import opened Journal
  import opened JournalHistory
  import opened Durable

  /** The ids whose execution may have begun. */
  function Marked(r: Recovery): set<Id> { r.started + r.settled }

  /** es grew to es2: nothing was lost, the reader still accepts it, and a live journal stayed live. */
  ghost predicate Grown(session: Session, es: seq<Entry>, es2: seq<Entry>) {
    && es <= es2
    && UniqueIds(es2)
    && Read(session.task, es).Some? && Read(session.task, es2).Some?
    && Marked(Read(session.task, es).value.scan.recovery) <= Marked(Read(session.task, es2).value.scan.recovery)
    && (Live(session.longOnly, session.task, es) ==> Live(session.longOnly, session.task, es2))
  }

  lemma GrownSelf(session: Session, es: seq<Entry>)
    requires Read(session.task, es).Some? && UniqueIds(es)
    ensures Grown(session, es, es)
  {
  }

  lemma GrownTwice(session: Session, a: seq<Entry>, b: seq<Entry>, c: seq<Entry>)
    requires Grown(session, a, b) && Grown(session, b, c)
    ensures Grown(session, a, c)
  {
  }

  /** Only task records were added. */
  ghost predicate OnlyTasks(es: seq<Entry>, es2: seq<Entry>) {
    es <= es2 && forall i :: |es| <= i < |es2| ==> es2[i].IsTask()
  }

  /** es grew to es2 without any message. */
  ghost predicate Still(session: Session, es: seq<Entry>, es2: seq<Entry>) {
    Grown(session, es, es2) && History(es2) == History(es)
  }

  /** The task records added since. */
  function Added(es: seq<Entry>, es2: seq<Entry>): seq<Record> {
    if Records(es) <= Records(es2) then Records(es2)[|Records(es)|..] else []
  }

  lemma AppendedOne(es: seq<Entry>, es2: seq<Entry>, body: Body)
    requires Appended(es, es2, body)
    ensures History(es2) == History(es) + if body.MessageBody? then [body.message] else []
    ensures Records(es2) == Records(es) + if body.LongTaskBody? then [body.record] else []
  {
    assert es2[..|es2| - 1] == es;
  }

  /** The in-memory ledger is the replay of the journal. */
  ghost predicate Synced(session: Session, ledger: Ledger)
    reads session, ledger
  {
    && UniqueIds(session.entries)
    && Read(session.task, session.entries).Some?
    && Read(session.task, session.entries).value.ledger == ledger.fields
  }

  /** What the reader makes of the journal so far. */
  ghost function ScanOf(session: Session): Scan
    requires Read(session.task, session.entries).Some?
    reads session
  {
    Read(session.task, session.entries).value.scan
  }

  /** The same scan, up to the identity of the last entry. */
  ghost predicate SameContext(s: Scan, t: Scan) {
    t == s.(last := t.last)
  }

  /** The state a record other than a creation leads to. */
  function StateOf(r: Record): State
    requires !r.Created? && !r.Malformed?
  {
    match r
    case RequestStarted(_, _, _) => PendingProvider
    case RequestSettled(_, _, _, kind, _, _) => StateAfter(kind)
    case ProviderInterrupted(_, _, _, _, _) => Paused
    case RequestFailed(_, _, _, _, _, _) => Failed
    case StageCheckpoint(_, _, _, _, _) => Ready
    case ToolBatch(_, _, _, _, _) => Ready
    case TaskPaused(_, _, _) => Paused
    case TaskFailed(_, _, _) => Failed
    case TaskCompleted(_, _) => Completed
  }

  lemma AdvancedFacts(task: Id, s: Snapshot, t: Snapshot, r: Record)
    requires Advanced(task, s, t, r) && !r.Created?
    ensures s.limits.Some? && t.limits == s.limits && !r.Malformed? && t.state == StateOf(r)
    ensures t.requests == s.requests + if Spends(r) then 1 else 0
    ensures r.RequestStarted? ==> t.pendingSequence == Some(r.sequence) && r.sequence == s.requests + 1
    ensures r.ToolBatch? ==> t.lastFingerprint == Some(r.fingerprint)
  {
  }

  /** A live record that respects the adjacency rules keeps the journal readable, live, and in step with the ledger. */
  lemma TaskGrown(session: Session, es: seq<Entry>, es2: seq<Entry>, v: View, r: Record, t: Snapshot)
    requires Read(session.task, es) == Some(v) && UniqueIds(es)
    requires Appended(es, es2, LongTaskBody(r)) && Advanced(session.task, v.ledger, t, r)
    requires Bound(v.scan.last, r)
    requires SettlesTools(r) || v.scan.recovery.Complete()
    ensures Read(session.task, es2) == Some(View(v.scan.(last := Some(es2[|es|])), t))
    ensures Still(session, es, es2)
    ensures Records(es) <= Records(es2) && Added(es, es2) == [r]
    ensures Consistent(v.ledger) && Consistent(t)
    ensures !r.Created? ==>
              && v.ledger.limits.Some? && t.limits == v.ledger.limits && !r.Malformed? && t.state == StateOf(r)
              && t.requests == v.ledger.requests + (if Spends(r) then 1 else 0)
              && (r.RequestStarted? ==> t.pendingSequence == Some(r.sequence) && r.sequence == t.requests + 1)
              && (r.ToolBatch? ==> t.lastFingerprint == Some(r.fingerprint))
  {
    hide Apply, ScanStep;
    var task := session.task;
    if !r.Created? {
      AdvancedFacts(task, v.ledger, t, r);
    }
    AppendReads(session.longOnly, task, es, es2[|es|], v);
    ReadLast(task, es);
    ReadLast(task, es2);
    AppendedOne(es, es2, LongTaskBody(r));
    hide History, Records;
  }

  /** A request to the provider: for the next action, with instructions and context, or for the summary of a fragment of
      the evidence, after the summary before it. */
  datatype Request =
    | ForAction(instructions: Text, messages: seq<Message>)
    | ForSummary(previous: Option<Summary>, part: nat, fragment: seq<Byte>, repair: bool)
  {
    function Kind(): RequestKind { if ForAction? then ActionRequest else SummaryRequest }
  }

  /** The world outside: the provider and the clock. This keeps the requests sent and the readings taken. */
  class Host {
    ghost var sent: seq<Request>
    ghost var readings: seq<nat>

    constructor ()
      ensures sent == [] && readings == []
    {
      sent, readings := [], [];
    }

    method Send(request: Request)
      modifies this
      ensures sent == old(sent) + [request] && readings == old(readings)
    {
      sent := sent + [request];
    }

    /** Milliseconds spent on the task so far; the ledger, not the clock, enforces that they never run backwards. */
    method Clock() returns (ms: nat)
      modifies this
      ensures readings == old(readings) + [ms] && sent == old(sent)
    {
      var reading: int := *;
      ms := if reading < 0 then 0 else reading;
      readings := readings + [ms];
    }
  }

  datatype Outcome =
    | Cancelled(reason: InterruptReason, panicking: bool)
    | Errored(timeout: bool)
    | Answered

  /** The provider's answer, whatever it is; adapters build assistant messages from text and tool-call blocks only. */
  method ProviderReply() returns (message: Message)
    ensures message.Assistant? ==> ReadableBlocks(message.blocks)
  {
    message := *;
    if message.Assistant? && !ReadableBlocks(message.blocks) {
      message := OtherRole;
    }
  }

  /** An interruption was recorded: the request is spent, the task is paused, and a deadline uses up the wall clock. */
  ghost predicate Interrupted(mode: RequestKind, reason: InterruptReason, es: seq<Entry>, s: Snapshot,
                              session: Session, ledger: Ledger)
    reads session, ledger
  {
    var t := ledger.fields;
    && s.pendingSequence.Some? && s.limits.Some?
    && Appended(es, session.entries, LongTaskBody(
                  ProviderInterrupted(s.pendingSequence.value, s.stage, t.elapsedMs, reason, mode)))
    && t.state == Paused && t.pendingSequence.None? && t.requests == s.requests + 1
    && t.interruptedRequests == s.interruptedRequests + 1 && t.interruptionReason == Some(reason)
    && (reason == RunDeadline ==> t.elapsedMs == s.limits.value.WallMs() && !t.ResumeAllowed())
  }

  lemma InterruptionFacts(task: Id, s: Snapshot, t: Snapshot, r: Record)
    requires Advanced(task, s, t, r) && r.ProviderInterrupted?
    ensures s.pendingSequence == Some(r.sequence) && s.stage == r.stage && s.limits.Some? && t.limits == s.limits
    ensures t.state == Paused && t.pendingSequence.None? && t.requests == s.requests + 1 && t.elapsedMs == r.elapsedMs
    ensures t.interruptedRequests == s.interruptedRequests + 1 && t.interruptionReason == Some(r.reason)
  {
  }

  lemma InterruptionWrites(task: Id, s: Snapshot, elapsed: nat, reason: InterruptReason, mode: RequestKind)
    requires s.state == PendingProvider && s.pendingSequence.Some? && s.limits.Some? && s.ElapsedOk(elapsed)
    requires s.interruptedRequests < MAX_INTERRUPTED_REQUESTS && s.CanAdd(0)
    ensures LiveWrites(s, ProviderInterrupted(s.pendingSequence.value, s.stage, elapsed, reason, mode), Some(task))
  {
  }

  /** The waiting future was dropped: record an interruption unless the thread is panicking. */
  method DropWait(host: Host, session: Session, ledger: Ledger, mode: RequestKind, reason: InterruptReason,
                  panicking: bool)
    requires Synced(session, ledger) && ledger.fields.state == PendingProvider
    requires ScanOf(session).recovery.Complete()
    requires Bound(ScanOf(session).last, ProviderInterrupted(ledger.fields.requests + 1, 0, 0, reason, mode))
    modifies host, session, ledger
    ensures host.sent == old(host.sent)
    ensures Still(session, old(session.entries), session.entries)
    ensures OnlyTasks(old(session.entries), session.entries)
    ensures Records(old(session.entries)) <= Records(session.entries)
    ensures var rs := Added(old(session.entries), session.entries);
            rs == [] || (|rs| == 1 && rs[0].ProviderInterrupted? && rs[0].reason == reason)
    ensures || Interrupted(mode, reason, old(session.entries), old(ledger.fields), session, ledger)
            || (session.entries == old(session.entries) && ledger.fields == old(ledger.fields))
    ensures panicking ==> session.entries == old(session.entries)
    ensures !panicking && reason == RunDeadline && old(session.writable) && old(ledger.pendingResponse).None?
            && old(ledger.fields).interruptedRequests < MAX_INTERRUPTED_REQUESTS && old(ledger.fields).CanAdd(0)
            ==> Interrupted(mode, reason, old(session.entries), old(ledger.fields), session, ledger)
  {
    hide Apply, History, Records, Added, Read, Live, Grown;
    ghost var v := Read(session.task, session.entries).value;
    ReadLast(session.task, session.entries);
    AddedNone(session.entries);
    GrownSelf(session, session.entries);
    if panicking || ledger.fields.limits.None? {
      return;
    }
    var clock := host.Clock();
    var wall := ledger.fields.limits.value.WallMs();
    var elapsed: nat := if reason == RunDeadline || clock > wall then wall else clock;
    if elapsed >= ledger.fields.elapsedMs && ledger.fields.CanAdd(0)
       && ledger.fields.interruptedRequests < MAX_INTERRUPTED_REQUESTS {
      InterruptionWrites(session.task, ledger.fields, elapsed, reason, mode);
    }
    var landed := ledger.InterruptRequest(session, elapsed, reason, mode);
    if landed {
      ghost var r := ProviderInterrupted(v.ledger.pendingSequence.value, v.ledger.stage, elapsed, reason, mode);
      TaskGrown(session, old(session.entries), session.entries, v, r, ledger.fields);
      InterruptionFacts(session.task, v.ledger, ledger.fields, r);
    }
  }

  lemma PauseWrites(task: Id, s: Snapshot, reason: PauseReason)
    requires Consistent(s)
    ensures var r := TaskPaused(reason, s.stage, s.elapsedMs);
            && (LiveWrites(s, r, Some(task)) <==> s.state == Ready)
            && (s.state == Ready ==> Apply(s, r, Some(task)) == Some(s.(state := Paused)))
  {
  }

  predicate SettlesSummary(r: Record) { r.RequestSettled? && r.kind == SummaryResponse }

  /** What a reserved request may leave in the journal. An action answer leaves nothing yet, a summary its settlement;
      without a reply it is a failure, an interruption, a summary settled too late or at the end of the token budget,
      which then pauses the task, or nothing. */
  predicate Outcomes(mode: RequestKind, replied: bool, rs: seq<Record>) {
    if replied then
      if mode == ActionRequest then rs == [] else |rs| == 1 && SettlesSummary(rs[0])
    else
      || rs == []
      || (|rs| == 1 && (rs[0].RequestFailed? || rs[0].ProviderInterrupted?))
      || (&& mode == SummaryRequest && 1 <= |rs| <= 2 && SettlesSummary(rs[0])
          && (|rs| == 2 ==> rs[1].TaskPaused? && rs[1].pauseReason == RequestBudgetReached))
  }

  /** A summary has no side effects, so it is settled at once; a spent token budget then pauses the task. */
  method SettleSummary(session: Session, ledger: Ledger, elapsed: nat, tokens: TokenDelta) returns (ok: bool)
    requires Synced(session, ledger) && ledger.pendingResponse.None?
    requires ScanOf(session).recovery.Complete()
    modifies session, ledger
    ensures Still(session, old(session.entries), session.entries)
    ensures OnlyTasks(old(session.entries), session.entries)
    ensures Records(old(session.entries)) <= Records(session.entries)
    ensures Outcomes(SummaryRequest, ok, Added(old(session.entries), session.entries))
    ensures ok ==>
              && Synced(session, ledger) && ledger.pendingResponse.None?
              && SameContext(old(ScanOf(session)), ScanOf(session))
              && ledger.fields.limits == old(ledger.fields.limits)
              && ledger.fields.state == Ready
              && ledger.fields.requests == old(ledger.fields.requests) + 1
              && ledger.fields.limits.Some? && ledger.fields.reportedTokens < ledger.fields.limits.value.maxTokens
    ensures !ok ==>
              || (session.entries == old(session.entries) && ledger.fields == old(ledger.fields))
              || (&& ledger.fields.limits.Some?
                  && ledger.fields.reportedTokens >= ledger.fields.limits.value.maxTokens
                  && ledger.fields.state in {Ready, Paused})
  {
    hide Apply, History, Records, Added;
    var task := session.task;
    ghost var v := Read(task, session.entries).value;
    ReadLast(task, session.entries);
    AddedNone(session.entries);
    ok := ledger.SettleRequest(session, SummaryResponse, elapsed, tokens);
    if !ok {
      return;
    }
    TaskGrown(session, old(session.entries), session.entries, v,
              RequestSettled(v.ledger.pendingSequence.value, v.ledger.stage, elapsed, SummaryResponse, tokens,
                             tokens.Total().value), ledger.fields);
    if ledger.fields.limits.Some? && ledger.fields.reportedTokens >= ledger.fields.limits.value.maxTokens {
      ghost var settled, w := session.entries, Read(task, session.entries).value;
      PauseWrites(task, w.ledger, RequestBudgetReached);
      var paused := ledger.Pause(session, RequestBudgetReached);
      if paused {
        TaskGrown(session, settled, session.entries, w,
                  TaskPaused(RequestBudgetReached, w.ledger.stage, w.ledger.elapsedMs), ledger.fields);
        AddedAfter(old(session.entries), settled, session.entries);
      }
      ok := false;
    }
  }

  /** The reserved request, until it is answered, fails, is dropped, or the run dies. */
  method AwaitReply(mode: RequestKind, sequence: nat, host: Host, session: Session, ledger: Ledger)
    returns (reply: Option<Message>)
    requires Synced(session, ledger) && ledger.pendingResponse.None?
    requires ScanOf(session).recovery.Complete()
    requires ledger.fields.state == PendingProvider && sequence == ledger.fields.requests + 1
    requires ScanOf(session).last.Some? && ScanOf(session).last.value.IsTask()
    requires ScanOf(session).last.value.body.record.RequestStarted?
    requires ScanOf(session).last.value.body.record.sequence == sequence
    modifies host, session, ledger
    ensures host.sent == old(host.sent)
    ensures Still(session, old(session.entries), session.entries)
    ensures OnlyTasks(old(session.entries), session.entries)
    ensures Records(old(session.entries)) <= Records(session.entries)
    ensures Outcomes(mode, reply.Some?, Added(old(session.entries), session.entries))
    ensures reply.Some? ==>
              && Synced(session, ledger)
              && SameContext(old(ScanOf(session)), ScanOf(session))
              && ledger.fields.limits == old(ledger.fields.limits)
              && (reply.value.Assistant? ==> ReadableBlocks(reply.value.blocks))
              && (mode == SummaryRequest ==>
                    && ledger.pendingResponse.None? && ledger.fields.state == Ready
                    && ledger.fields.requests == old(ledger.fields.requests) + 1)
              && (mode == ActionRequest ==>
                    && ledger.pendingResponse.Some? && ledger.fields.state == PendingProvider
                    && ledger.fields.requests == old(ledger.fields.requests))
  {
    hide Apply, History, Records, Added;
    var task := session.task;
    ghost var v := Read(task, session.entries).value;
    ReadLast(task, session.entries);
    AddedNone(session.entries);
    var outcome: Outcome := *;
    var tokens: TokenDelta := *;
    var later := host.Clock();
    var crashed: bool := *;
    if crashed {
      return None;
    }
    match outcome
    case Cancelled(reason, panicking) =>
      DropWait(host, session, ledger, mode, reason, panicking);
      return None;
    case Errored(timeout) =>
      var category := if timeout then ProviderTimeout else Provider;
      var failed := ledger.FailRequest(session, category, later, tokens);
      if failed {
        TaskGrown(session, old(session.entries), session.entries, v,
                  RequestFailed(v.ledger.pendingSequence.value, v.ledger.stage, later, category, tokens,
                                tokens.Total().value), ledger.fields);
      }
      return None;
    case Answered =>
      var message := ProviderReply();
      if mode == ActionRequest {
        ledger.pendingResponse := Some(PendingResponse(sequence, later, tokens));
        return Some(message);
      }
      var settled := SettleSummary(session, ledger, later, tokens);
      return if settled then Some(message) else None;
  }

  /** One gated request: sent only behind its durable reservation, and followed by a record of what became of it.
      Without a reply the run ends here. */
  method CompleteWith(request: Request, host: Host, session: Session, ledger: Ledger) returns (reply: Option<Message>)
    requires Synced(session, ledger) && ledger.pendingResponse.None?
    requires ScanOf(session).recovery.Complete()
    modifies host, session, ledger
    ensures Still(session, old(session.entries), session.entries)
    ensures OnlyTasks(old(session.entries), session.entries)
    ensures Records(old(session.entries)) <= Records(session.entries)
    ensures var rs := Added(old(session.entries), session.entries);
            && (reply.Some? ==> host.sent == old(host.sent) + [request])
            && host.sent in {old(host.sent), old(host.sent) + [request]}
            && (if rs == [] then reply.None? && host.sent == old(host.sent)
                else rs[0].RequestStarted? && Outcomes(request.Kind(), reply.Some?, rs[1..]))
    ensures reply.Some? ==>
              && Synced(session, ledger)
              && SameContext(old(ScanOf(session)), ScanOf(session))
              && ledger.fields.limits == old(ledger.fields.limits)
              && (reply.value.Assistant? ==> ReadableBlocks(reply.value.blocks))
              && (request.ForSummary? ==>
                    && ledger.pendingResponse.None? && ledger.fields.state == Ready
                    && ledger.fields.requests == old(ledger.fields.requests) + 1)
              && (request.ForAction? ==>
                    && ledger.pendingResponse.Some? && ledger.fields.state == PendingProvider
                    && ledger.fields.requests == old(ledger.fields.requests))
  {
    hide Apply, History, Records, Added;
    var task := session.task;
    ghost var v := Read(task, session.entries).value;
    ReadLast(task, session.entries);
    AddedNone(session.entries);
    if ledger.fields.limits.Some?
       && (ledger.fields.requests >= ledger.fields.limits.value.maxRequests
           || ledger.fields.reportedTokens >= ledger.fields.limits.value.maxTokens)
    {
      return None;
    }
    var clock := host.Clock();
    var sequence := ledger.BeginRequest(session, clock);
    if sequence.None? {
      return None;
    }
    TaskGrown(session, old(session.entries), session.entries, v,
              RequestStarted(sequence.value, v.ledger.stage, clock), ledger.fields);
    ghost var begun := session.entries;
    var crashed: bool := *;
    if crashed {
      return None;
    }
    host.Send(request);
    reply := AwaitReply(request.Kind(), sequence.value, host, session, ledger);
    GrownTwice(session, old(session.entries), begun, session.entries);
    AddedAfter(old(session.entries), begun, session.entries);
  }

  lemma AddedNone(es: seq<Entry>)
    ensures Records(es) <= Records(es) && Added(es, es) == []
  {
    hide Records;
  }

  lemma AddedAfter(a: seq<Entry>, b: seq<Entry>, c: seq<Entry>)
    requires Records(a) <= Records(b) <= Records(c) && |Added(a, b)| == 1
    ensures Records(a) <= Records(c) && Added(a, c) != []
    ensures Added(a, c)[0] == Added(a, b)[0] && Added(a, c)[1..] == Added(b, c)
  {
    hide Records;
  }
}
