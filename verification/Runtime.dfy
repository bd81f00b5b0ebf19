/** The agent loop over one session, with every crash point: each return without a result is a place where the run
    may die, and what it promises there is what the next run finds. */
module Runtime {
  import opened Common
  import opened LongTask
  import opened LongTaskHistory
  import opened Messages
  import opened Compaction
  import opened Journal
  import opened JournalHistory
  import opened Durable
  import opened Gate
  import opened Evidence
  import opened Summarizer
  import opened Utf8
  import opened Tools

  datatype LongRun = LongRun(limits: Limits, resume: bool, followUp: bool, pauseAfterStage: Option<nat>)

  /** System prompt and budget guidance of a request. */
  type Instructions = Text

  /** The size of a provider request with these instructions and this context, or a provider error. */
  type Measure = (Instructions, seq<Message>) -> Option<nat>

  /** The digest of a settled batch. */
  type Digester = (seq<ToolCall>, seq<Message>) -> nat

  datatype RunInput = RunInput(
    prompt: Text, noTools: bool, maxTurns: nat, compactAt: Option<nat>, long: Option<LongRun>,
    repeatLimit: nat, continuationLimit: nat, admits: ToolCall -> bool, measure: Measure, wire: Wire,
    render: Render, digest: Digester)
  {
    predicate IsLong() { long.Some? }
  }

  const CONTEXT_LIMIT: nat := 65536
  const CONTINUE := User(Blocks([TextBlock(
    "Continue exactly where the previous message stopped; do not repeat text.")]), true)

  /** What the loop carries from turn to turn in memory. */
  datatype Progress = Progress(
    messages: seq<Message>, ids: set<Id>, remaining: nat, continuations: nat,
    lastBatch: Option<Fingerprint>, batchRepeats: nat, warned: bool)

  /** The guarantee of every step, finished or not: the journal grew readably, stayed live if it was, and no call
      was executed twice or without its durable mark. */
  ghost predicate Kept(es: seq<Entry>, session: Session, executor: Executor)
    reads session, executor
  {
    && Grown(session, es, session.entries)
    && Once(session.task, session.entries, executor.executed)
  }

  /** The loop head: memory and journal agree, nothing is in flight, and in a long task the volatile counter and
      the durable one always make up the request budget. */
  ghost predicate Head(input: RunInput, session: Session, ledger: Ledger, p: Progress)
    reads session, ledger
  {
    && Synced(session, ledger) && ledger.pendingResponse.None?
    && ScanOf(session).recovery.Complete()
    && p.messages == ScanOf(session).messages
    && p.ids == ScanOf(session).recovery.calls.Keys
    && (input.IsLong() ==>
          && ledger.fields.limits == Some(input.long.value.limits)
          && p.remaining + ledger.fields.requests == input.long.value.limits.maxRequests
          && Resting(ledger.fields))
    && (!input.IsLong() ==> ledger.fields.state in {NoTask, Completed, Failed})
    && (session.longOnly ==> input.IsLong())
  }

  /** A ready task was paused by a record, if the append landed; else nothing happened. */
  ghost predicate PausedNow(reason: PauseReason, es: seq<Entry>, l: Snapshot, writable: bool, session: Session,
                            ledger: Ledger)
    reads session, ledger
  {
    if l.state == Ready && writable
    then Appended(es, session.entries, LongTaskBody(TaskPaused(reason, l.stage, l.elapsedMs)))
         && ledger.fields == l.(state := Paused)
    else session.entries == es && ledger.fields == l
  }

  /** A pause flag raised by a signal is looked at only at settled boundaries. */
  method PauseIfRequested(session: Session, ledger: Ledger) returns (stop: bool)
    requires Synced(session, ledger)
    requires ScanOf(session).recovery.Complete()
    modifies session, ledger
    ensures Still(session, old(session.entries), session.entries)
    ensures !stop ==>
              && session.entries == old(session.entries) && session.writable == old(session.writable)
              && ledger.fields == old(ledger.fields)
    ensures stop ==>
              && old(ledger.fields).state in {Ready, Paused}
              && PausedNow(Operator, old(session.entries), old(ledger.fields), old(session.writable), session, ledger)
    ensures ledger.pendingResponse == old(ledger.pendingResponse)
  {
    hide History, Apply;
    GrownSelf(session, session.entries);
    ReadLast(session.task, session.entries);
    var requested: bool := *;
    if !requested {
      return false;
    }
    if ledger.fields.state == Ready {
      PauseTask(session, ledger, Operator);
      return true;
    }
    return ledger.fields.state == Paused;
  }

  /** Pauses a ready task; whether or not the record lands, the run is over. */
  method PauseTask(session: Session, ledger: Ledger, reason: PauseReason)
    requires Synced(session, ledger)
    requires ScanOf(session).recovery.Complete()
    modifies session, ledger
    ensures Still(session, old(session.entries), session.entries)
    ensures PausedNow(reason, old(session.entries), old(ledger.fields), old(session.writable), session, ledger)
    ensures ledger.pendingResponse == old(ledger.pendingResponse)
  {
    hide History, Records, Added, Apply, LiveWrites;
    GrownSelf(session, session.entries);
    ReadLast(session.task, session.entries);
    ghost var v := Read(session.task, session.entries).value;
    PauseWrites(session.task, v.ledger, reason);
    var paused := ledger.Pause(session, reason);
    if paused {
      TaskGrown(session, old(session.entries), session.entries, v,
                TaskPaused(reason, v.ledger.stage, v.ledger.elapsedMs), ledger.fields);
    }
  }

  /** Stops a long task whose wall clock or budgets are spent, and pauses it if it is ready. The request budget is
      never found spent here: the loop counter is positive, and the two add up. */
  method CheckBudgets(limits: Limits, host: Host, session: Session, ledger: Ledger, ghost remaining: nat)
    returns (stop: bool)
    requires Synced(session, ledger)
    requires ScanOf(session).recovery.Complete()
    requires remaining > 0 && remaining + ledger.fields.requests == limits.maxRequests
    modifies host, session, ledger
    ensures host.sent == old(host.sent) && old(host.readings) <= host.readings
    ensures Still(session, old(session.entries), session.entries)
    ensures !stop ==>
              && session.entries == old(session.entries) && ledger.fields == old(ledger.fields)
              && |host.readings| == |old(host.readings)| + 1
              && host.readings[|old(host.readings)|] < limits.WallMs()
              && ledger.fields.reportedTokens < limits.maxTokens
    ensures stop ==>
              exists reason ::
                && PausedNow(reason, old(session.entries), old(ledger.fields), old(session.writable), session, ledger)
                && (reason == WallTimeout ==>
                      && |host.readings| == |old(host.readings)| + 1
                      && host.readings[|old(host.readings)|] >= limits.WallMs())
                && (reason == RequestBudgetReached ==> old(ledger.fields).reportedTokens >= limits.maxTokens)
                && (reason == Operator ==> old(ledger.fields).state in {Ready, Paused})
    ensures ledger.pendingResponse == old(ledger.pendingResponse)
  {
    hide Apply, Appended, Grown, History;
    stop := PauseIfRequested(session, ledger);
    if stop {
      return;
    }
    var elapsed := host.Clock();
    assert ledger.fields.requests < limits.maxRequests;
    if elapsed >= limits.WallMs() {
      if ledger.fields.state == Ready {
        PauseTask(session, ledger, WallTimeout);
      }
      assert PausedNow(WallTimeout, old(session.entries), old(ledger.fields), old(session.writable), session, ledger);
      return true;
    }
    if ledger.fields.requests >= limits.maxRequests || ledger.fields.reportedTokens >= limits.maxTokens {
      if ledger.fields.state == Ready {
        PauseTask(session, ledger, RequestBudgetReached);
      }
      assert PausedNow(RequestBudgetReached, old(session.entries), old(ledger.fields), old(session.writable), session,
                       ledger);
      return true;
    }
    return false;
  }

  /** Instructions and guidance are written anew for every request. */
  method CurrentInstructions() returns (instructions: Instructions) {
    instructions := *;
  }

  /** How a context was compacted: the summary, the pieces of the evidence and the requests sent for them, and the
      instructions before and after. */
  datatype Compacted = Compacted(
    summary: Summary, cutting: Cutting, requests: seq<Request>, before: Instructions, after: Instructions)

  predicate AtMost(size: Option<nat>, n: int) { size.Some? && size.value <= n }

  /** The request had outgrown the limit, with room for a summary beside the current request; the whole elided context
      was sent, piece by piece; the checkpoint is the new context, and its request is within the limit, so smaller than
      before. */
  ghost predicate Condensed(input: RunInput, limit: nat, ms: seq<Message>, c: Compacted, compacted: seq<Message>) {
    var budget, text := Min(limit / 8, MAX_SUMMARY_BYTES), EvidenceText(input.render, ms);
    && input.measure(c.before, ms).Some? && limit < input.measure(c.before, ms).value
    && LatestUser(ms).Some?
    && AtMost(input.measure(c.before, [LatestUser(ms).value]), limit - 2 * budget - 512)
    && Sliced(input.wire, text, limit, c.cutting) && Flatten(c.cutting.fragments) == EncodeAll(text)
    && Sends(input.wire, limit, c.cutting, c.requests)
    && ValidSummary(c.summary, budget)
    && CheckpointMessages(c.summary, ms) == Some(compacted)
    && AtMost(input.measure(c.after, compacted), limit)
  }

  /** With compaction on, this context with these instructions is measured and within the limit. */
  predicate Measured(input: RunInput, instructions: Instructions, ms: seq<Message>) {
    input.compactAt.Some? ==> AtMost(input.measure(instructions, ms), input.compactAt.value)
  }

  /** A request the run may send: with compaction on none exceeds the limit, and only then are there summaries. */
  predicate FitsLimit(input: RunInput, request: Request) {
    match request
    case ForAction(instructions, messages) => Measured(input, instructions, messages)
    case ForSummary(_, _, _, _) => input.compactAt.Some? && FitsWire(input.wire, input.compactAt.value, request)
  }

  /** Every request sent since fits. */
  ghost predicate SentFit(input: RunInput, before: seq<Request>, after: seq<Request>) {
    before <= after && forall i :: |before| <= i < |after| ==> FitsLimit(input, after[i])
  }

  lemma SentTwice(input: RunInput, a: seq<Request>, b: seq<Request>, c: seq<Request>)
    requires SentFit(input, a, b) && SentFit(input, b, c)
    ensures SentFit(input, a, c)
  {
  }

  lemma SummariesFit(input: RunInput, limit: nat, before: seq<Request>, requests: seq<Request>)
    requires input.compactAt == Some(limit) && AllFit(input.wire, limit, requests)
    ensures SentFit(input, before, before + requests)
  {
    forall i | |before| <= i < |before + requests| ensures FitsLimit(input, (before + requests)[i]) {
      assert requests[i - |before|] in requests;
    }
  }

  lemma NothingSent(input: RunInput, sent: seq<Request>)
    ensures SentFit(input, sent, sent)
  {
  }

  /** Replaces the context by a checkpoint when the request has outgrown the limit, else leaves it alone. Either way the
      request that follows, with the instructions returned, is within the limit. */
  method Compact(input: RunInput, limit: nat, instructions0: Instructions, host: Host, session: Session,
                 ledger: Ledger, messages0: seq<Message>, remaining0: nat)
    returns (ok: bool, messages: seq<Message>, remaining: nat, instructions: Instructions,
             ghost done: Option<Compacted>)
    requires remaining0 > 0 && input.compactAt == Some(limit)
    requires Synced(session, ledger) && ledger.pendingResponse.None?
    requires ScanOf(session).recovery.Complete() && messages0 == ScanOf(session).messages
    modifies host, session, ledger
    ensures Still(session, old(session.entries), session.entries)
    ensures remaining >= 1
    ensures SentFit(input, old(host.sent), host.sent)
    ensures ok ==> AtMost(input.measure(instructions, messages), limit)
    ensures ok && done.None? ==>
              && messages == messages0 && remaining == remaining0 && session.entries == old(session.entries)
              && instructions == instructions0 && host.sent == old(host.sent)
    ensures ok && done.Some? ==>
              && Condensed(input, limit, messages0, done.value, messages)
              && done.value.before == instructions0 && done.value.after == instructions
              && host.sent == old(host.sent) + done.value.requests
    ensures ok ==>
              && Synced(session, ledger) && ledger.pendingResponse.None?
              && ScanOf(session).recovery == old(ScanOf(session).recovery)
              && messages == ScanOf(session).messages
              && ledger.fields.limits == old(ledger.fields.limits)
              && remaining <= remaining0
              && (input.IsLong() ==> remaining + ledger.fields.requests == remaining0 + old(ledger.fields.requests))
              && (ledger.fields.state == Ready || ledger.fields.state == old(ledger.fields.state))
              && (!input.IsLong() ==> ledger.fields == old(ledger.fields))
  {
    hide Apply, RecoverMessage, RecoverOperation, CheckpointMessages, EvidenceText, EncodeAll, Flatten, ValidSummary,
      Sliced, Sends, AllFit, SentFit, History, Grown, Live;
    ok, messages, remaining, instructions, done := false, messages0, remaining0, instructions0, None;
    var long := input.IsLong();
    GrownSelf(session, session.entries);
    NothingSent(input, host.sent);
    var before := input.measure(instructions, messages);
    if before.None? {
      return;
    }
    if before.value <= limit {
      ok := true;
      return;
    }
    var latest := LatestUser(messages);
    if latest.None? {
      return;
    }
    var bare := input.measure(instructions, [latest.value]);
    if bare.None? || bare.value + 2 * Min(limit / 8, MAX_SUMMARY_BYTES) + 512 > limit {
      return;
    }
    var settled := session.CheckRecovery();
    if !settled {
      return;
    }
    HeldStart(long, session, ledger);
    ghost var sent := host.sent;
    var summary, left, cutting, made, requests :=
      SummarizeContext(input.render, messages, limit, remaining, input.wire, long, host, session, ledger,
                       session.entries, ledger.fields);
    SummariesFit(input, limit, sent, requests);
    remaining := left;
    if summary.None? {
      return;
    }
    HeldContext(long, old(session.entries), old(ledger.fields), made, session, ledger);
    ghost var mid := session.entries;
    var compacted := BuildCheckpoint(summary.value, messages);
    instructions := CurrentInstructions();
    if compacted.None? {
      return;
    }
    var after := input.measure(instructions, compacted.value);
    if after.None? || after.value > limit || after.value >= before.value {
      return;
    }
    done := Some(Compacted(summary.value, cutting, requests, instructions0, instructions));
    ok, messages := WriteCheckpoint(summary.value, compacted.value, session, ledger, messages);
    GrownTwice(session, old(session.entries), mid, session.entries);
  }

  lemma HeldContext(long: bool, es0: seq<Entry>, l0: Snapshot, requests: nat, session: Session, ledger: Ledger)
    requires Held(long, es0, l0, requests, session, ledger)
    ensures Read(session.task, es0).Some?
    ensures Synced(session, ledger) && ledger.pendingResponse.None?
    ensures SameContext(Read(session.task, es0).value.scan, ScanOf(session))
    ensures ScanOf(session).recovery.Complete()
    ensures ledger.fields.limits == l0.limits
    ensures long ==> ledger.fields.requests == l0.requests + requests
    ensures !long ==> session.entries == es0 && ledger.fields == l0
    ensures Still(session, es0, session.entries)
  {
  }

  /** Writes the checkpoint and rereads the journal. The program compares the two contexts and stops when they
      differ; they never do. */
  method WriteCheckpoint(summary: Summary, compacted: seq<Message>, session: Session, ledger: Ledger,
                         messages0: seq<Message>)
    returns (ok: bool, messages: seq<Message>)
    requires Synced(session, ledger) && ScanOf(session).recovery.Complete()
    requires messages0 == ScanOf(session).messages && CheckpointMessages(summary, messages0) == Some(compacted)
    modifies session
    ensures Still(session, old(session.entries), session.entries)
    ensures ok ==>
              && Synced(session, ledger)
              && ScanOf(session).recovery == old(ScanOf(session).recovery)
              && messages == ScanOf(session).messages == compacted
  {
    hide Apply, RecoverMessage, RecoverOperation, CheckpointMessages, Step, History;
    ok, messages := false, messages0;
    ghost var es := session.entries;
    ghost var v := Read(session.task, es).value;
    ReadIsAccepted(session.task, es);
    GrownSelf(session, es);
    var landed := session.RecordCompaction(summary);
    if !landed {
      return;
    }
    KeptRequest(summary, messages0);
    CompactionGrown(session, es, session.entries, v, compacted);
    ReadIsAccepted(session.task, session.entries);
    var crashed: bool := *;
    if crashed {
      return;
    }
    var reread := session.Messages();
    assert reread == Some(compacted);
    ok, messages := true, reread.value;
  }

  lemma KeptRequest(summary: Summary, ms: seq<Message>)
    requires CheckpointMessages(summary, ms).Some?
    ensures LatestUser(ms).Some?
  {
  }

  lemma CompactionGrown(session: Session, es: seq<Entry>, es2: seq<Entry>, v: View, compacted: seq<Message>)
    requires Read(session.task, es) == Some(v) && Accepted(session.task, es2) && UniqueIds(es2)
    requires |es2| == |es| + 1 && es <= es2 && es2[|es|].body.CompactionBody?
    requires ScanAll(es2).value == v.scan.(messages := compacted, last := Some(es2[|es|]))
    requires Replay(Records(es2), Some(session.task)) == Replay(Records(es), Some(session.task))
    ensures Still(session, es, es2)
    ensures Read(session.task, es2) == Some(View(v.scan.(messages := compacted, last := Some(es2[|es|])), v.ledger))
  {
    hide Apply, Step;
    ReadIsAccepted(session.task, es);
    ReadIsAccepted(session.task, es2);
    assert es2[..|es2| - 1] == es;
  }

  // One action request and what follows from its answer

  /** The checks an answer must pass before anything of it is stored. */
  function CallsOf(message: Message, noTools: bool): Option<seq<ToolCall>> {
    if !message.Assistant? || ToolCalls(message.blocks).None? then None
    else
      var calls := ToolCalls(message.blocks).value;
      if noTools && calls != [] then None
      else if calls == [] && message.stop != StopEnd && message.stop != StopLength then None
      else if calls != [] && message.stop != StopToolUse then None
      else Some(calls)
  }

  /** An answer that passes every check made before it is stored, and makes any journal unreadable: no adapter builds
      one, but nothing in the loop refuses it. */
  lemma RawAnswerIsUnreadable(task: Id, es: seq<Entry>, id: Id, noTools: bool, message: Message)
    requires Read(task, es).Some? && message == Assistant([Raw], StopEnd)
    ensures CallsOf(message, noTools) == Some([])
    ensures FreshCalls(Read(task, es).value.scan.recovery.calls.Keys, [])
    ensures !Accepted(task, es + [Entry(id, LastId(es), MessageBody(message))])
  {
    var e := Entry(id, LastId(es), MessageBody(message));
    RawPasses(message, noTools);
    assert message.blocks[0] in message.blocks;
    RawIsRefused(task, Read(task, es).value, e);
    ReadSnoc(task, es, e);
    ReadIsAccepted(task, es + [e]);
    hide *;
    assert FreshCalls(Read(task, es).value.scan.recovery.calls.Keys, []) by {
      NoCallsAreFresh(Read(task, es).value.scan.recovery.calls.Keys);
    }
  }

  lemma NoCallsAreFresh(known: set<Id>)
    ensures FreshCalls(known, [])
  {
  }

  lemma RawPasses(message: Message, noTools: bool)
    requires message == Assistant([Raw], StopEnd)
    ensures CallsOf(message, noTools) == Some([])
  {
    assert message.blocks[0] == Raw && message.blocks[1..] == [];
    assert ToolCalls(message.blocks[1..]) == Some([]);
  }

  lemma RawIsRefused(task: Id, v: View, e: Entry)
    requires e.body.MessageBody? && e.body.message.Assistant? && Raw in e.body.message.blocks
    ensures Step(task, v, e).None?
  {
    hide Apply;
  }

  /** Reserves the ids of an answer; fails on the first one the session has ever used. */
  method AddIds(ids0: set<Id>, calls: seq<ToolCall>) returns (ok: bool, ids: set<Id>)
    ensures ok <==> FreshCalls(ids0, calls)
    ensures ok ==> ids == ids0 + Ids(calls)
  {
    ids := ids0;
    for i := 0 to |calls|
      invariant FreshCalls(ids0, calls[..i])
      invariant ids == ids0 + Ids(calls[..i])
    {
      assert calls[..i + 1] == calls[..i] + [calls[i]];
      if calls[i].id in ids {
        return false, ids;
      }
      IdsSnoc(calls[..i], calls[i]);
      ids := ids + {calls[i].id};
    }
    assert calls[..|calls|] == calls;
    return true, ids;
  }

  lemma IdsSnoc(calls: seq<ToolCall>, call: ToolCall)
    ensures Ids(calls + [call]) == Ids(calls) + {call.id}
  {
    var longer := calls + [call];
    assert longer[|calls|] == call;
    assert forall i :: 0 <= i < |calls| ==> longer[i] == calls[i];
  }

  /** The answer of one action request: gated in a long task, direct otherwise. */
  method AskAction(long: bool, request: Request, host: Host, session: Session, ledger: Ledger)
    returns (reply: Option<Message>)
    requires request.ForAction?
    requires Synced(session, ledger) && ledger.pendingResponse.None?
    requires ScanOf(session).recovery.Complete()
    modifies host, session, ledger
    ensures host.sent in {old(host.sent), old(host.sent) + [request]}
    ensures reply.Some? || !long ==> host.sent == old(host.sent) + [request]
    ensures Still(session, old(session.entries), session.entries)
    ensures reply.Some? ==>
              && Synced(session, ledger) && SameContext(old(ScanOf(session)), ScanOf(session))
              && ledger.fields.limits == old(ledger.fields.limits)
              && ledger.fields.requests == old(ledger.fields.requests)
              && (reply.value.Assistant? ==> ReadableBlocks(reply.value.blocks))
              && (long ==> ledger.pendingResponse.Some? && ledger.fields.state == PendingProvider)
              && (!long ==> ledger.pendingResponse.None? && ledger.fields == old(ledger.fields))
    ensures OnlyTasks(old(session.entries), session.entries)
  {
    hide Added, Outcomes;
    GrownSelf(session, session.entries);
    if long {
      reply := CompleteWith(request, host, session, ledger);
    } else {
      host.Send(request);
      var failed: bool := *;
      var message := ProviderReply();
      reply := if failed then None else Some(message);
    }
  }

  /** The record that fails the open reservation with the usage of a refused answer. */
  function FailureOf(s: Snapshot, pending: PendingResponse): Option<Record> {
    if s.pendingSequence.None? || pending.tokens.Total().None? then None
    else Some(RequestFailed(s.pendingSequence.value, s.stage, pending.elapsedMs, Provider, pending.tokens,
                            pending.tokens.Total().value))
  }

  /** A refused answer ends its reservation as failed. */
  method FailPendingAction(session: Session, ledger: Ledger)
    requires Synced(session, ledger) && ledger.pendingResponse.Some? && ledger.fields.state == PendingProvider
    requires ScanOf(session).recovery.Complete()
    modifies session, ledger
    ensures Still(session, old(session.entries), session.entries)
    ensures var r := FailureOf(old(ledger.fields), old(ledger.pendingResponse).value);
            if r.Some? && old(session.writable) && LiveWrites(old(ledger.fields), r.value, Some(session.task))
            then Appended(old(session.entries), session.entries, LongTaskBody(r.value))
                 && ledger.fields.state == Failed && ledger.pendingResponse.None?
            else session.entries == old(session.entries) && ledger.fields == old(ledger.fields)
  {
    hide History, Records, Added, Apply;
    GrownSelf(session, session.entries);
    ReadLast(session.task, session.entries);
    ghost var v := Read(session.task, session.entries).value;
    var pending := ledger.pendingResponse.value;
    var failed := ledger.FailRequest(session, Provider, pending.elapsedMs, pending.tokens);
    if failed {
      ghost var r := RequestFailed(v.ledger.pendingSequence.value, v.ledger.stage, pending.elapsedMs, Provider,
                                   pending.tokens, pending.tokens.Total().value);
      AdvancedFacts(session.task, v.ledger, ledger.fields, r);
      TaskGrown(session, old(session.entries), session.entries, v, r, ledger.fields);
      ledger.pendingResponse := None;
    }
  }

  /** The answer is durable: its reservation is settled as tools or final. */
  method SettlePendingAction(kind: ResponseKind, session: Session, ledger: Ledger) returns (ok: bool)
    requires Synced(session, ledger) && ledger.pendingResponse.Some?
    requires kind == ToolsResponse || (kind == FinalResponse && ScanOf(session).recovery.Complete())
    modifies session, ledger
    ensures Still(session, old(session.entries), session.entries)
    ensures ok ==>
              && Synced(session, ledger) && SameContext(old(ScanOf(session)), ScanOf(session))
              && ledger.pendingResponse.None?
              && ledger.fields.limits == old(ledger.fields.limits)
              && ledger.fields.requests == old(ledger.fields.requests) + 1
              && ledger.fields.state == StateAfter(kind)
  {
    hide History, Records, Added, Apply;
    GrownSelf(session, session.entries);
    ReadLast(session.task, session.entries);
    ghost var v := Read(session.task, session.entries).value;
    var pending := ledger.pendingResponse.value;
    ok := ledger.SettleRequest(session, kind, pending.elapsedMs, pending.tokens);
    if ok {
      ghost var r := RequestSettled(v.ledger.pendingSequence.value, v.ledger.stage, pending.elapsedMs, kind,
                                    pending.tokens, pending.tokens.Total().value);
      AdvancedFacts(session.task, v.ledger, ledger.fields, r);
      TaskGrown(session, old(session.entries), session.entries, v, r, ledger.fields);
      ledger.pendingResponse := None;
    }
  }

  /** Stores an accepted answer: its ids are new to the whole journal, so the reader takes it, and its calls are
      the open batch. */
  method StoreAnswer(message: Message, calls: seq<ToolCall>, session: Session, ledger: Ledger)
    returns (ok: bool)
    requires Synced(session, ledger) && ScanOf(session).recovery.Complete()
    requires message.Assistant? && ReadableBlocks(message.blocks) && ToolCalls(message.blocks) == Some(calls)
    requires FreshCalls(ScanOf(session).recovery.calls.Keys, calls)
    requires Active(session.longOnly, ledger.fields)
    modifies session
    ensures Grown(session, old(session.entries), session.entries)
    ensures History(session.entries) in {History(old(session.entries)), History(old(session.entries)) + [message]}
    ensures ok ==>
              && History(session.entries) == History(old(session.entries)) + [message]
              && Synced(session, ledger)
              && ScanOf(session).messages == old(ScanOf(session).messages) + [message]
              && ScanOf(session).recovery.calls.Keys == old(ScanOf(session).recovery.calls.Keys) + Ids(calls)
              && BatchAt(ScanOf(session).recovery, calls, 0)
              && (calls == [] ==> ScanOf(session).recovery.Complete())
  {
    hide Apply, BatchAt, RecoverOperation, Step, ToolCalls, History;
    GrownSelf(session, session.entries);
    ReadLast(session.task, session.entries);
    ghost var v := Read(session.task, session.entries).value;
    BatchStarts(v.scan.recovery, message);
    var landed := session.Append(MessageBody(message));
    if landed.None? {
      return false;
    }
    hide RecoverMessage;
    MessageGrown(session, old(session.entries), session.entries, v, message);
    var crashed: bool := *;
    return !crashed;
  }

  /** The fingerprint of a settled batch. */
  function PrintOf(input: RunInput, b: Batch): Fingerprint { Digest(input.digest(b.calls, b.answers)) }

  /** The ledger's part after a settled batch: the batch record, the repeat stop, the stage checkpoint, the pauses. */
  method AfterBatch(long: LongRun, fingerprint: Fingerprint, host: Host, session: Session, ledger: Ledger)
    returns (go: bool)
    requires fingerprint.Digest?
    requires Synced(session, ledger) && ledger.pendingResponse.None?
    requires ScanOf(session).recovery.Complete()
    modifies host, session, ledger
    ensures host.sent == old(host.sent)
    ensures Still(session, old(session.entries), session.entries)
    ensures go ==>
              && Synced(session, ledger) && SameContext(old(ScanOf(session)), ScanOf(session))
              && ledger.pendingResponse.None?
              && ledger.fields.limits == old(ledger.fields.limits)
              && ledger.fields.requests == old(ledger.fields.requests)
              && ledger.fields.state == Ready
              && ledger.fields.limits.Some? && ledger.fields.repeatCount < ledger.fields.limits.value.repeatLimit
              && ledger.fields.lastFingerprint == Some(fingerprint)
  {
    hide Apply, History, Records, Added;
    go := false;
    GrownSelf(session, session.entries);
    ReadLast(session.task, session.entries);
    ghost var v := Read(session.task, session.entries).value;
    var clock := host.Clock();
    var repeat := ledger.RecordToolBatch(session, clock, fingerprint);
    if repeat.None? {
      return;
    }
    ghost var r := ToolBatch(v.ledger.stage, v.ledger.stageRequests, clock, fingerprint, repeat.value);
    TaskGrown(session, old(session.entries), session.entries, v, r, ledger.fields);
    BatchRepeat(session.task, v.ledger, ledger.fields, r);
    ghost var es1 := session.entries;
    if repeat.value >= ledger.fields.limits.value.repeatLimit {
      ghost var w := Read(session.task, es1).value;
      var failed := ledger.FailTerminal(session, Runtime);
      if failed {
        TaskGrown(session, es1, session.entries, w,
                  TaskFailed(Runtime, w.ledger.stage, w.ledger.elapsedMs), ledger.fields);
        GrownTwice(session, old(session.entries), es1, session.entries);
      }
      return;
    }
    go := MaybeCheckpoint(long, fingerprint, host, session, ledger);
    GrownTwice(session, old(session.entries), es1, session.entries);
  }

  lemma BatchRepeat(task: Id, s: Snapshot, t: Snapshot, r: Record)
    requires Advanced(task, s, t, r) && r.ToolBatch?
    ensures t.repeatCount == r.repeatCount && t.limits.Some? && t.lastFingerprint == Some(r.fingerprint)
  {
  }

  lemma CheckpointRepeat(task: Id, s: Snapshot, t: Snapshot, r: Record)
    requires Advanced(task, s, t, r) && r.StageCheckpoint?
    ensures t.repeatCount == s.repeatCount && t.lastFingerprint == s.lastFingerprint
    ensures t.stage == s.stage + 1 && t.stageRequests == 0
  {
  }

  /** The stage has reached its soft request target, or the task its last request. */
  predicate StageDue(s: Snapshot) {
    s.limits.Some? && (s.stageRequests >= s.limits.value.stageRequests || s.requests >= s.limits.value.maxRequests)
  }

  /** A stage ends when it is due, and not before. */
  method MaybeCheckpoint(long: LongRun, fingerprint: Fingerprint, host: Host, session: Session, ledger: Ledger)
    returns (go: bool)
    requires Synced(session, ledger) && ledger.pendingResponse.None?
    requires ScanOf(session).recovery.Complete()
    requires ledger.fields.state == Ready && ledger.fields.limits.Some?
    requires ledger.fields.repeatCount < ledger.fields.limits.value.repeatLimit
    modifies host, session, ledger
    ensures host.sent == old(host.sent)
    ensures Still(session, old(session.entries), session.entries)
    ensures go ==>
              && Synced(session, ledger) && SameContext(old(ScanOf(session)), ScanOf(session))
              && ledger.pendingResponse.None?
              && ledger.fields.limits == old(ledger.fields.limits)
              && ledger.fields.requests == old(ledger.fields.requests)
              && ledger.fields.repeatCount == old(ledger.fields.repeatCount)
              && ledger.fields.lastFingerprint == old(ledger.fields.lastFingerprint)
              && ledger.fields.state == Ready
              && (if StageDue(old(ledger.fields))
                  then && ledger.fields.stage == old(ledger.fields.stage) + 1 && ledger.fields.stageRequests == 0
                       && (long.pauseAfterStage.Some? ==> ledger.fields.stage < long.pauseAfterStage.value)
                  else session.entries == old(session.entries) && ledger.fields == old(ledger.fields))
  {
    hide Apply, History, Records, Added, Live, Grown, LiveWrites;
    go := false;
    GrownSelf(session, session.entries);
    ReadLast(session.task, session.entries);
    ghost var v := Read(session.task, session.entries).value;
    if ledger.fields.stageRequests >= ledger.fields.limits.value.stageRequests
       || ledger.fields.requests >= ledger.fields.limits.value.maxRequests
    {
      var clock := host.Clock();
      var repeat := ledger.StageCheckpoint(session, clock, fingerprint);
      if repeat.None? {
        return;
      }
      ghost var r := LongTask.StageCheckpoint(v.ledger.stage + 1, v.ledger.stageRequests, clock, fingerprint,
                                              repeat.value);
      TaskGrown(session, old(session.entries), session.entries, v, r, ledger.fields);
      CheckpointRepeat(session.task, v.ledger, ledger.fields, r);
      if long.pauseAfterStage.Some? && ledger.fields.stage >= long.pauseAfterStage.value {
        ghost var es1 := session.entries;
        PauseTask(session, ledger, Operator);
        GrownTwice(session, old(session.entries), es1, session.entries);
        return;
      }
    }
    ghost var es2 := session.entries;
    var stop := PauseIfRequested(session, ledger);
    GrownTwice(session, old(session.entries), es2, session.entries);
    go := !stop;
  }

  /** The loop head, with one request of the budget already set aside for the coming action. */
  ghost predicate Charged(input: RunInput, session: Session, ledger: Ledger, p: Progress)
    reads session, ledger
  {
    && Synced(session, ledger) && ledger.pendingResponse.None?
    && ScanOf(session).recovery.Complete()
    && p.messages == ScanOf(session).messages
    && p.ids == ScanOf(session).recovery.calls.Keys
    && (input.IsLong() ==>
          && ledger.fields.limits == Some(input.long.value.limits)
          && p.remaining + ledger.fields.requests + 1 == input.long.value.limits.maxRequests)
    && (!input.IsLong() ==> ledger.fields.state in {NoTask, Completed, Failed})
    && (session.longOnly ==> input.IsLong())
  }

  /** From the loop head to the request: budget checks, compaction, and the turn's request taken off the counter,
      which can never be below one here. */
  method BeforeRequest(input: RunInput, host: Host, session: Session, ledger: Ledger, p: Progress)
    returns (ok: bool, q: Progress, instructions: Instructions)
    requires Head(input, session, ledger, p) && p.remaining > 0
    modifies host, session, ledger
    ensures SentFit(input, old(host.sent), host.sent)
    ensures Still(session, old(session.entries), session.entries)
    ensures ok ==>
              && Charged(input, session, ledger, q) && q.remaining < p.remaining
              && Measured(input, instructions, q.messages)
    ensures q == p.(messages := q.messages, remaining := q.remaining)
  {
    hide Apply, RecoverMessage, RecoverOperation, Read, Grown, Live, History, SentFit, Condensed;
    ok, q := false, p;
    instructions := CurrentInstructions();
    NothingSent(input, host.sent);
    GrownStart(session, ledger);
    if input.IsLong() {
      var stop := CheckBudgets(input.long.value.limits, host, session, ledger, p.remaining);
      if stop {
        return;
      }
    }
    if input.compactAt.Some? {
      ghost var es1 := session.entries;
      var compacted, messages, remaining;
      ghost var done;
      compacted, messages, remaining, instructions, done :=
        Compact(input, input.compactAt.value, instructions, host, session, ledger, q.messages, q.remaining);
      GrownTwice(session, old(session.entries), es1, session.entries);
      if !compacted {
        return;
      }
      q := q.(messages := messages, remaining := remaining);
    }
    q := q.(remaining := q.remaining - 1);
    if input.IsLong() {
      ghost var es2 := session.entries;
      var stop := PauseIfRequested(session, ledger);
      GrownTwice(session, old(session.entries), es2, session.entries);
      if stop {
        return;
      }
    }
    var crashed: bool := *;
    ok := !crashed;
  }

  lemma GrownStart(session: Session, ledger: Ledger)
    requires Synced(session, ledger)
    ensures Grown(session, session.entries, session.entries)
  {
    GrownSelf(session, session.entries);
  }

  /** An answer is durable and its reservation settled; its calls, if any, are the open batch. */
  ghost predicate Answered(input: RunInput, session: Session, ledger: Ledger, calls: seq<ToolCall>, p: Progress)
    reads session, ledger
  {
    && Synced(session, ledger) && ledger.pendingResponse.None?
    && p.messages == ScanOf(session).messages
    && p.ids == ScanOf(session).recovery.calls.Keys
    && BatchAt(ScanOf(session).recovery, calls, 0)
    && (calls == [] ==> ScanOf(session).recovery.Complete())
    && (input.IsLong() ==>
          && ledger.fields.limits == Some(input.long.value.limits)
          && p.remaining + ledger.fields.requests == input.long.value.limits.maxRequests
          && ledger.fields.state == if calls == [] then FinalPending else PendingTools)
    && (!input.IsLong() ==> ledger.fields.state in {NoTask, Completed, Failed})
    && (session.longOnly ==> input.IsLong())
  }

  /** The answer passes every check, and its ids are new to the whole journal. */
  ghost predicate Acceptable(input: RunInput, p: Progress, message: Message) {
    && CallsOf(message, input.noTools).Some?
    && FreshCalls(p.ids, CallsOf(message, input.noTools).value)
  }

  /** From the request to the durable answer. An answer that is not acceptable, or never came, leaves no message. */
  method ReceiveAnswer(input: RunInput, instructions: Instructions, host: Host, session: Session, ledger: Ledger,
                       p: Progress)
    returns (ok: bool, message: Message, calls: seq<ToolCall>, q: Progress)
    requires Charged(input, session, ledger, p)
    modifies host, session, ledger
    ensures host.sent in {old(host.sent), old(host.sent) + [ForAction(instructions, p.messages)]}
    ensures ok ==> host.sent == old(host.sent) + [ForAction(instructions, p.messages)]
    ensures Grown(session, old(session.entries), session.entries)
    ensures || History(session.entries) == History(old(session.entries))
            || (CallsOf(message, input.noTools) == Some(calls)
                && History(session.entries) == History(old(session.entries)) + [message])
    ensures ok ==> History(session.entries) == History(old(session.entries)) + [message]
    ensures ok ==>
              && Answered(input, session, ledger, calls, q) && q.remaining == p.remaining
              && CallsOf(message, input.noTools) == Some(calls) && q.messages == p.messages + [message]
    ensures q == p.(messages := q.messages, ids := q.ids)
    ensures !Acceptable(input, p, message) ==> !ok && OnlyTasks(old(session.entries), session.entries)
  {
    hide Apply, RecoverMessage, RecoverOperation, Read, Grown, Live, BatchAt, FreshCalls, ToolCalls, History;
    ok, message, calls, q := false, OtherRole, [], p;
    GrownStart(session, ledger);
    var reply := AskAction(input.IsLong(), ForAction(instructions, p.messages), host, session, ledger);
    if reply.None? {
      return;
    }
    message := reply.value;
    ghost var es1 := session.entries;
    var checked := CallsOf(message, input.noTools);
    if checked.None? {
      if input.IsLong() {
        FailPendingAction(session, ledger);
        GrownTwice(session, old(session.entries), es1, session.entries);
      }
      return;
    }
    calls := checked.value;
    var reserved, ids := AddIds(p.ids, calls);
    if !reserved {
      return;
    }
    var stored := StoreAnswer(message, calls, session, ledger);
    GrownTwice(session, old(session.entries), es1, session.entries);
    if !stored {
      return;
    }
    q := q.(messages := q.messages + [message], ids := ids);
    if input.IsLong() {
      ghost var es2 := session.entries;
      var settled := SettlePendingAction(if calls == [] then FinalResponse else ToolsResponse, session, ledger);
      GrownTwice(session, old(session.entries), es2, session.entries);
      if !settled || ledger.fields.reportedTokens > input.long.value.limits.maxTokens {
        return;
      }
    }
    ok := true;
  }

  /** A run that ended with an answer: the answer is the last message, nothing is in flight, and a long task is
      recorded as completed. */
  ghost predicate Done(input: RunInput, session: Session, answer: Message)
    reads session
  {
    && Read(session.task, session.entries).Some?
    && var v := Read(session.task, session.entries).value;
       && v.scan.messages != [] && v.scan.messages[|v.scan.messages| - 1] == answer
       && CallsOf(answer, input.noTools) == Some([]) && answer.stop == StopEnd
       && v.scan.recovery.Complete()
       && (input.IsLong() ==> v.ledger.state == Completed)
  }

  /** Asks for the rest of an answer that was cut off. */
  method Continue(input: RunInput, session: Session, ledger: Ledger, p: Progress) returns (next: Option<Progress>)
    requires Answered(input, session, ledger, [], p)
    modifies session
    ensures Grown(session, old(session.entries), session.entries)
    ensures History(session.entries) == History(old(session.entries)) + if next.Some? then [CONTINUE] else []
    ensures next.Some? ==>
              && Head(input, session, ledger, next.value) && next.value.remaining == p.remaining
              && next.value == p.(messages := p.messages + [CONTINUE], continuations := p.continuations + 1)
  {
    hide Apply, RecoverOperation, BatchAt, History;
    GrownStart(session, ledger);
    ghost var v := Read(session.task, session.entries).value;
    var landed := session.Append(MessageBody(CONTINUE));
    if landed.None? {
      return None;
    }
    MessageGrown(session, old(session.entries), session.entries, v, CONTINUE);
    return Some(p.(messages := p.messages + [CONTINUE], continuations := p.continuations + 1));
  }

  /** Records a long task as completed. */
  method CompleteTask(session: Session, ledger: Ledger) returns (ok: bool)
    requires Synced(session, ledger) && ScanOf(session).recovery.Complete()
    modifies session, ledger
    ensures Still(session, old(session.entries), session.entries)
    ensures ok ==>
              && Synced(session, ledger) && SameContext(old(ScanOf(session)), ScanOf(session))
              && ledger.fields.state == Completed
  {
    hide Apply, History, Records, Added;
    GrownStart(session, ledger);
    ReadLast(session.task, session.entries);
    ghost var v := Read(session.task, session.entries).value;
    ok := ledger.Complete(session);
    if ok {
      TaskGrown(session, old(session.entries), session.entries, v,
                TaskCompleted(v.ledger.stage, v.ledger.elapsedMs), ledger.fields);
    }
  }

  /** A text-only answer ends the run, unless it was cut off and a continuation is allowed. */
  method FinishOrContinue(input: RunInput, session: Session, ledger: Ledger, message: Message, p: Progress)
    returns (next: Option<Progress>, done: bool)
    requires Answered(input, session, ledger, [], p)
    requires CallsOf(message, input.noTools) == Some([])
    requires p.messages != [] && p.messages[|p.messages| - 1] == message
    modifies session, ledger
    ensures Grown(session, old(session.entries), session.entries)
    ensures History(session.entries) == History(old(session.entries)) + if next.Some? then [CONTINUE] else []
    ensures next.Some? ==>
              && Head(input, session, ledger, next.value) && next.value.remaining == p.remaining && !done
              && message.stop == StopLength && p.continuations < input.continuationLimit
              && next.value == p.(messages := p.messages + [CONTINUE], continuations := p.continuations + 1)
    ensures done ==> Done(input, session, message)
  {
    hide Apply, RecoverOperation, Read, BatchAt, ToolCalls, Grown, History;
    GrownStart(session, ledger);
    next, done := None, false;
    if message.stop == StopLength && p.continuations < input.continuationLimit {
      next := Continue(input, session, ledger, p);
      return;
    }
    if message.stop != StopEnd {
      return;
    }
    done := true;
    if input.IsLong() {
      done := CompleteTask(session, ledger);
    }
  }

  /** The guard's memory is right about the batches of this run so far. */
  ghost predicate Tracks(p: Progress, fs: seq<Fingerprint>) {
    IsTailRun(fs, p.batchRepeats) && p.lastBatch == if fs == [] then None else Some(fs[|fs| - 1])
  }

  /** The run-local guard of short runs: when the batches of the run end in limit or more identical ones, the first
      time warns and the next time ends the run. */
  method GuardShortRun(limit: nat, f: Fingerprint, p: Progress) returns (next: Option<Progress>)
    ensures next.Some? ==>
              next.value == p.(lastBatch := next.value.lastBatch, batchRepeats := next.value.batchRepeats,
                               warned := next.value.warned)
    ensures limit == 0 ==> next == Some(p)
    ensures forall fs, n: nat :: limit > 0 && Tracks(p, fs) && IsTailRun(fs + [f], n) ==>
              && (next.None? <==> p.warned && n >= limit)
              && (next.Some? ==> Tracks(next.value, fs + [f]) && (next.value.warned <==> p.warned || n >= limit))
  {
    if limit == 0 {
      return Some(p);
    }
    var repeats := if p.lastBatch == Some(f) then p.batchRepeats + 1 else 1;
    forall fs, n: nat | Tracks(p, fs) && IsTailRun(fs + [f], n)
      ensures n == repeats && IsTailRun(fs + [f], repeats)
    {
      TailRunSnoc(fs, p.batchRepeats, f);
      TailRunUnique(fs + [f], n, repeats);
    }
    hide IsTailRun;
    var q := p.(lastBatch := Some(f), batchRepeats := repeats);
    if repeats < limit {
      return Some(q);
    }
    return if p.warned then None else Some(q.(warned := true));
  }

  lemma TailRunUnique<T>(fs: seq<T>, m: nat, n: nat)
    requires IsTailRun(fs, m) && IsTailRun(fs, n)
    ensures m == n
  {
    assert m < |fs| ==> fs[|fs| - m - 1] != fs[|fs| - 1];
    assert n < |fs| ==> fs[|fs| - n - 1] != fs[|fs| - 1];
  }

  /** The length of the run of equal elements at the end. */
  function TailRun<T(==)>(fs: seq<T>): nat {
    if fs == [] then 0
    else if |fs| > 1 && fs[|fs| - 1] == fs[|fs| - 2] then TailRun(fs[..|fs| - 1]) + 1
    else 1
  }

  lemma {:induction false} TailRunIsTail<T>(fs: seq<T>)
    ensures IsTailRun(fs, TailRun(fs))
  {
    if fs != [] {
      var init, last := fs[..|fs| - 1], fs[|fs| - 1];
      TailRunIsTail(init);
      TailRunSnoc(init, TailRun(init), last);
      assert init + [last] == fs;
    }
  }

  /** After how many batches the run of identical ones at the end had reached the limit. */
  function Alarms(limit: nat, fs: seq<Fingerprint>): nat {
    if fs == [] then 0 else Alarms(limit, fs[..|fs| - 1]) + if TailRun(fs) >= limit then 1 else 0
  }

  function Prints(input: RunInput, batches: seq<Batch>): seq<Fingerprint> {
    if batches == [] then [] else Prints(input, batches[..|batches| - 1]) + [PrintOf(input, batches[|batches| - 1])]
  }

  /** The guard of short runs is on. */
  predicate Guards(input: RunInput) { !input.IsLong() && input.repeatLimit > 0 }

  /** The guard's memory is right about the batches of this run so far, and it has warned at the one alarm there was. */
  ghost predicate Guarded(input: RunInput, p: Progress, batches: seq<Batch>) {
    Guards(input) ==>
      && Tracks(p, Prints(input, batches))
      && Alarms(input.repeatLimit, Prints(input, batches)) == if p.warned then 1 else 0
  }

  /** No batch followed a second alarm, and a run that goes on or has its answer met one at most. */
  predicate Heeded(input: RunInput, batches: seq<Batch>, well: bool) {
    Guards(input) ==>
      && (batches != [] ==> Alarms(input.repeatLimit, Prints(input, batches[..|batches| - 1])) <= 1)
      && (well ==> Alarms(input.repeatLimit, Prints(input, batches)) <= 1)
  }

  /** Where a run began: what was journaled, executed and said before it. */
  datatype Origin = Origin(history: seq<Message>, executed: seq<Id>, outcomes: seq<ToolOutcome>)

  /** The batches of the run, read off the messages journaled since. */
  function BatchesSince(o: Origin, history: seq<Message>): seq<Batch> {
    if |o.history| <= |history| then BatchesOf(history[|o.history|..]) else []
  }

  /** What a run did with its batches. While it goes on, and when it has its answer, the executor ran exactly their
      admitted calls, in order, and they report exactly what it said; the last batch of a run that died may have come a
      part of the way. */
  predicate Worked(input: RunInput, batches: seq<Batch>, ids: seq<Id>, outcomes: seq<ToolOutcome>, well: bool) {
    && Tells(input.admits, batches, ids, outcomes)
    && (well ==> Exact(input.admits, batches, ids, outcomes))
    && Heeded(input, batches, well)
  }

  predicate Accounts(input: RunInput, o: Origin, history: seq<Message>, executed: seq<Id>, outcomes: seq<ToolOutcome>,
                     well: bool)
  {
    && o.history <= history && o.executed <= executed && o.outcomes <= outcomes
    && Worked(input, BatchesSince(o, history), executed[|o.executed|..], outcomes[|o.outcomes|..], well)
  }

  lemma OneMoreBatch(input: RunInput, batches: seq<Batch>, b: Batch)
    ensures Prints(input, batches + [b]) == Prints(input, batches) + [PrintOf(input, b)]
    ensures var fs := Prints(input, batches);
            Alarms(input.repeatLimit, fs + [PrintOf(input, b)]) ==
            Alarms(input.repeatLimit, fs) + if TailRun(fs + [PrintOf(input, b)]) >= input.repeatLimit then 1 else 0
    ensures (batches + [b])[..|batches|] == batches
  {
    assert (batches + [b])[..|batches|] == batches;
    var fs := Prints(input, batches);
    assert (fs + [PrintOf(input, b)])[..|fs|] == fs;
  }

  lemma RunBegins(input: RunInput, o: Origin, p: Progress)
    requires p.lastBatch.None? && p.batchRepeats == 0 && !p.warned
    ensures Accounts(input, o, o.history, o.executed, o.outcomes, true)
    ensures Guarded(input, p, BatchesSince(o, o.history))
  {
    assert o.history[|o.history|..] == [] && o.executed[|o.executed|..] == [] && o.outcomes[|o.outcomes|..] == [];
  }

  lemma AccountsAnyway(input: RunInput, o: Origin, history: seq<Message>, executed: seq<Id>,
                       outcomes: seq<ToolOutcome>)
    requires Accounts(input, o, history, executed, outcomes, true)
    ensures Accounts(input, o, history, executed, outcomes, false)
  {
    hide Tells, Exact, Alarms, Prints;
  }

  /** A message that is neither an answer with calls nor a result is no part of a batch. */
  lemma WordsAccount(input: RunInput, o: Origin, history: seq<Message>, m: Message, executed: seq<Id>,
                     outcomes: seq<ToolOutcome>, well: bool)
    requires Accounts(input, o, history, executed, outcomes, well) && CallsIn(m) == [] && !m.ToolResult?
    ensures Accounts(input, o, history + [m], executed, outcomes, well)
    ensures BatchesSince(o, history + [m]) == BatchesSince(o, history)
  {
    hide BatchesOf, Tells, Exact, Heeded, CallsIn;
    Longer(o.history, history, [m]);
    BatchesGrow(history[|o.history|..], m);
  }

  /** An answer with calls opens a batch. */
  lemma CallsAccount(input: RunInput, o: Origin, history: seq<Message>, m: Message, executed: seq<Id>,
                     outcomes: seq<ToolOutcome>)
    requires Accounts(input, o, history, executed, outcomes, true) && CallsIn(m) != []
    ensures Accounts(input, o, history + [m], executed, outcomes, false)
    ensures BatchesSince(o, history + [m]) == BatchesSince(o, history) + [Batch(CallsIn(m), [])]
  {
    hide BatchesOf, Tells, Exact, CallsIn, Heeded;
    Longer(o.history, history, [m]);
    BatchesGrow(history[|o.history|..], m);
    var bs := BatchesSince(o, history);
    BatchOpens(input.admits, bs, executed[|o.executed|..], outcomes[|o.outcomes|..], CallsIn(m));
    HeededNext(input, bs, Batch(CallsIn(m), []));
  }

  lemma BatchOpens(admits: ToolCall -> bool, bs: seq<Batch>, ids: seq<Id>, outcomes: seq<ToolOutcome>,
                   calls: seq<ToolCall>)
    requires Exact(admits, bs, ids, outcomes)
    ensures Tells(admits, bs + [Batch(calls, [])], ids, outcomes)
  {
    hide Exact, Tells, Part;
    NothingRan(admits, calls);
    PartAnswered(admits, calls, [], [], []);
    ExactNext(admits, bs, ids, outcomes, Batch(calls, []), [], []);
    assert ids + [] == ids && outcomes + [] == outcomes;
  }

  lemma HeededNext(input: RunInput, batches: seq<Batch>, b: Batch)
    requires Heeded(input, batches, true)
    ensures Heeded(input, batches + [b], false)
  {
    assert (batches + [b])[..|batches|] == batches;
    hide Prints, Alarms;
  }

  /** The results of the open batch, as far as they came. */
  lemma ResultsAccount(input: RunInput, o: Origin, history: seq<Message>, m: Message, executed: seq<Id>,
                       outcomes: seq<ToolOutcome>, answers: seq<Message>, ids: seq<Id>, more: seq<ToolOutcome>,
                       well: bool)
    requires Accounts(input, o, history, executed, outcomes, true) && CallsIn(m) != []
    requires Part(input.admits, CallsIn(m), answers, ids, more) && (well ==> |answers| == |CallsIn(m)|)
    requires Heeded(input, BatchesSince(o, history) + [Batch(CallsIn(m), answers)], well)
    ensures Accounts(input, o, history + [m] + answers, executed + ids, outcomes + more, well)
    ensures BatchesSince(o, history + [m] + answers) == BatchesSince(o, history) + [Batch(CallsIn(m), answers)]
  {
    hide CallsIn, Heeded, Part, Tells, Exact, BatchesSince;
    var bs, b := BatchesSince(o, history), Batch(CallsIn(m), answers);
    ResultsSince(input, o, history, m, executed, outcomes, answers, ids, more);
    Longer(o.executed, executed, ids);
    Longer(o.outcomes, outcomes, more);
    ExactNext(input.admits, bs, executed[|o.executed|..], outcomes[|o.outcomes|..], b, ids, more);
  }

  lemma Longer<T>(start: seq<T>, s: seq<T>, more: seq<T>)
    requires start <= s
    ensures start <= s + more && (s + more)[|start|..] == s[|start|..] + more
  {
  }

  lemma ResultsSince(input: RunInput, o: Origin, history: seq<Message>, m: Message, executed: seq<Id>,
                     outcomes: seq<ToolOutcome>, answers: seq<Message>, ids: seq<Id>, more: seq<ToolOutcome>)
    requires Accounts(input, o, history, executed, outcomes, true) && CallsIn(m) != []
    requires Part(input.admits, CallsIn(m), answers, ids, more)
    ensures o.history <= history + [m] + answers
    ensures BatchesSince(o, history + [m] + answers) == BatchesSince(o, history) + [Batch(CallsIn(m), answers)]
  {
    hide CallsIn, Part, Worked, BatchesOf;
    PartResults(input.admits, CallsIn(m), answers, ids, more);
    CallsAccount(input, o, history, m, executed, outcomes);
    Longer(o.history, history + [m], answers);
    BatchAnswered((history + [m])[|o.history|..], answers, BatchesSince(o, history), CallsIn(m));
  }

  lemma PartResults(admits: ToolCall -> bool, calls: seq<ToolCall>, answers: seq<Message>, ids: seq<Id>,
                    outcomes: seq<ToolOutcome>)
    requires Part(admits, calls, answers, ids, outcomes)
    ensures forall m <- answers :: m.ToolResult?
  {
    var k := |answers|;
    AnswersInOrder(admits, calls[..k], outcomes[..|Admitted(admits, calls[..k])|]);
    hide Answers, Admitted;
  }

  /** Runs the open batch and settles it. */
  method RunBatch(input: RunInput, host: Host, session: Session, ledger: Ledger, executor: Executor,
                  calls: seq<ToolCall>, p: Progress, ghost batches: seq<Batch>)
    returns (next: Option<Progress>, ghost answers: seq<Message>, ghost settled: bool)
    requires Answered(input, session, ledger, calls, p) && calls != []
    requires Once(session.task, session.entries, executor.executed)
    requires Guarded(input, p, batches)
    modifies host, session, ledger, executor
    ensures host.sent == old(host.sent)
    ensures Kept(old(session.entries), session, executor)
    ensures History(session.entries) == History(old(session.entries)) + answers
    ensures old(executor.executed) <= executor.executed && old(executor.outcomes) <= executor.outcomes
    ensures Part(input.admits, calls, answers, executor.executed[|old(executor.executed)|..],
                 executor.outcomes[|old(executor.outcomes)|..])
    ensures settled ==> |answers| == |calls|
    ensures Heeded(input, batches + [Batch(calls, answers)], next.Some?)
    ensures settled && next.None? && Guards(input) ==>
              Alarms(input.repeatLimit, Prints(input, batches + [Batch(calls, answers)])) == 2
    ensures next.Some? ==>
              && settled && Head(input, session, ledger, next.value) && next.value.remaining == p.remaining
              && next.value.messages == p.messages + answers
              && Guarded(input, next.value, batches + [Batch(calls, answers)])
  {
    hide Apply, RecoverMessage, RecoverOperation, Read, Grown, Live, BatchAt, Once, Guarded, Heeded, Prints, History,
      Part, Alarms;
    GrownStart(session, ledger);
    ghost var v := Read(session.task, session.entries).value;
    var ok, messages;
    ghost var outcomes;
    ok, messages, answers, outcomes := RunTools(calls, input.admits, session, executor, p.messages, v);
    assert executor.outcomes[|old(executor.outcomes)|..] == outcomes;
    next, settled := None, ok;
    GrownUnique(session, old(session.entries), session.entries);
    GuardHolds(input, p, batches, Batch(calls, answers));
    if !ok {
      return;
    }
    ghost var es1 := session.entries;
    var results := messages[|p.messages|..];
    assert results == answers;
    var f := PrintOf(input, Batch(calls, results));
    if input.IsLong() {
      LongUnguarded(input, batches + [Batch(calls, answers)]);
      var go := AfterBatch(input.long.value, f, host, session, ledger);
      GrownTwice(session, old(session.entries), es1, session.entries);
      OnceKept(session, es1, session.entries, executor.executed);
      if !go {
        return;
      }
      next := Some(p.(messages := messages));
      return;
    }
    next := GuardShortRun(input.repeatLimit, f, p.(messages := messages));
    StillGuarded(input, p, batches, Batch(calls, answers), next);
  }

  lemma LongUnguarded(input: RunInput, batches: seq<Batch>)
    requires !Guards(input)
    ensures Heeded(input, batches, true) && Heeded(input, batches, false)
    ensures forall p :: Guarded(input, p, batches)
  {
  }

  lemma GuardHolds(input: RunInput, p: Progress, batches: seq<Batch>, b: Batch)
    requires Guarded(input, p, batches)
    ensures Heeded(input, batches + [b], false)
  {
    assert (batches + [b])[..|batches|] == batches;
    hide Prints, Alarms, Tracks;
  }

  lemma StillGuarded(input: RunInput, p: Progress, batches: seq<Batch>, b: Batch, next: Option<Progress>)
    requires Guarded(input, p, batches)
    requires !Guards(input) ==> next.Some?
    requires var fs, f := Prints(input, batches), PrintOf(input, b);
             forall n: nat :: input.repeatLimit > 0 && Tracks(p, fs) && IsTailRun(fs + [f], n) ==>
               && (next.None? <==> p.warned && n >= input.repeatLimit)
               && (next.Some? ==>
                     && Tracks(next.value, fs + [f])
                     && (next.value.warned <==> p.warned || n >= input.repeatLimit))
    ensures Heeded(input, batches + [b], next.Some?)
    ensures next.None? ==> Alarms(input.repeatLimit, Prints(input, batches + [b])) == 2
    ensures next.Some? ==> Guarded(input, next.value, batches + [b])
  {
    OneMoreBatch(input, batches, b);
    TailRunIsTail(Prints(input, batches) + [PrintOf(input, b)]);
    hide Prints, Alarms, Tracks, IsTailRun, TailRun;
  }

  /** One turn of the loop: another turn follows, or the run is over, with an answer or without. */
  method Turn(input: RunInput, host: Host, session: Session, ledger: Ledger, executor: Executor, p: Progress,
              ghost o: Origin)
    returns (next: Option<Progress>, answer: Option<Message>)
    requires Head(input, session, ledger, p) && p.remaining > 0
    requires Once(session.task, session.entries, executor.executed)
    requires Accounts(input, o, History(session.entries), executor.executed, executor.outcomes, true)
    requires Guarded(input, p, BatchesSince(o, History(session.entries)))
    modifies host, session, ledger, executor
    ensures SentFit(input, old(host.sent), host.sent)
    ensures Kept(old(session.entries), session, executor)
    ensures Accounts(input, o, History(session.entries), executor.executed, executor.outcomes,
                     next.Some? || answer.Some?)
    ensures next.Some? ==>
              && Head(input, session, ledger, next.value) && next.value.remaining < p.remaining
              && Guarded(input, next.value, BatchesSince(o, History(session.entries)))
    ensures answer.Some? ==> next.None? && Done(input, session, answer.value)
  {
    hide Apply, RecoverMessage, RecoverOperation, Read, Grown, Live, BatchAt, Once, Head, Charged, Done, CallsOf,
      Guarded, Accounts, History, SentFit, BatchesSince, CallsIn, Part, Heeded, Measured;
    next, answer := None, None;
    AccountsAnyway(input, o, History(session.entries), executor.executed, executor.outcomes);
    var ok, q, instructions := BeforeRequest(input, host, session, ledger, p);
    OnceKept(session, old(session.entries), session.entries, executor.executed);
    if !ok {
      return;
    }
    ghost var es1, sent1, q1 := session.entries, host.sent, q;
    var message, calls;
    ok, message, calls, q := ReceiveAnswer(input, instructions, host, session, ledger, q);
    ActionFits(input, old(host.sent), sent1, host.sent, instructions, q1.messages);
    OnceKept(session, es1, session.entries, executor.executed);
    GrownTwice(session, old(session.entries), es1, session.entries);
    AnswerAccounts(input, o, History(es1), History(session.entries), message, calls, executor.executed,
                   executor.outcomes);
    if !ok {
      return;
    }
    ghost var es2 := session.entries;
    CallsAre(message, input.noTools, calls);
    if calls == [] {
      var done;
      GuardMemory(input, p, q, BatchesSince(o, History(es2)));
      next, done := FinishOrContinue(input, session, ledger, message, q);
      OnceKept(session, es2, session.entries, executor.executed);
      answer := if done then Some(message) else None;
      GuardMemory(input, q, if next.Some? then next.value else q, BatchesSince(o, History(es2)));
      Continued(input, o, History(es2), executor.executed, executor.outcomes);
      assert next.None? ==> History(session.entries) == History(es2);
    } else {
      ghost var answers, settled;
      ghost var executed, outcomes := executor.executed, executor.outcomes;
      GuardMemory(input, p, q, BatchesSince(o, History(es1)));
      next, answers, settled := RunBatch(input, host, session, ledger, executor, calls, q,
                                         BatchesSince(o, History(es1)));
      ResultsAccount(input, o, History(es1), message, executed, outcomes, answers,
                     executor.executed[|executed|..], executor.outcomes[|outcomes|..], next.Some?);
      assert executed + executor.executed[|executed|..] == executor.executed;
      assert outcomes + executor.outcomes[|outcomes|..] == executor.outcomes;
    }
    GrownTwice(session, old(session.entries), es2, session.entries);
  }

  /** The guard remembers nothing but these three fields. */
  lemma GuardMemory(input: RunInput, p: Progress, q: Progress, batches: seq<Batch>)
    requires Guarded(input, p, batches)
    requires p.lastBatch == q.lastBatch && p.batchRepeats == q.batchRepeats && p.warned == q.warned
    ensures Guarded(input, q, batches)
  {
  }

  lemma CallsAre(message: Message, noTools: bool, calls: seq<ToolCall>)
    requires CallsOf(message, noTools) == Some(calls)
    ensures CallsIn(message) == calls && !message.ToolResult?
  {
  }

  /** The answer of a turn, if it was stored. */
  lemma AnswerAccounts(input: RunInput, o: Origin, before: seq<Message>, after: seq<Message>, message: Message,
                       calls: seq<ToolCall>, executed: seq<Id>, outcomes: seq<ToolOutcome>)
    requires Accounts(input, o, before, executed, outcomes, true)
    requires after == before || (CallsOf(message, input.noTools) == Some(calls) && after == before + [message])
    ensures Accounts(input, o, after, executed, outcomes, false)
    ensures calls == [] ==>
              && Accounts(input, o, after, executed, outcomes, true)
              && BatchesSince(o, after) == BatchesSince(o, before)
  {
    AccountsAnyway(input, o, before, executed, outcomes);
    if after != before {
      CallsAre(message, input.noTools, calls);
      hide Accounts, CallsIn, CallsOf, BatchesSince;
      if calls == [] {
        WordsAccount(input, o, before, message, executed, outcomes, true);
        AccountsAnyway(input, o, after, executed, outcomes);
      } else {
        CallsAccount(input, o, before, message, executed, outcomes);
      }
    }
  }

  /** A continuation notice is no part of a batch. */
  lemma Continued(input: RunInput, o: Origin, history: seq<Message>, executed: seq<Id>, outcomes: seq<ToolOutcome>)
    requires Accounts(input, o, history, executed, outcomes, true)
    ensures Accounts(input, o, history, executed, outcomes, false)
    ensures Accounts(input, o, history + [CONTINUE], executed, outcomes, true)
    ensures BatchesSince(o, history + [CONTINUE]) == BatchesSince(o, history)
  {
    AccountsAnyway(input, o, history, executed, outcomes);
    WordsAccount(input, o, history, CONTINUE, executed, outcomes, true);
  }

  lemma ActionFits(input: RunInput, sent0: seq<Request>, sent1: seq<Request>, sent2: seq<Request>,
                   instructions: Instructions, messages: seq<Message>)
    requires SentFit(input, sent0, sent1) && Measured(input, instructions, messages)
    requires sent2 in {sent1, sent1 + [ForAction(instructions, messages)]}
    ensures SentFit(input, sent0, sent2)
  {
  }

  predicate Blank(t: Text) { forall c <- t :: IsWhite(c) }

  /** The checks on the invocation itself, before the journal is touched. */
  predicate ValidInput(input: RunInput) {
    && 1 <= input.maxTurns <= 128
    && ((input.IsLong() && input.long.value.resume) || !Blank(input.prompt))
    && TextBytes(input.prompt) <= CONTEXT_LIMIT
    && (input.IsLong() ==>
          && input.long.value.limits.Valid()
          && (input.long.value.followUp ==> input.long.value.resume && !Blank(input.prompt)))
  }

  /** How an invocation may treat the task it finds: None refuses it, otherwise whether to create a new one. */
  function Admission(input: RunInput, l: Snapshot): (create: Option<bool>)
    ensures create == Some(true) ==>
              input.IsLong() && !input.long.value.resume && (l.limits.None? || l.Terminal())
    ensures create == Some(false) && input.IsLong() ==>
              && input.long.value.resume && l.limits == Some(input.long.value.limits)
              && (l.state == NoTask || l.ResumeAllowed())
    ensures create == Some(false) && !input.IsLong() ==> l.limits.None? || l.Terminal()
  {
    if input.IsLong() then
      var long := input.long.value;
      if l.limits.Some? then
        if long.resume then
          if l.limits != Some(long.limits) || !(l.state == NoTask || l.ResumeAllowed())
             || !(long.followUp || Blank(input.prompt))
          then None else Some(false)
        else if !l.Terminal() || Blank(input.prompt) then None
        else Some(true)
      else if long.resume then None
      else Some(true)
    else if l.limits.Some? && !l.Terminal() then None
    else Some(false)
  }

  /** Stores the prompt of this run as a user message. */
  method StorePrompt(prompt: Text, session: Session, ledger: Ledger) returns (id: Option<Id>)
    requires Synced(session, ledger) && ScanOf(session).recovery.Complete()
    modifies session
    ensures Grown(session, old(session.entries), session.entries)
    ensures History(session.entries)
            in {History(old(session.entries)), History(old(session.entries)) + [User(Plain(prompt), false)]}
    ensures id.Some? ==>
              && History(session.entries) == History(old(session.entries)) + [User(Plain(prompt), false)]
              && Synced(session, ledger)
              && Appended(old(session.entries), session.entries, MessageBody(User(Plain(prompt), false)))
              && ScanOf(session).recovery == old(ScanOf(session).recovery)
              && ScanOf(session).messages == old(ScanOf(session).messages) + [User(Plain(prompt), false)]
              && ScanOf(session).last.Some? && ScanOf(session).last.value.IsUser()
              && ScanOf(session).last.value.id == id.value && id.value != EMPTY
  {
    hide Apply, RecoverOperation, History;
    GrownStart(session, ledger);
    ghost var v := Read(session.task, session.entries).value;
    id := session.Append(MessageBody(User(Plain(prompt), false)));
    if id.Some? {
      MessageGrown(session, old(session.entries), session.entries, v, User(Plain(prompt), false));
    }
    var crashed: bool := *;
    if crashed {
      id := None;
    }
  }

  /** Creates the task right behind its prompt and rebuilds the ledger from the journal. */
  method CreateTask(limits: Limits, userEntryId: Id, session: Session, ledger0: Ledger)
    returns (ok: bool, ledger: Ledger)
    requires Synced(session, ledger0) && ScanOf(session).recovery.Complete() && limits.Valid()
    requires ledger0.fields.limits.None? || ledger0.fields.Terminal()
    requires ScanOf(session).last.Some? && ScanOf(session).last.value.IsUser()
    requires ScanOf(session).last.value.id == userEntryId && userEntryId != EMPTY
    modifies session
    ensures Still(session, old(session.entries), session.entries)
    ensures fresh(ledger)
    ensures ok ==>
              && Synced(session, ledger) && ledger.pendingResponse.None?
              && SameContext(old(ScanOf(session)), ScanOf(session))
              && ledger.fields.limits == Some(limits) && ledger.fields.state == Ready
              && ledger.fields.requests == 0
  {
    hide History, Records, Added;
    GrownStart(session, ledger0);
    ok := false;
    ledger := new Ledger();
    ghost var v := Read(session.task, session.entries).value;
    ReadLast(session.task, session.entries);
    var r := Created(session.task, userEntryId, limits);
    ghost var t := Apply(v.ledger, r, Some(session.task)).value;
    CreationStarts(v.ledger, r, session.task);
    hide Apply, RecoverMessage, RecoverOperation, Step;
    var landed := session.RecordLongTask(r);
    if !landed {
      return;
    }
    TaskGrown(session, old(session.entries), session.entries, v, r, t);
    ReadIsAccepted(session.task, session.entries);
    ok, ledger := FromRecords(Records(session.entries), Some(session.task));
  }

  lemma CreationStarts(s: Snapshot, r: Record, task: Id)
    requires Consistent(s) && r.Created? && r.taskId == task && r.userEntryId != EMPTY && r.limits.Valid()
    requires s.limits.None? || s.Terminal()
    ensures Apply(s, r, Some(task)).Some?
    ensures var t := Apply(s, r, Some(task)).value;
            Advanced(task, s, t, r) && t.state == Ready && t.requests == 0 && t.limits == Some(r.limits)
  {
  }

  datatype RunEnd = Refused | Stopped | Finished(answer: Message)

  /** The invocation is sound, the journal is readable with nothing in flight, and its task may be continued,
      replaced or ignored by this run. */
  predicate Admissible(input: RunInput, task: Id, es: seq<Entry>) {
    && ValidInput(input)
    && Accepted(task, es) && ScanAll(es).value.recovery.Complete()
    && Admission(input, Replay(Records(es), Some(task)).value).Some?
  }

  predicate BareResume(input: RunInput) {
    input.IsLong() && input.long.value.resume && !input.long.value.followUp
  }

  /** A run that came to an answer has stored its prompt first, unless it only resumed a task. */
  ghost predicate Delivered(input: RunInput, es: seq<Entry>, session: Session, answer: Message)
    reads session
  {
    && Done(input, session, answer)
    && (!BareResume(input) ==>
          |session.entries| > |es| && session.entries[|es|].body == MessageBody(User(Plain(input.prompt), false)))
  }

  /** One run, from the invocation to its end or its death at any point. It is refused exactly when it is not
      admissible, be it because the reader rejects the journal, and then it has no effect at all. The batches that the
      entries of the run hold tell what the executor did, and no batch followed a second alarm of the guard. */
  method Run(input: RunInput, host: Host, session: Session, executor: Executor) returns (end: RunEnd)
    requires UniqueIds(session.entries)
    requires Read(session.task, session.entries).Some? ==> Once(session.task, session.entries, executor.executed)
    requires session.longOnly ==> input.IsLong()
    modifies host, session, executor
    ensures Read(session.task, old(session.entries)).Some? ==> Kept(old(session.entries), session, executor)
    ensures end.Refused? <==> !Admissible(input, session.task, old(session.entries))
    ensures end.Refused? ==>
              && session.entries == old(session.entries) && executor.executed == old(executor.executed)
              && host.sent == old(host.sent)
    ensures end.Finished? ==> Delivered(input, old(session.entries), session, end.answer)
    ensures SentFit(input, old(host.sent), host.sent)
    ensures old(session.entries) <= session.entries
    ensures old(executor.executed) <= executor.executed && old(executor.outcomes) <= executor.outcomes
    ensures Worked(input, BatchesOf(History(session.entries[|old(session.entries)|..])),
                   executor.executed[|old(executor.executed)|..], executor.outcomes[|old(executor.outcomes)|..],
                   end.Finished?)
  {
    hide Apply, RecoverMessage, RecoverOperation, Live, Once, Step, ValidInput, Admission, Delivered, Worked, Accounts,
      History, SentFit, BatchesOf;
    ReadIsAccepted(session.task, session.entries);
    if Read(session.task, session.entries).Some? {
      GrownSelf(session, session.entries);
    }
    NothingSent(input, host.sent);
    ghost var o := Origin(History(session.entries), executor.executed, executor.outcomes);
    NoWork(input, session.entries, executor.executed, executor.outcomes);
    end := Refused;
    if !ValidInput(input) {
      return;
    }
    var settled := session.CheckRecovery();
    if !settled {
      return;
    }
    var replayed, ledger := FromRecords(Records(session.entries), Some(session.task));
    assert replayed;
    var create := Admission(input, ledger.fields);
    if create.None? {
      return;
    }
    var ids := session.ToolCallIds();
    var messages := session.Messages();
    var p := Progress(messages.value, ids.value, 0, 0, None, 0, false);
    var answer := Start(input, create.value, host, session, ledger, executor, p);
    end := if answer.Some? then Finished(answer.value) else Stopped;
    RunAccounts(input, o, old(session.entries), session.entries, executor.executed, executor.outcomes, answer.Some?);
  }

  lemma {:induction false} HistoryJoin(a: seq<Entry>, b: seq<Entry>)
    ensures History(a + b) == History(a) + History(b)
    decreases |b|
  {
    if b == [] {
      assert a + b == a;
    } else {
      var init, last := b[..|b| - 1], b[|b| - 1];
      HistoryJoin(a, init);
      assert a + b == (a + init) + [last];
      assert (a + b)[..|a + b| - 1] == a + init;
    }
  }

  /** What a run journaled is what its entries hold. */
  lemma RunAccounts(input: RunInput, o: Origin, es: seq<Entry>, es2: seq<Entry>, executed: seq<Id>,
                    outcomes: seq<ToolOutcome>, well: bool)
    requires o.history == History(es) && es <= es2
    requires Accounts(input, o, History(es2), executed, outcomes, well)
    ensures o.executed <= executed && o.outcomes <= outcomes
    ensures Worked(input, BatchesOf(History(es2[|es|..])), executed[|o.executed|..], outcomes[|o.outcomes|..], well)
  {
    HistoryJoin(es, es2[|es|..]);
    assert es + es2[|es|..] == es2;
    assert History(es2)[|History(es)|..] == History(es2[|es|..]);
    hide Worked, History, BatchesOf;
  }

  lemma NoWork(input: RunInput, es: seq<Entry>, executed: seq<Id>, outcomes: seq<ToolOutcome>)
    ensures Worked(input, BatchesOf(History(es[|es|..])), executed[|executed|..], outcomes[|outcomes|..], false)
  {
    assert es[|es|..] == [] && executed[|executed|..] == [] && outcomes[|outcomes|..] == [];
  }

  /** The admitted run: prompt, creation, handshake pause, then the loop. */
  method Start(input: RunInput, create: bool, host: Host, session: Session, ledger0: Ledger, executor: Executor,
               p0: Progress)
    returns (answer: Option<Message>)
    requires p0.lastBatch.None? && p0.batchRepeats == 0 && !p0.warned
    requires ValidInput(input) && Synced(session, ledger0) && ledger0.pendingResponse.None?
    requires Admission(input, ledger0.fields) == Some(create)
    requires ScanOf(session).recovery.Complete()
    requires p0.messages == ScanOf(session).messages && p0.ids == ScanOf(session).recovery.calls.Keys
    requires Once(session.task, session.entries, executor.executed)
    requires session.longOnly ==> input.IsLong()
    modifies host, session, ledger0, executor
    ensures SentFit(input, old(host.sent), host.sent)
    ensures Kept(old(session.entries), session, executor)
    ensures answer.Some? ==> Delivered(input, old(session.entries), session, answer.value)
    ensures Accounts(input, Origin(old(History(session.entries)), old(executor.executed), old(executor.outcomes)),
                     History(session.entries), executor.executed, executor.outcomes, answer.Some?)
  {
    hide Apply, RecoverMessage, RecoverOperation, Live, Once, Read, Blank, Done, Accounts, Guarded, History, SentFit,
      BatchesSince, Admission, PausedNow, Step;
    var ledger, p := ledger0, p0;
    ghost var es0 := session.entries;
    ghost var o := Origin(History(session.entries), executor.executed, executor.outcomes);
    answer := None;
    NothingSent(input, host.sent);
    RunBegins(input, o, p0);
    PromptAccounts(input, o, p0, input.prompt);
    GrownStart(session, ledger);
    LedgerConsistent(session, ledger);
    AdmittedState(input, create, ledger.fields);
    if !BareResume(input) {
      var id := StorePrompt(input.prompt, session, ledger);
      OnceKept(session, es0, session.entries, executor.executed);
      if id.None? {
        return;
      }
      p := p.(messages := p.messages + [User(Plain(input.prompt), false)]);
      if create {
        ghost var es1 := session.entries;
        var created;
        created, ledger := CreateTask(input.long.value.limits, id.value, session, ledger);
        GrownTwice(session, es0, es1, session.entries);
        OnceKept(session, es0, session.entries, executor.executed);
        if !created {
          return;
        }
      }
    }
    ghost var es2 := session.entries;
    if input.IsLong() {
      var stop := PauseIfRequested(session, ledger);
      GrownTwice(session, es0, es2, session.entries);
      OnceKept(session, es0, session.entries, executor.executed);
      if stop {
        return;
      }
    }
    var budget := if input.IsLong() then input.long.value.limits.maxRequests - ledger.fields.requests
                  else input.maxTurns;
    p := p.(remaining := budget);
    GuardMemory(input, p0, p, BatchesSince(o, History(session.entries)));
    answer := Loop(input, host, session, ledger, executor, p, es0, es2, o);
  }

  /** Before the loop a run has journaled its prompt at most. */
  lemma PromptAccounts(input: RunInput, o: Origin, p: Progress, prompt: Text)
    requires Accounts(input, o, o.history, o.executed, o.outcomes, true)
    requires Guarded(input, p, BatchesSince(o, o.history))
    ensures forall history :: history in {o.history, o.history + [User(Plain(prompt), false)]} ==>
              && Accounts(input, o, history, o.executed, o.outcomes, true)
              && Accounts(input, o, history, o.executed, o.outcomes, false)
              && Guarded(input, p, BatchesSince(o, history))
  {
    var said := o.history + [User(Plain(prompt), false)];
    WordsAccount(input, o, o.history, User(Plain(prompt), false), o.executed, o.outcomes, true);
    AccountsAnyway(input, o, o.history, o.executed, o.outcomes);
    AccountsAnyway(input, o, said, o.executed, o.outcomes);
    hide Accounts, Guarded, BatchesSince;
  }

  lemma LedgerConsistent(session: Session, ledger: Ledger)
    requires Synced(session, ledger)
    ensures Consistent(ledger.fields)
  {
    ReadLast(session.task, session.entries);
  }

  lemma AdmittedState(input: RunInput, create: bool, s: Snapshot)
    requires Consistent(s) && Admission(input, s) == Some(create)
    ensures !create && input.IsLong() ==>
              && s.limits == Some(input.long.value.limits) && Resting(s)
              && s.requests <= input.long.value.limits.maxRequests
    ensures !input.IsLong() ==> s.state in {NoTask, Completed, Failed}
  {
  }

  /** The request loop. It ends: every turn that comes back has used up part of the budget. */
  method Loop(input: RunInput, host: Host, session: Session, ledger: Ledger, executor: Executor, p0: Progress,
              ghost es0: seq<Entry>, ghost es2: seq<Entry>, ghost o: Origin)
    returns (answer: Option<Message>)
    requires Head(input, session, ledger, p0)
    requires Once(session.task, session.entries, executor.executed)
    requires Grown(session, es0, session.entries) && es2 <= session.entries
    requires Accounts(input, o, History(session.entries), executor.executed, executor.outcomes, true)
    requires Guarded(input, p0, BatchesSince(o, History(session.entries)))
    modifies host, session, ledger, executor
    ensures SentFit(input, old(host.sent), host.sent)
    ensures Kept(es0, session, executor)
    ensures es2 <= session.entries
    ensures answer.Some? ==> Done(input, session, answer.value)
    ensures Accounts(input, o, History(session.entries), executor.executed, executor.outcomes, answer.Some?)
  {
    hide Apply, RecoverMessage, RecoverOperation, Live, Once, Read, Done, Guarded, Accounts, History, SentFit,
      BatchesSince;
    var p := p0;
    answer := None;
    NothingSent(input, host.sent);
    while p.remaining > 0
      invariant Head(input, session, ledger, p)
      invariant Once(session.task, session.entries, executor.executed)
      invariant Grown(session, es0, session.entries) && es2 <= session.entries
      invariant Accounts(input, o, History(session.entries), executor.executed, executor.outcomes, true)
      invariant Guarded(input, p, BatchesSince(o, History(session.entries)))
      invariant SentFit(input, old(host.sent), host.sent)
      decreases p.remaining
    {
      ghost var es, sent := session.entries, host.sent;
      var next;
      next, answer := Turn(input, host, session, ledger, executor, p, o);
      GrownTwice(session, es0, es, session.entries);
      SentTwice(input, old(host.sent), sent, host.sent);
      if next.None? {
        return;
      }
      p := next.value;
    }
    answer := None;
    AccountsAnyway(input, o, History(session.entries), executor.executed, executor.outcomes);
    if input.IsLong() && ledger.fields.state == Ready {
      ghost var es := session.entries;
      PauseTask(session, ledger, RequestBudgetReached);
      GrownTwice(session, es0, es, session.entries);
      OnceKept(session, es, session.entries, executor.executed);
    }
  }

  predicate OnlyLong(inputs: seq<RunInput>) {
    forall i :: 0 <= i < |inputs| ==> inputs[i].IsLong()
  }

  /** Any number of runs on one new journal, each ending or dying anywhere. At every point the journal had been left,
      the reader accepts it; if its ledger allows a resume then every call is settled; a call is open only while the
      ledger is pending or after its last record; and if all runs were long ones, only while it is pending; and the
      task kept its budgets. Over all runs no tool call was executed twice, nor without the durable start that blocks a
      replay. */
  method Lifetime(task: Id, inputs: seq<RunInput>) returns (session: Session, executor: Executor)
    ensures session.task == task
    ensures forall k :: 0 <= k <= |session.entries| ==>
              Safe(task, session.entries[..k]) && Accounted(task, session.entries[..k])
    ensures OnlyLong(inputs) ==>
              forall k :: 0 <= k <= |session.entries| ==>
                Read(task, session.entries[..k]).Some? && Quiet(Read(task, session.entries[..k]).value)
    ensures Live(OnlyLong(inputs), task, session.entries) && UniqueIds(session.entries)
    ensures Once(task, session.entries, executor.executed)
    ensures forall k :: 0 <= k <= |session.entries| ==> Frugal(task, session.entries[..k])
  {
    session := new Session(task, OnlyLong(inputs));
    executor := new Executor();
    var host := new Host();
    for i := 0 to |inputs|
      invariant session.task == task && session.longOnly == OnlyLong(inputs)
      invariant fresh(session) && fresh(executor) && fresh(host)
      invariant Live(OnlyLong(inputs), task, session.entries) && UniqueIds(session.entries)
      invariant Once(task, session.entries, executor.executed)
    {
      var end := Run(inputs[i], host, session, executor);
    }
    EveryPrefixIsSafe(OnlyLong(inputs), task, session.entries);
  }

  lemma EveryPrefixIsSafe(longOnly: bool, task: Id, es: seq<Entry>)
    requires Live(longOnly, task, es)
    ensures forall k :: 0 <= k <= |es| ==> Safe(task, es[..k]) && Accounted(task, es[..k])
    ensures longOnly ==>
              forall k :: 0 <= k <= |es| ==> Read(task, es[..k]).Some? && Quiet(Read(task, es[..k]).value)
    ensures forall k :: 0 <= k <= |es| ==> Frugal(task, es[..k])
  {
    forall k | 0 <= k <= |es|
      ensures Safe(task, es[..k]) && Accounted(task, es[..k])
      ensures Read(task, es[..k]).Some? && (longOnly ==> Quiet(Read(task, es[..k]).value))
      ensures Frugal(task, es[..k])
    {
      LivePrefixes(longOnly, task, es, k);
      LiveIsFrugal(longOnly, task, es[..k]);
      CrashPrefixIsSafe(longOnly, task, es, k);
    }
  }

  /** What that means for one call id. */
  lemma ExecutedAtMostOnce(task: Id, es: seq<Entry>, executed: seq<Id>, id: Id)
    requires Once(task, es, executed) && id in executed
    ensures multiset(executed)[id] == 1
    ensures id in Read(task, es).value.scan.recovery.calls
    ensures Read(task, es).value.scan.recovery.Complete() ==>
              id in Read(task, es).value.scan.recovery.settled && id in Read(task, es).value.scan.recovery.results
  {
    ReadLast(task, es);
    CountOfNoDup(executed, id);
  }

  lemma {:induction false} CountOfNoDup(s: seq<Id>, id: Id)
    requires NoDup(s)
    ensures multiset(s)[id] == if id in s then 1 else 0
  {
    if s != [] {
      var init, last := s[..|s| - 1], s[|s| - 1];
      CountOfNoDup(init, id);
      assert s == init + [last];
      forall k | 0 <= k < |init| ensures init[k] != last {
        assert s[k] != s[|s| - 1];
      }
    }
  }
}
