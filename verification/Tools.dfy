/** Tool dispatch: a durable start before every effect, a durable result and settlement after it. */
module Tools {
  import opened Common
  import opened LongTask
  import opened Messages
  import opened Journal
  import opened JournalHistory
  import opened Durable
  import opened Gate

  datatype ToolOutcome = ToolOutcome(output: Text, isError: bool)

  /** The executor. Of its effects this keeps the calls it was made to execute and what it answered. */
  class Executor {
    ghost var executed: seq<Id>
    ghost var outcomes: seq<ToolOutcome>

    constructor ()
      ensures executed == [] && outcomes == []
    {
      executed, outcomes := [], [];
    }

    method Execute(call: ToolCall) returns (outcome: ToolOutcome)
      modifies this
      ensures executed == old(executed) + [call.id] && outcomes == old(outcomes) + [outcome]
    {
      var output: Text := *;
      var isError: bool := *;
      outcome := ToolOutcome(output, isError);
      executed, outcomes := executed + [call.id], outcomes + [outcome];
    }
  }

  const REFUSAL := ToolOutcome("tool call refused by policy", true)

  /** No call was executed twice, and every executed call carries a durable mark in the journal. */
  ghost predicate Once(task: Id, es: seq<Entry>, executed: seq<Id>) {
    && Read(task, es).Some?
    && NoDup(executed)
    && forall id <- executed :: id in Marked(Read(task, es).value.scan.recovery)
  }

  lemma OnceKept(session: Session, es: seq<Entry>, es2: seq<Entry>, executed: seq<Id>)
    requires Once(session.task, es, executed) && Grown(session, es, es2)
    ensures Once(session.task, es2, executed)
  {
  }

  lemma MessageGrown(session: Session, es: seq<Entry>, es2: seq<Entry>, v: View, m: Message)
    requires Read(session.task, es) == Some(v) && UniqueIds(es) && Appended(es, es2, MessageBody(m))
    requires RecoverMessage(v.scan.recovery, m).Some?
    requires m.ToolResult? && m.callId.Some? ==> m.callId.value in v.scan.recovery.started
    requires m.Assistant? ==> Active(session.longOnly, v.ledger)
    ensures Grown(session, es, es2)
    ensures Read(session.task, es2) ==
            Some(View(Scan(Some(es2[|es|]), v.scan.messages + [m],
                           if m.IsUserRole() then Some(es2[|es|].id) else v.scan.latestUser,
                           RecoverMessage(v.scan.recovery, m).value), v.ledger))
    ensures History(es2) == History(es) + [m]
  {
    AppendedOne(es, es2, MessageBody(m));
    hide RecoverOperation, Apply, History;
    AppendReads(session.longOnly, session.task, es, es2[|es|], v);
    ReadLast(session.task, es);
    MessageMarks(v.scan.recovery, m);
    hide RecoverMessage;
  }

  lemma MessageMarks(r: Recovery, m: Message)
    requires RecoverMessage(r, m).Some?
    ensures RecoverMessage(r, m).value.started == r.started && RecoverMessage(r, m).value.settled == r.settled
    ensures RecoverMessage(r, m).value.results ==
            r.results + if m.ToolResult? && m.callId.Some? then {m.callId.value} else {}
  {
  }

  lemma OperationGrown(session: Session, es: seq<Entry>, es2: seq<Entry>, v: View, id: Id, operation: Operation)
    requires Read(session.task, es) == Some(v) && UniqueIds(es) && Appended(es, es2, OperationBody(Some(id), operation))
    requires RecoverOperation(v.scan.recovery, Some(id), operation).Some?
    requires Active(session.longOnly, v.ledger)
    ensures Grown(session, es, es2)
    ensures Read(session.task, es2) ==
            Some(View(v.scan.(last := Some(es2[|es|]),
                              recovery := RecoverOperation(v.scan.recovery, Some(id), operation).value), v.ledger))
    ensures History(es2) == History(es)
  {
    AppendedOne(es, es2, OperationBody(Some(id), operation));
    hide RecoverMessage, Apply, History;
    AppendReads(session.longOnly, session.task, es, es2[|es|], v);
    ReadLast(session.task, es);
    OperationMarks(v.scan.recovery, id, operation);
    hide RecoverOperation;
  }

  lemma OperationMarks(r: Recovery, id: Id, operation: Operation)
    requires RecoverOperation(r, Some(id), operation).Some?
    ensures Marked(r) <= Marked(RecoverOperation(r, Some(id), operation).value)
    ensures RecoverOperation(r, Some(id), operation).value.results == r.results
  {
  }

  /** Calls i and later of a batch are journaled and untouched; every other call has its result. */
  ghost predicate BatchAt(r: Recovery, calls: seq<ToolCall>, i: nat) {
    && Tidy(r) && r.started == {} && i <= |calls|
    && FreshCalls({}, calls)
    && (forall j :: i <= j < |calls| ==>
          && calls[j].id in r.calls && r.calls[calls[j].id] == calls[j].name
          && calls[j].id !in r.results)
    && (forall id <- r.calls :: id in r.results || exists j :: i <= j < |calls| && calls[j].id == id)
  }

  lemma BatchStarts(r: Recovery, m: Message)
    requires Tidy(r) && r.Complete() && m.Assistant? && ReadableBlocks(m.blocks) && ToolCalls(m.blocks).Some?
    requires FreshCalls(r.calls.Keys, ToolCalls(m.blocks).value)
    ensures RecoverMessage(r, m).Some?
    ensures BatchAt(RecoverMessage(r, m).value, ToolCalls(m.blocks).value, 0)
    ensures RecoverMessage(r, m).value.calls.Keys == r.calls.Keys + Ids(ToolCalls(m.blocks).value)
    ensures ToolCalls(m.blocks).value == [] ==> RecoverMessage(r, m).value == r
  {
    InsertCallsExact(r.calls, ToolCalls(m.blocks).value);
  }

  /** Storing an answer whose calls passed the id check leaves a readable journal if and only if every block is text
      or a tool call. The id check itself does not look at the other block types. */
  lemma AnswerReadableIff(r: Recovery, m: Message)
    requires m.Assistant? && ToolCalls(m.blocks).Some?
    requires FreshCalls(r.calls.Keys, ToolCalls(m.blocks).value)
    ensures RecoverMessage(r, m).Some? <==> forall b <- m.blocks :: b.Words? || b.Call?
  {
    InsertCallsExact(r.calls, ToolCalls(m.blocks).value);
    NoBadCalls(m.blocks);
  }

  lemma {:induction false} NoBadCalls(blocks: seq<Block>)
    requires ToolCalls(blocks).Some?
    ensures BadCall !in blocks
  {
    if blocks != [] {
      NoBadCalls(blocks[1..]);
    }
  }

  lemma BatchAdvances(r: Recovery, calls: seq<ToolCall>, i: nat)
    requires BatchAt(r, calls, i) && i < |calls|
    ensures BatchAt(r.(results := r.results + {calls[i].id}, settled := r.settled + {calls[i].id}), calls, i + 1)
  {
  }

  lemma BatchEnds(r: Recovery, calls: seq<ToolCall>)
    requires BatchAt(r, calls, |calls|)
    ensures r.Complete()
  {
  }

  /** The three recovery steps of one call that runs to its end. */
  lemma ToolSteps(r: Recovery, call: ToolCall, result: Message)
    requires Tidy(r) && r.started == {} && call.id in r.calls && r.calls[call.id] == call.name
    requires call.id !in r.results
    requires result.ToolResult? && result.callId == Some(call.id) && result.toolName == Some(call.name)
    requires result.content.Readable()
    ensures call.id !in Marked(r)
    ensures var a := r.(started := {call.id});
            var b := a.(results := r.results + {call.id});
            && RecoverOperation(r, Some(call.id), Started) == Some(a)
            && RecoverMessage(a, result) == Some(b)
            && RecoverOperation(b, Some(call.id), Settled) ==
               Some(r.(results := r.results + {call.id}, settled := r.settled + {call.id}))
  {
    assert r.started + {call.id} == {call.id};
    assert {call.id} - {call.id} == {};
  }

  /** The tool result that reports an outcome of a call. */
  function ResultOf(call: ToolCall, outcome: ToolOutcome): Message {
    ToolResult(Some(call.id), Some(call.name), Blocks([TextBlock(outcome.output)]), Some(outcome.isError))
  }

  /** The ids of the calls that policy admits, in order. */
  function Admitted(admits: ToolCall -> bool, calls: seq<ToolCall>): seq<Id> {
    if calls == [] then []
    else
      var last := calls[|calls| - 1];
      Admitted(admits, calls[..|calls| - 1]) + if admits(last) then [last.id] else []
  }

  /** The answers to a batch, given what the executor answered to its admitted calls. */
  function Answers(admits: ToolCall -> bool, calls: seq<ToolCall>, outcomes: seq<ToolOutcome>): seq<Message>
    requires |outcomes| == |Admitted(admits, calls)|
  {
    if calls == [] then []
    else
      var init, last := calls[..|calls| - 1], calls[|calls| - 1];
      if admits(last)
      then Answers(admits, init, outcomes[..|outcomes| - 1]) + [ResultOf(last, outcomes[|outcomes| - 1])]
      else Answers(admits, init, outcomes) + [ResultOf(last, REFUSAL)]
  }

  /** One call: admission, start marker, effect, result, settlement. The run may end after any of them. An admitted
      call is executed once and answered with what the executor said; a refused one is never executed. */
  method RunTool(call: ToolCall, admits: ToolCall -> bool, session: Session, executor: Executor, ghost v: View)
    returns (ok: bool, result: Message, ghost answered: bool)
    requires UniqueIds(session.entries) && Read(session.task, session.entries) == Some(v)
    requires Once(session.task, session.entries, executor.executed) && Active(session.longOnly, v.ledger)
    requires Tidy(v.scan.recovery) && v.scan.recovery.started == {}
    requires call.id in v.scan.recovery.calls && v.scan.recovery.calls[call.id] == call.name
    requires call.id !in v.scan.recovery.results
    modifies session, executor
    ensures Grown(session, old(session.entries), session.entries)
    ensures Once(session.task, session.entries, executor.executed)
    ensures History(session.entries) == History(old(session.entries)) + if answered then [result] else []
    ensures || (executor.executed == old(executor.executed) && executor.outcomes == old(executor.outcomes))
            || (&& admits(call) && executor.executed == old(executor.executed) + [call.id]
                && |executor.outcomes| == |old(executor.outcomes)| + 1 && old(executor.outcomes) <= executor.outcomes)
    ensures answered && admits(call) ==>
              && executor.executed == old(executor.executed) + [call.id]
              && executor.outcomes != []
              && result == ResultOf(call, executor.outcomes[|executor.outcomes| - 1])
    ensures answered && !admits(call) ==> result == ResultOf(call, REFUSAL)
    ensures ok ==> answered
    ensures ok ==>
              && session.entries != []
              && Read(session.task, session.entries) ==
                 Some(View(Scan(Some(session.entries[|session.entries| - 1]), v.scan.messages + [result],
                                v.scan.latestUser,
                                v.scan.recovery.(results := v.scan.recovery.results + {call.id},
                                                 settled := v.scan.recovery.settled + {call.id})), v.ledger))
  {
    hide Apply, RecoverMessage, RecoverOperation, Live, Read, History;
    var task := session.task;
    var r := v.scan.recovery;
    result := ResultOf(call, REFUSAL);
    ok, answered := false, false;
    ToolSteps(r, call, result);
    GrownSelf(session, session.entries);
    var refused := !admits(call);
    var landed := session.Append(OperationBody(Some(call.id), Started));
    if landed.None? {
      return;
    }
    ghost var es1 := session.entries;
    OperationGrown(session, old(session.entries), es1, v, call.id, Started);
    OnceKept(session, old(session.entries), es1, executor.executed);
    ghost var v1 := Read(task, es1).value;
    var crashed: bool := *;
    if crashed {
      return;
    }
    var outcome := REFUSAL;
    if !refused {
      outcome := executor.Execute(call);
      NoDupSnoc(old(executor.executed), call.id);
    }
    assert Once(task, es1, executor.executed);
    result := ResultOf(call, outcome);
    ToolSteps(r, call, result);
    landed := session.Append(MessageBody(result));
    if landed.None? {
      return;
    }
    ghost var es2 := session.entries;
    answered := true;
    MessageGrown(session, es1, es2, v1, result);
    OnceKept(session, es1, es2, executor.executed);
    ghost var v2 := Read(task, es2).value;
    GrownTwice(session, old(session.entries), es1, es2);
    landed := session.Append(OperationBody(Some(call.id), Settled));
    if landed.None? {
      return;
    }
    OperationGrown(session, es2, session.entries, v2, call.id, Settled);
    OnceKept(session, es2, session.entries, executor.executed);
    GrownTwice(session, old(session.entries), es2, session.entries);
    crashed := *;
    ok := !crashed;
  }

  lemma AnswersSnoc(admits: ToolCall -> bool, calls: seq<ToolCall>, call: ToolCall, outcomes: seq<ToolOutcome>,
                    more: seq<ToolOutcome>)
    requires |outcomes| == |Admitted(admits, calls)| && |more| == if admits(call) then 1 else 0
    ensures Admitted(admits, calls + [call]) == Admitted(admits, calls) + if admits(call) then [call.id] else []
    ensures Answers(admits, calls + [call], outcomes + more) ==
            Answers(admits, calls, outcomes) + [ResultOf(call, if admits(call) then more[0] else REFUSAL)]
  {
    assert (calls + [call])[..|calls|] == calls;
    if admits(call) {
      assert (outcomes + more)[..|outcomes|] == outcomes;
    } else {
      assert outcomes + more == outcomes;
    }
  }

  /** Whatever was admitted, every call gets one answer, and the answers come in call order. */
  lemma {:induction false} AnswersInOrder(admits: ToolCall -> bool, calls: seq<ToolCall>, outcomes: seq<ToolOutcome>)
    requires |outcomes| == |Admitted(admits, calls)|
    ensures var answers := Answers(admits, calls, outcomes);
            && |answers| == |calls|
            && forall k :: 0 <= k < |calls| ==>
                 && answers[k].ToolResult? && answers[k].callId == Some(calls[k].id)
                 && answers[k].toolName == Some(calls[k].name)
                 && (!admits(calls[k]) ==> answers[k] == ResultOf(calls[k], REFUSAL))
  {
    if calls != [] {
      var init, last := calls[..|calls| - 1], calls[|calls| - 1];
      AnswersInOrder(admits, init, if admits(last) then outcomes[..|outcomes| - 1] else outcomes);
    }
  }

  /** How far a batch has come: a first part of its calls is answered, in call order; the executor was given the
      admitted ones among these, and perhaps the next one, and the answers report what it said. */
  predicate Part(admits: ToolCall -> bool, calls: seq<ToolCall>, answers: seq<Message>, ids: seq<Id>,
                 outcomes: seq<ToolOutcome>)
  {
    var k := |answers|;
    && k <= |calls| && |ids| == |outcomes|
    && var n := |Admitted(admits, calls[..k])|;
       && n <= |outcomes|
       && answers == Answers(admits, calls[..k], outcomes[..n])
       && (|| ids == Admitted(admits, calls[..k])
           || (k < |calls| && admits(calls[k]) && ids == Admitted(admits, calls[..k]) + [calls[k].id]))
  }

  /** The batch is over: every call is answered. */
  lemma PartOver(admits: ToolCall -> bool, calls: seq<ToolCall>, answers: seq<Message>, ids: seq<Id>,
                 outcomes: seq<ToolOutcome>)
    requires Part(admits, calls, answers, ids, outcomes) && |answers| == |calls|
    ensures ids == Admitted(admits, calls) && |outcomes| == |ids| && answers == Answers(admits, calls, outcomes)
  {
    assert calls[..|calls|] == calls;
    assert outcomes[..|outcomes|] == outcomes;
  }

  /** The answers are all there are to the calls the executor was given. */
  lemma PartAnswered(admits: ToolCall -> bool, calls: seq<ToolCall>, answers: seq<Message>, ids: seq<Id>,
                     outcomes: seq<ToolOutcome>)
    requires |answers| <= |calls| && ids == Admitted(admits, calls[..|answers|]) && |outcomes| == |ids|
    requires answers == Answers(admits, calls[..|answers|], outcomes)
    ensures Part(admits, calls, answers, ids, outcomes)
  {
    assert outcomes[..|outcomes|] == outcomes;
    hide Admitted, Answers;
  }

  /** The next call has no answer, whether or not the executor was given it. */
  lemma PartStuck(admits: ToolCall -> bool, calls: seq<ToolCall>, answers: seq<Message>, ids: seq<Id>,
                  outcomes: seq<ToolOutcome>, moreIds: seq<Id>, more: seq<ToolOutcome>)
    requires |answers| < |calls| && ids == Admitted(admits, calls[..|answers|]) && |outcomes| == |ids|
    requires answers == Answers(admits, calls[..|answers|], outcomes)
    requires |more| == |moreIds|
    requires moreIds == [] || (admits(calls[|answers|]) && moreIds == [calls[|answers|].id])
    ensures Part(admits, calls, answers, ids + moreIds, outcomes + more)
  {
    assert (outcomes + more)[..|outcomes|] == outcomes;
    assert ids + [] == ids;
    hide Admitted, Answers;
  }

  lemma NothingRan(admits: ToolCall -> bool, calls: seq<ToolCall>)
    ensures Admitted(admits, calls[..0]) == [] && Answers(admits, calls[..0], []) == []
  {
    assert calls[..0] == [];
  }

  lemma PartRan(admits: ToolCall -> bool, calls: seq<ToolCall>, i: nat)
    requires i < |calls|
    ensures Admitted(admits, calls[..i + 1]) ==
            Admitted(admits, calls[..i]) + if admits(calls[i]) then [calls[i].id] else []
  {
    assert calls[..i + 1][..i] == calls[..i];
  }

  /** The whole batch, in order. The executor runs exactly the admitted calls, in call order, or a first part of them
      when the run ends early; at the end every call has its answer, in call order, and nothing is in flight. */
  method RunTools(calls: seq<ToolCall>, admits: ToolCall -> bool, session: Session, executor: Executor,
                  messages0: seq<Message>, ghost v: View)
    returns (ok: bool, messages: seq<Message>, ghost answers: seq<Message>, ghost outcomes: seq<ToolOutcome>)
    requires UniqueIds(session.entries) && Read(session.task, session.entries) == Some(v)
    requires Once(session.task, session.entries, executor.executed) && Active(session.longOnly, v.ledger)
    requires BatchAt(v.scan.recovery, calls, 0) && messages0 == v.scan.messages
    modifies session, executor
    ensures Grown(session, old(session.entries), session.entries)
    ensures Once(session.task, session.entries, executor.executed)
    ensures History(session.entries) == History(old(session.entries)) + answers
    ensures old(executor.executed) <= executor.executed
    ensures executor.outcomes == old(executor.outcomes) + outcomes
    ensures Part(admits, calls, answers, executor.executed[|old(executor.executed)|..], outcomes)
    ensures ok ==>
              && |answers| == |calls| && messages == messages0 + answers
              && executor.executed == old(executor.executed) + Admitted(admits, calls)
              && |outcomes| == |Admitted(admits, calls)| && answers == Answers(admits, calls, outcomes)
              && var w := Read(session.task, session.entries).value;
                 w.ledger == v.ledger && w.scan.messages == messages && w.scan.recovery.Complete()
                 && w.scan.recovery.calls == v.scan.recovery.calls
  {
    hide Apply, RecoverMessage, RecoverOperation, Live, Read, Grown, Once, Admitted, Answers, History, Part;
    messages, answers, outcomes := messages0, [], [];
    ok := true;
    ghost var w := v;
    GrownSelf(session, session.entries);
    NothingRan(admits, calls);
    for i := 0 to |calls|
      invariant UniqueIds(session.entries) && Read(session.task, session.entries) == Some(w)
      invariant Grown(session, old(session.entries), session.entries)
      invariant Once(session.task, session.entries, executor.executed)
      invariant w.ledger == v.ledger && w.scan.messages == messages
      invariant w.scan.recovery.calls == v.scan.recovery.calls
      invariant BatchAt(w.scan.recovery, calls, i)
      invariant History(session.entries) == History(old(session.entries)) + answers
      invariant |answers| == i && messages == messages0 + answers
      invariant executor.executed == old(executor.executed) + Admitted(admits, calls[..i])
      invariant executor.outcomes == old(executor.outcomes) + outcomes
      invariant |outcomes| == |Admitted(admits, calls[..i])|
      invariant answers == Answers(admits, calls[..i], outcomes)
    {
      ghost var before, told, ran := session.entries, executor.outcomes, executor.executed;
      var result;
      ghost var answered;
      ok, result, answered := RunTool(calls[i], admits, session, executor, w);
      GrownTwice(session, old(session.entries), before, session.entries);
      GrownUnique(session, before, session.entries);
      ghost var more, moreIds := executor.outcomes[|told|..], executor.executed[|ran|..];
      ghost var ids := Admitted(admits, calls[..i]);
      assert executor.executed[|old(executor.executed)|..] == ids + moreIds;
      if answered {
        PartRan(admits, calls, i);
        AnswersSnoc(admits, calls[..i], calls[i], outcomes, more);
        assert calls[..i + 1] == calls[..i] + [calls[i]];
        answers := answers + [result];
        PartAnswered(admits, calls, answers, ids + moreIds, outcomes + more);
      } else {
        PartStuck(admits, calls, answers, ids, outcomes, moreIds, more);
      }
      outcomes := outcomes + more;
      if !ok {
        return;
      }
      BatchAdvances(w.scan.recovery, calls, i);
      w := Read(session.task, session.entries).value;
      messages := messages + [result];
    }
    assert calls[..|calls|] == calls;
    assert executor.executed[|old(executor.executed)|..] == Admitted(admits, calls);
    BatchEnds(w.scan.recovery, calls);
    PartAnswered(admits, calls, answers, Admitted(admits, calls), outcomes);
  }

  lemma GrownUnique(session: Session, es: seq<Entry>, es2: seq<Entry>)
    requires Grown(session, es, es2)
    ensures UniqueIds(es2) && Read(session.task, es2).Some?
  {
  }

  // The batches of a run, read off the messages it journaled

  /** An answer with calls, and the results that came for it. */
  datatype Batch = Batch(calls: seq<ToolCall>, answers: seq<Message>)

  /** The calls a message brings. */
  function CallsIn(m: Message): seq<ToolCall> {
    if m.Assistant? && ToolCalls(m.blocks).Some? then ToolCalls(m.blocks).value else []
  }

  function BatchesOf(ms: seq<Message>): seq<Batch> {
    if ms == [] then []
    else
      var bs, m := BatchesOf(ms[..|ms| - 1]), ms[|ms| - 1];
      if CallsIn(m) != [] then bs + [Batch(CallsIn(m), [])]
      else if m.ToolResult? && bs != [] then
        var last := bs[|bs| - 1];
        bs[..|bs| - 1] + [Batch(last.calls, last.answers + [m])]
      else bs
  }

  lemma BatchesGrow(ms: seq<Message>, m: Message)
    ensures var bs := BatchesOf(ms);
            BatchesOf(ms + [m]) ==
            if CallsIn(m) != [] then bs + [Batch(CallsIn(m), [])]
            else if m.ToolResult? && bs != [] then
              bs[..|bs| - 1] + [Batch(bs[|bs| - 1].calls, bs[|bs| - 1].answers + [m])]
            else bs
  {
    assert (ms + [m])[..|ms|] == ms;
  }

  /** Results belong to the last batch. */
  lemma {:induction false} BatchAnswered(ms: seq<Message>, answers: seq<Message>, bs: seq<Batch>, calls: seq<ToolCall>)
    requires BatchesOf(ms) == bs + [Batch(calls, [])] && forall m <- answers :: m.ToolResult?
    ensures BatchesOf(ms + answers) == bs + [Batch(calls, answers)]
    decreases |answers|
  {
    hide CallsIn;
    if answers == [] {
      assert ms + answers == ms;
    } else {
      var init, last := answers[..|answers| - 1], answers[|answers| - 1];
      BatchAnswered(ms, init, bs, calls);
      BatchesGrow(ms + init, last);
      assert ms + answers == (ms + init) + [last];
      assert answers == init + [last];
      assert last in answers;
      NoCallsIn(last);
    }
  }

  lemma NoCallsIn(m: Message)
    requires !m.Assistant?
    ensures CallsIn(m) == []
  {
  }

  /** The admitted calls of these batches, in order. */
  function Dispatched(admits: ToolCall -> bool, bs: seq<Batch>): seq<Id> {
    if bs == [] then [] else Dispatched(admits, bs[..|bs| - 1]) + Admitted(admits, bs[|bs| - 1].calls)
  }

  /** All these batches are over, and the executor ran exactly their admitted calls, in order, and said exactly what
      their answers report. */
  predicate Exact(admits: ToolCall -> bool, bs: seq<Batch>, ids: seq<Id>, outcomes: seq<ToolOutcome>) {
    if bs == [] then ids == [] && outcomes == []
    else
      var init, last := bs[..|bs| - 1], bs[|bs| - 1];
      var n := |Admitted(admits, last.calls)|;
      && |ids| == |outcomes| >= n
      && ids[|ids| - n..] == Admitted(admits, last.calls)
      && last.answers == Answers(admits, last.calls, outcomes[|outcomes| - n..])
      && Exact(admits, init, ids[..|ids| - n], outcomes[..|outcomes| - n])
  }

  /** The same of a run that died: its last batch may have come a part of the way only. */
  predicate Tells(admits: ToolCall -> bool, bs: seq<Batch>, ids: seq<Id>, outcomes: seq<ToolOutcome>) {
    Exact(admits, bs, ids, outcomes) ||
    (bs != [] &&
     var init, last := bs[..|bs| - 1], bs[|bs| - 1];
     var n := |Dispatched(admits, init)|;
     && n <= |ids| == |outcomes|
     && Exact(admits, init, ids[..n], outcomes[..n])
     && Part(admits, last.calls, last.answers, ids[n..], outcomes[n..]))
  }

  lemma ExactNext(admits: ToolCall -> bool, bs: seq<Batch>, ids: seq<Id>, outcomes: seq<ToolOutcome>, b: Batch,
                  moreIds: seq<Id>, more: seq<ToolOutcome>)
    requires Exact(admits, bs, ids, outcomes) && Part(admits, b.calls, b.answers, moreIds, more)
    ensures Tells(admits, bs + [b], ids + moreIds, outcomes + more)
    ensures |b.answers| == |b.calls| ==> Exact(admits, bs + [b], ids + moreIds, outcomes + more)
  {
    ExactLengths(admits, bs, ids, outcomes);
    ExactIsAnswered(admits, bs, ids, outcomes);
    var n := |ids|;
    assert (bs + [b])[..|bs|] == bs;
    assert (ids + moreIds)[..n] == ids && (ids + moreIds)[n..] == moreIds;
    assert (outcomes + more)[..n] == outcomes && (outcomes + more)[n..] == more;
    if |b.answers| == |b.calls| {
      PartOver(admits, b.calls, b.answers, moreIds, more);
    }
    hide Answers, Admitted;
  }

  lemma ExactLengths(admits: ToolCall -> bool, bs: seq<Batch>, ids: seq<Id>, outcomes: seq<ToolOutcome>)
    requires Exact(admits, bs, ids, outcomes)
    ensures |ids| == |outcomes|
  {
  }

  /** Every batch of a run that is over has one answer per call. */
  lemma {:induction false} ExactIsAnswered(admits: ToolCall -> bool, bs: seq<Batch>, ids: seq<Id>,
                                           outcomes: seq<ToolOutcome>)
    requires Exact(admits, bs, ids, outcomes)
    ensures forall b <- bs :: |b.answers| == |b.calls|
    ensures ids == Dispatched(admits, bs)
    decreases |bs|
  {
    hide Answers, Admitted;
    if bs != [] {
      var init, last := bs[..|bs| - 1], bs[|bs| - 1];
      var n := |Admitted(admits, last.calls)|;
      AnswersInOrder(admits, last.calls, outcomes[|outcomes| - n..]);
      ExactIsAnswered(admits, init, ids[..|ids| - n], outcomes[..|outcomes| - n]);
      assert ids == ids[..|ids| - n] + ids[|ids| - n..];
      hide Exact;
      assert bs == init + [last];
    }
  }
}
