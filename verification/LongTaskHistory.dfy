/** What the record list of a task says about its ledger: conservation, the repeat guard and termination. */
module LongTaskHistory {
  import opened Common
  import opened LongTask

  /** The records of the running task: from the last creation record on. */
  function CurrentTask(rs: seq<Record>): seq<Record> {
    if rs == [] then []
    else
      var last := rs[|rs| - 1];
      if last.Created? then [last]
      else
        var earlier := CurrentTask(rs[..|rs| - 1]);
        if earlier == [] then [] else earlier + [last]
  }

  predicate Spends(r: Record) {
    r.RequestSettled? || r.RequestFailed? || r.ProviderInterrupted?
  }

  function Charge(r: Record): nat {
    if r.RequestSettled? || r.RequestFailed? then r.total else 0
  }

  function SpentCount(rs: seq<Record>): nat {
    if rs == [] then 0
    else SpentCount(rs[..|rs| - 1]) + if Spends(rs[|rs| - 1]) then 1 else 0
  }

  function InterruptedCount(rs: seq<Record>): nat {
    if rs == [] then 0
    else InterruptedCount(rs[..|rs| - 1]) + if rs[|rs| - 1].ProviderInterrupted? then 1 else 0
  }

  function TokenSum(rs: seq<Record>): nat {
    if rs == [] then 0 else TokenSum(rs[..|rs| - 1]) + Charge(rs[|rs| - 1])
  }

  /** The tokens charged by the latest request that came to an end. */
  function LastCharge(rs: seq<Record>): nat {
    if rs == [] then 0
    else if Spends(rs[|rs| - 1]) then Charge(rs[|rs| - 1])
    else LastCharge(rs[..|rs| - 1])
  }

  function CheckpointedRequests(rs: seq<Record>): nat {
    if rs == [] then 0
    else CheckpointedRequests(rs[..|rs| - 1])
         + if rs[|rs| - 1].StageCheckpoint? then rs[|rs| - 1].stageRequests else 0
  }

  function Batches(rs: seq<Record>): seq<Fingerprint> {
    if rs == [] then []
    else Batches(rs[..|rs| - 1])
         + if rs[|rs| - 1].ToolBatch? then [rs[|rs| - 1].fingerprint] else []
  }

  /** n is the length of the longest run of equal elements at the end of fs. */
  ghost predicate IsTailRun<T>(fs: seq<T>, n: nat) {
    && n <= |fs|
    && (fs != [] ==> n > 0)
    && (forall i :: |fs| - n <= i < |fs| ==> fs[i] == fs[|fs| - 1])
    && (n < |fs| ==> fs[|fs| - n - 1] != fs[|fs| - 1])
  }

  lemma CountsSnoc(rs: seq<Record>, r: Record)
    ensures SpentCount(rs + [r]) == SpentCount(rs) + if Spends(r) then 1 else 0
    ensures InterruptedCount(rs + [r]) == InterruptedCount(rs) + if r.ProviderInterrupted? then 1 else 0
    ensures TokenSum(rs + [r]) == TokenSum(rs) + Charge(r)
    ensures LastCharge(rs + [r]) == if Spends(r) then Charge(r) else LastCharge(rs)
  {
    assert (rs + [r])[..|rs + [r]| - 1] == rs;
  }

  lemma CheckpointsSnoc(rs: seq<Record>, r: Record)
    ensures CheckpointedRequests(rs + [r]) ==
            CheckpointedRequests(rs) + if r.StageCheckpoint? then r.stageRequests else 0
  {
    assert (rs + [r])[..|rs + [r]| - 1] == rs;
  }

  lemma BatchesSnoc(rs: seq<Record>, r: Record)
    ensures Batches(rs + [r]) == Batches(rs) + if r.ToolBatch? then [r.fingerprint] else []
  {
    assert (rs + [r])[..|rs + [r]| - 1] == rs;
  }

  lemma CountsOfCreation(r: Record)
    requires r.Created?
    ensures SpentCount([r]) == InterruptedCount([r]) == TokenSum([r]) == LastCharge([r]) == 0
    ensures CheckpointedRequests([r]) == 0 && Batches([r]) == []
  {
    CountsSnoc([], r);
    BatchesSnoc([], r);
    CheckpointsSnoc([], r);
    assert [] + [r] == [r];
  }

  /** A ledger has a task exactly when its records contain a creation. */
  lemma {:induction false} TaskIffCreated(rs: seq<Record>, expected: Option<Id>)
    requires Replay(rs, expected).Some?
    ensures Replay(rs, expected).value.limits.Some? <==> CurrentTask(rs) != []
    ensures CurrentTask(rs) == [] ==> rs == []
  {
    if rs != [] {
      TaskIffCreated(rs[..|rs| - 1], expected);
    }
  }

  /** What one accepted record does to the counters. */
  lemma StepCounters(s: Snapshot, r: Record, expected: Option<Id>)
    requires Consistent(s) && Apply(s, r, expected).Some?
    ensures var t := Apply(s, r, expected).value;
            && t.limits.Some?
            && if r.Created? then
                 && t.requests == t.interruptedRequests == t.reportedTokens == t.stageRequests == t.repeatCount == 0
                 && t.lastFingerprint == None && t.state == Ready
               else
                 && t.limits == s.limits
                 && t.requests == s.requests + (if Spends(r) then 1 else 0)
                 && t.interruptedRequests == s.interruptedRequests + (if r.ProviderInterrupted? then 1 else 0)
                 && t.reportedTokens == s.reportedTokens + Charge(r)
  {
  }

  /** What one accepted record does to the repeat guard. */
  lemma StepRepeat(s: Snapshot, r: Record, expected: Option<Id>)
    requires Consistent(s) && Apply(s, r, expected).Some? && !r.Created?
    ensures var t := Apply(s, r, expected).value;
            if r.ToolBatch? then
              && t.lastFingerprint == Some(r.fingerprint)
              && t.repeatCount == if s.lastFingerprint == Some(r.fingerprint) then s.repeatCount + 1 else 1
            else
              t.lastFingerprint == s.lastFingerprint && t.repeatCount == s.repeatCount
  {
  }

  /** What one live record does to the stage and the budgets. */
  lemma StepLive(s: Snapshot, r: Record, expected: Option<Id>)
    requires Consistent(s) && LiveWrites(s, r, expected) && !r.Created?
    ensures var t := Apply(s, r, expected).value;
            && s.limits.Some? && t.limits == s.limits
            && (t.state == PendingProvider ==>
                  r.RequestStarted? && t.reportedTokens < t.limits.value.maxTokens
                  && t.requests < t.limits.value.maxRequests)
            && (Spends(r) ==> s.state == PendingProvider && t.reportedTokens == s.reportedTokens + Charge(r))
            && (!Spends(r) ==> t.reportedTokens == s.reportedTokens)
            && (Stopped(s) && s.state in {Ready, Paused, Failed} ==>
                  Stopped(t) && t.state in {Ready, Paused, Failed} && !r.RequestStarted?)
            && (Stopped(t) && !Stopped(s) ==> t.state == Ready)
  {
  }

  /** Conservation: over every accepted journal, the counters of the running task are exactly what its records
      add up to since creation; no resume, pause or checkpoint resets any of them. */
  lemma {:induction false} Conservation(rs: seq<Record>, expected: Option<Id>)
    requires Replay(rs, expected).Some?
    ensures var s := Replay(rs, expected).value; var task := CurrentTask(rs);
            && s.requests == SpentCount(task)
            && s.interruptedRequests == InterruptedCount(task)
            && s.reportedTokens == TokenSum(task)
            && (s.limits.Some? ==> SpentCount(task) <= s.limits.value.maxRequests)
            && InterruptedCount(task) <= MAX_INTERRUPTED_REQUESTS
  {
    hide Apply;
    ReplayConsistent(rs, expected);
    if rs != [] {
      var init, last := rs[..|rs| - 1], rs[|rs| - 1];
      Conservation(init, expected);
      TaskIffCreated(init, expected);
      ReplayConsistent(init, expected);
      StepCounters(Replay(init, expected).value, last, expected);
      if last.Created? {
        CountsOfCreation(last);
      } else {
        CountsSnoc(CurrentTask(init), last);
      }
    }
  }

  /** The elapsed clock never runs backwards inside a task and never passes the wall limit. */
  lemma {:induction false} ElapsedMonotone(rs: seq<Record>, expected: Option<Id>)
    requires Replay(rs, expected).Some? && rs != []
    ensures var task := CurrentTask(rs); var s := Replay(rs, expected).value;
            && task != [] && task[0].Created? && s.limits == Some(task[0].limits)
            && (forall i :: 1 <= i < |task| ==> !task[i].Created? && !task[i].Malformed?)
            && (forall i :: 1 <= i < |task| ==> task[i].elapsedMs <= s.elapsedMs)
            && (forall i, j :: 1 <= i < j < |task| ==> task[i].elapsedMs <= task[j].elapsedMs)
            && s.elapsedMs <= task[0].limits.WallMs()
  {
    ReplayConsistent(rs, expected);
    var init, last := rs[..|rs| - 1], rs[|rs| - 1];
    if !last.Created? {
      assert init != [];
      ElapsedMonotone(init, expected);
      assert CurrentTask(rs) == CurrentTask(init) + [last];
    }
  }

  /** Every recorded stage count is the one the ledger held. */
  predicate HonestStageCounts(rs: seq<Record>, expected: Option<Id>)
    requires Replay(rs, expected).Some?
  {
    rs == [] ||
    (&& HonestStageCounts(rs[..|rs| - 1], expected)
     && (rs[|rs| - 1].ToolBatch? || rs[|rs| - 1].StageCheckpoint? ==>
           rs[|rs| - 1].stageRequests == Replay(rs[..|rs| - 1], expected).value.stageRequests))
  }

  /** requests == checkpointed stages + running stage, after every record so far. */
  ghost predicate StagesConserved(rs: seq<Record>, expected: Option<Id>)
    requires Replay(rs, expected).Some?
  {
    && (rs != [] ==> StagesConserved(rs[..|rs| - 1], expected))
    && Replay(rs, expected).value.requests ==
       CheckpointedRequests(CurrentTask(rs)) + Replay(rs, expected).value.stageRequests
  }

  /** Replay accepts journals whose stage counts do not add up; they add up after every record if and only if
      each tool batch and checkpoint recorded the count the ledger held. */
  lemma {:induction false} StagesConservedIffHonest(rs: seq<Record>, expected: Option<Id>)
    requires Replay(rs, expected).Some?
    ensures StagesConserved(rs, expected) <==> HonestStageCounts(rs, expected)
  {
    hide Apply;
    if rs != [] {
      var init, last := rs[..|rs| - 1], rs[|rs| - 1];
      StagesConservedIffHonest(init, expected);
      TaskIffCreated(init, expected);
      ReplayConsistent(init, expected);
      StepCounters(Replay(init, expected).value, last, expected);
      if last.Created? {
        CountsOfCreation(last);
      } else {
        StepStage(Replay(init, expected).value, last, expected);
        CheckpointsSnoc(CurrentTask(init), last);
      }
    }
  }

  /** What one accepted record does to the stage count. */
  lemma StepStage(s: Snapshot, r: Record, expected: Option<Id>)
    requires Apply(s, r, expected).Some? && !r.Created?
    ensures Apply(s, r, expected).value.stageRequests ==
            if Spends(r) then s.stageRequests + 1
            else if r.StageCheckpoint? then 0
            else if r.ToolBatch? then r.stageRequests
            else s.stageRequests
  {
  }

  /** Replay takes a tool batch whose stage count is any number within the request cap, true or not. */
  lemma FalseBatchIsAccepted(rs: seq<Record>, count: nat, f: Fingerprint)
    requires Replay(rs, None).Some? && Replay(rs, None).value.state == PendingTools
    requires Replay(rs, None).value.limits.Some?
    requires 0 < count <= Replay(rs, None).value.limits.value.maxRequests
    requires count != Replay(rs, None).value.stageRequests
    requires f.Digest? && Replay(rs, None).value.NextRepeat(f) <= Replay(rs, None).value.limits.value.repeatLimit
    ensures var s := Replay(rs, None).value;
            var longer := rs + [ToolBatch(s.stage, count, s.elapsedMs, f, s.NextRepeat(f))];
            Replay(longer, None).Some? && !StagesConserved(longer, None)
  {
    var s := Replay(rs, None).value;
    var r := ToolBatch(s.stage, count, s.elapsedMs, f, s.NextRepeat(f));
    ReplayConsistent(rs, None);
    ReplaySnoc(rs, r, None);
    assert Apply(s, r, None).Some?;
    hide Apply;
    StagesConservedIffHonest(rs + [r], None);
    assert (rs + [r])[..|rs + [r]| - 1] == rs;
  }

  /** A concrete journal of that kind: two requests in the stage, one of them claimed. */
  lemma DishonestBatchIsAccepted() returns (rs: seq<Record>)
    ensures Replay(rs, None).Some? && !StagesConserved(rs, None)
  {
    var limits := Limits(300, 16, 1024, 1000, 3);
    var s0 := EMPTY_LEDGER.(limits := Some(limits), userEntryId := Some(2), state := Ready);
    rs := Extend([], EMPTY_LEDGER, Created(1, 2, limits), s0);
    rs := ExtendByRequest(rs, s0, SummaryResponse);
    rs := ExtendByRequest(rs, s0.(requests := 1, stageRequests := 1), ToolsResponse);
    var f := Digest(7);
    var s := Replay(rs, None).value;
    hide Replay, StagesConserved;
    FalseBatchIsAccepted(rs, 1, f);
    rs := rs + [ToolBatch(s.stage, 1, s.elapsedMs, f, s.NextRepeat(f))];
  }

  /** Appends one record to a journal whose replay is known. */
  lemma Extend(rs: seq<Record>, s: Snapshot, r: Record, t: Snapshot) returns (longer: seq<Record>)
    requires Replay(rs, None) == Some(s) && Apply(s, r, None) == Some(t)
    ensures longer == rs + [r] && Replay(longer, None) == Some(t)
  {
    longer := rs + [r];
    ReplaySnoc(rs, r, None);
  }

  lemma BeginStep(s: Snapshot)
    requires s.state == Ready && s.limits.Some? && s.pendingSequence.None?
    requires s.elapsedMs <= s.limits.value.WallMs()
    ensures Apply(s, RequestStarted(s.requests + 1, s.stage, s.elapsedMs), None) ==
            Some(s.(pendingSequence := Some(s.requests + 1), state := PendingProvider))
  {
  }

  lemma SettleStep(s: Snapshot, kind: ResponseKind, tokens: TokenDelta)
    requires s.pendingSequence.Some? && s.limits.Some? && s.elapsedMs <= s.limits.value.WallMs()
    requires s.requests < s.limits.value.maxRequests && s.reportedTokens <= U64_MAX && tokens.Total() == Some(0)
    ensures Apply(s, RequestSettled(s.pendingSequence.value, s.stage, s.elapsedMs, kind, tokens, 0), None) ==
            Some(s.(pendingSequence := None, requests := s.requests + 1, stageRequests := s.stageRequests + 1,
                    state := StateAfter(kind)))
  {
  }

  /** Appends one request that is started and settled without any usage. */
  lemma ExtendByRequest(rs: seq<Record>, s: Snapshot, kind: ResponseKind) returns (longer: seq<Record>)
    requires Replay(rs, None) == Some(s) && s.state == Ready && s.limits.Some? && s.pendingSequence.None?
    requires s.requests < s.limits.value.maxRequests && s.elapsedMs <= s.limits.value.WallMs()
    requires s.reportedTokens <= U64_MAX
    ensures Replay(longer, None) == Some(s.(requests := s.requests + 1, stageRequests := s.stageRequests + 1,
                                            state := StateAfter(kind)))
  {
    hide Apply, Replay;
    var pending := s.(pendingSequence := Some(s.requests + 1), state := PendingProvider);
    BeginStep(s);
    longer := Extend(rs, s, RequestStarted(s.requests + 1, s.stage, s.elapsedMs), pending);
    var tokens := TokenDelta(0, 0, 0, 0);
    var settled := RequestSettled(s.requests + 1, s.stage, s.elapsedMs, kind, tokens, 0);
    SettleStep(pending, kind, tokens);
    longer := Extend(longer, pending, settled,
                     s.(requests := s.requests + 1, stageRequests := s.stageRequests + 1, state := StateAfter(kind)));
  }

  lemma {:induction false} LiveIsHonest(rs: seq<Record>, expected: Option<Id>)
    requires LiveRecords(rs, expected)
    ensures HonestStageCounts(rs, expected)
  {
    if rs != [] {
      LiveIsHonest(rs[..|rs| - 1], expected);
    }
  }

  /** In a live-written journal the stage counts always add up, and the token cap can be passed only by the
      charge of the last request. */
  lemma {:induction false} LiveBudget(rs: seq<Record>, expected: Option<Id>)
    requires LiveRecords(rs, expected) && rs != []
    ensures var s := Replay(rs, expected).value; var task := CurrentTask(rs);
            && s.limits.Some?
            && s.requests == CheckpointedRequests(task) + s.stageRequests
            && LastCharge(task) <= s.reportedTokens < s.limits.value.maxTokens + LastCharge(task)
            && (s.state == PendingProvider ==>
                  s.reportedTokens < s.limits.value.maxTokens && s.requests < s.limits.value.maxRequests)
  {
    LiveStagesAddUp(rs, expected);
    hide Apply;
    ReplayConsistent(rs, expected);
    var init, last := rs[..|rs| - 1], rs[|rs| - 1];
    ReplayConsistent(init, expected);
    StepCounters(Replay(init, expected).value, last, expected);
    if last.Created? {
      CountsOfCreation(last);
    } else {
      FirstIsCreation(rs, expected);
      LiveBudget(init, expected);
      TaskIffCreated(init, expected);
      StepLive(Replay(init, expected).value, last, expected);
      CountsSnoc(CurrentTask(init), last);
    }
  }

  lemma LiveStagesAddUp(rs: seq<Record>, expected: Option<Id>)
    requires LiveRecords(rs, expected)
    ensures Replay(rs, expected).value.requests ==
            CheckpointedRequests(CurrentTask(rs)) + Replay(rs, expected).value.stageRequests
  {
    hide Apply;
    LiveIsHonest(rs, expected);
    StagesConservedIffHonest(rs, expected);
  }

  lemma FirstIsCreation(rs: seq<Record>, expected: Option<Id>)
    requires Replay(rs, expected).Some? && rs != [] && !rs[|rs| - 1].Created?
    ensures |rs| > 1
  {
  }

  // The repeat guard

  lemma TailRunSnoc<T>(fs: seq<T>, n: nat, f: T)
    requires IsTailRun(fs, n)
    ensures IsTailRun(fs + [f], if fs != [] && fs[|fs| - 1] == f then n + 1 else 1)
  {
    var gs := fs + [f];
    assert forall i :: 0 <= i < |fs| ==> gs[i] == fs[i];
  }

  ghost predicate RepeatMatches(fs: seq<Fingerprint>, s: Snapshot) {
    && IsTailRun(fs, s.repeatCount)
    && s.lastFingerprint == if fs == [] then None else Some(fs[|fs| - 1])
  }

  lemma RepeatMatchesStep(fs: seq<Fingerprint>, s: Snapshot, r: Record, expected: Option<Id>)
    requires Consistent(s) && Apply(s, r, expected).Some? && !r.Created? && RepeatMatches(fs, s)
    ensures RepeatMatches(fs + if r.ToolBatch? then [r.fingerprint] else [], Apply(s, r, expected).value)
  {
    StepRepeat(s, r, expected);
    hide Apply;
    if r.ToolBatch? {
      TailRunSnoc(fs, s.repeatCount, r.fingerprint);
    } else {
      assert fs + [] == fs;
    }
  }

  /** repeat_count is the length of the run of identical fingerprints that ends the tool batches of the task;
      checkpoints, pauses, interruptions and resumes between the batches do not disturb it. */
  lemma {:induction false} RepeatCountIsTailRun(rs: seq<Record>, expected: Option<Id>)
    requires Replay(rs, expected).Some?
    ensures RepeatMatches(Batches(CurrentTask(rs)), Replay(rs, expected).value)
  {
    hide Apply;
    if rs != [] {
      var init, last := rs[..|rs| - 1], rs[|rs| - 1];
      var s := Replay(init, expected).value;
      ReplayConsistent(init, expected);
      if last.Created? {
        StepCounters(s, last, expected);
        CountsOfCreation(last);
      } else {
        RepeatCountIsTailRun(init, expected);
        TaskIffCreated(init, expected);
        CreationFirst(s, last, expected);
        RepeatMatchesStep(Batches(CurrentTask(init)), s, last, expected);
        BatchesSnoc(CurrentTask(init), last);
      }
    }
  }

  lemma CreationFirst(s: Snapshot, r: Record, expected: Option<Id>)
    requires Apply(s, r, expected).Some? && !r.Created?
    ensures s.limits.Some?
  {
  }

  ghost predicate Stopped(s: Snapshot) {
    s.limits.Some? && s.repeatCount >= s.limits.value.repeatLimit
  }

  lemma {:induction false} StoppedIsSettled(rs: seq<Record>, expected: Option<Id>)
    requires LiveRecords(rs, expected) && Stopped(Replay(rs, expected).value)
    ensures Replay(rs, expected).value.state in {Ready, Paused, Failed}
  {
    hide Apply;
    ReplayConsistent(rs, expected);
    var init, last := rs[..|rs| - 1], rs[|rs| - 1];
    var s := Replay(init, expected).value;
    ReplayConsistent(init, expected);
    StepCounters(s, last, expected);
    if !last.Created? {
      StepLive(s, last, expected);
      if Stopped(s) {
        StoppedIsSettled(init, expected);
      }
    }
  }

  /** Once the run of identical batches reaches the limit, no live request ever begins again in that task,
      however often it is paused or resumed. */
  lemma {:induction false} RepeatStopIsFinal(rs: seq<Record>, expected: Option<Id>, i: nat, j: nat)
    requires LiveRecords(rs, expected) && i <= j <= |rs|
    requires LiveRecords(rs[..i], expected) && Stopped(Replay(rs[..i], expected).value)
    requires forall k :: i <= k < j ==> !rs[k].Created?
    ensures forall k :: i <= k < j ==> !rs[k].RequestStarted?
    ensures LiveRecords(rs[..j], expected) && Stopped(Replay(rs[..j], expected).value)
    decreases j
  {
    hide Apply;
    if i < j {
      RepeatStopIsFinal(rs, expected, i, j - 1);
      StoppedIsSettled(rs[..j - 1], expected);
      LivePrefix(rs, expected, j);
      assert rs[..j][..j - 1] == rs[..j - 1];
      ReplayConsistent(rs[..j - 1], expected);
      StepLive(Replay(rs[..j - 1], expected).value, rs[j - 1], expected);
    }
  }

  lemma {:induction false} LivePrefix(rs: seq<Record>, expected: Option<Id>, k: nat)
    requires LiveRecords(rs, expected) && k <= |rs|
    ensures LiveRecords(rs[..k], expected)
  {
    if k == |rs| {
      assert rs[..k] == rs;
    } else {
      LivePrefix(rs[..|rs| - 1], expected, k);
      assert rs[..|rs| - 1][..k] == rs[..k];
    }
  }

  // Termination of a task

  function Rank(s: Snapshot): nat {
    match s.state
    case PendingTools => 4
    case Ready => if s.stageRequests > 0 then 3 else 2
    case Paused => 1
    case FinalPending => 1
    case _ => 0
  }

  /** How many more records the task can still write. */
  function Potential(s: Snapshot): nat
    requires s.limits.Some? && s.requests <= s.limits.value.maxRequests
  {
    5 * (s.limits.value.maxRequests - s.requests) + Rank(s)
  }

  lemma LiveStepDescends(s: Snapshot, r: Record, expected: Option<Id>)
    requires Consistent(s) && LiveWrites(s, r, expected) && !r.Created?
    requires s.state == PendingProvider ==> s.requests < s.limits.value.maxRequests
    requires s.state == PendingTools ==> s.stageRequests > 0
    ensures Apply(s, r, expected).value.limits == s.limits
    ensures Apply(s, r, expected).value.requests <= s.limits.value.maxRequests
    ensures Potential(Apply(s, r, expected).value) < Potential(s)
  {
  }

  /** A live task ends: over all its runs, crashes and resumes it writes at most 5 * max_requests + 3 records,
      creation included; what it may still write shrinks with every record. */
  lemma {:induction false} RecordBound(rs: seq<Record>, expected: Option<Id>)
    requires LiveRecords(rs, expected) && rs != []
    ensures var s := Replay(rs, expected).value;
            && s.limits.Some? && s.requests <= s.limits.value.maxRequests
            && |CurrentTask(rs)| + Potential(s) <= 5 * s.limits.value.maxRequests + 3
  {
    LiveBudget(rs, expected);
    ReplayConsistent(rs, expected);
    var init, last := rs[..|rs| - 1], rs[|rs| - 1];
    if !last.Created? {
      assert init != [];
      RecordBound(init, expected);
      LiveBudget(init, expected);
      ReplayConsistent(init, expected);
      PendingToolsSpent(init, expected);
      LiveStepDescends(Replay(init, expected).value, last, expected);
    }
  }

  lemma PendingToolsSpent(rs: seq<Record>, expected: Option<Id>)
    requires Replay(rs, expected).Some?
    ensures Replay(rs, expected).value.state == PendingTools ==> Replay(rs, expected).value.stageRequests > 0
  {
  }
}
