/** The long-task ledger as a value: its records, and the replay machine that rebuilds it from them. */
module LongTask {
  import opened Common

  const MAX_INTERRUPTED_REQUESTS: nat := 3
  const MAX_WALL_SECONDS: nat := 21600
  const MAX_STAGE_REQUESTS: nat := 1024
  const MAX_MAX_REQUESTS: nat := 2048
  const MAX_MAX_TOKENS: nat := 25_000_000
  const MIN_REPEAT_LIMIT: nat := 2
  const MAX_REPEAT_LIMIT: nat := 8

  datatype Limits = Limits(
    wallSeconds: nat, stageRequests: nat, maxRequests: nat, maxTokens: nat, repeatLimit: nat)
  {
    predicate Valid() {
      && 1 <= wallSeconds <= MAX_WALL_SECONDS
      && 1 <= stageRequests <= MAX_STAGE_REQUESTS
      && 1 <= maxRequests <= MAX_MAX_REQUESTS
      && 1 <= maxTokens <= MAX_MAX_TOKENS
      && MIN_REPEAT_LIMIT <= repeatLimit <= MAX_REPEAT_LIMIT
    }

    function WallMs(): nat { wallSeconds * 1000 }
  }

  datatype State =
    | NoTask | Ready | PendingProvider | PendingTools | FinalPending | Paused | Completed | Failed

  datatype TokenDelta = TokenDelta(input: nat, output: nat, cacheRead: nat, cacheWrite: nat) {
    /** Three checked 64-bit additions. */
    function Total(): (r: Option<nat>)
      ensures r.Some? <==> input + output + cacheRead + cacheWrite <= U64_MAX
      ensures r.Some? ==> r.value == input + output + cacheRead + cacheWrite
    {
      if input + output > U64_MAX then None
      else if input + output + cacheRead > U64_MAX then None
      else if input + output + cacheRead + cacheWrite > U64_MAX then None
      else Some(input + output + cacheRead + cacheWrite)
    }
  }

  /** A batch fingerprint: a 64-digit hex digest, opaque here, or any other string. */
  datatype Fingerprint = Digest(value: nat) | NotHex

  datatype ResponseKind = SummaryResponse | ToolsResponse | FinalResponse
  datatype RequestKind = ActionRequest | SummaryRequest
  datatype InterruptReason = UserStop | SignalTermination | RunDeadline | Unknown
  datatype PauseReason = Operator | RequestBudgetReached | WallTimeout
  datatype Category = Provider | ProviderTimeout | Compaction | Runtime | RequestBudget

  /** One body-free journal record. Malformed stands for every JSON value that fails the shape checks:
      missing event, unexpected keys, wrong version, a value outside its enumeration. */
  datatype Record =
    | Created(taskId: Id, userEntryId: Id, limits: Limits)
    | RequestStarted(sequence: nat, stage: nat, elapsedMs: nat)
    | RequestSettled(sequence: nat, stage: nat, elapsedMs: nat, kind: ResponseKind,
                     tokens: TokenDelta, total: nat)
    | ProviderInterrupted(sequence: nat, stage: nat, elapsedMs: nat, reason: InterruptReason,
                          requestKind: RequestKind)
    | RequestFailed(sequence: nat, stage: nat, elapsedMs: nat, category: Category,
                    tokens: TokenDelta, total: nat)
    | StageCheckpoint(stage: nat, stageRequests: nat, elapsedMs: nat, fingerprint: Fingerprint,
                      repeatCount: nat)
    | ToolBatch(stage: nat, stageRequests: nat, elapsedMs: nat, fingerprint: Fingerprint,
                repeatCount: nat)
    | TaskPaused(pauseReason: PauseReason, stage: nat, elapsedMs: nat)
    | TaskFailed(category: Category, stage: nat, elapsedMs: nat)
    | TaskCompleted(stage: nat, elapsedMs: nat)
    | Malformed

  /** Everything the ledger holds that the journal can restore; the in-memory pending response is not part of it. */
  datatype Snapshot = Snapshot(
    limits: Option<Limits>,
    userEntryId: Option<Id>,
    state: State,
    stage: nat,
    stageRequests: nat,
    elapsedMs: nat,
    requests: nat,
    reportedTokens: nat,
    pendingSequence: Option<nat>,
    lastFingerprint: Option<Fingerprint>,
    repeatCount: nat,
    terminalReason: Option<Category>,
    interruptedRequests: nat,
    interruptionReason: Option<InterruptReason>)
  {
    predicate ElapsedOk(elapsed: nat)
      requires limits.Some?
    {
      elapsedMs <= elapsed <= limits.value.WallMs()
    }

    predicate CanAdd(total: nat)
      requires limits.Some?
    {
      requests < limits.value.maxRequests && reportedTokens + total <= U64_MAX
    }

    function Add(elapsed: nat, total: nat): Snapshot {
      this.(requests := requests + 1, stageRequests := stageRequests + 1,
            reportedTokens := reportedTokens + total, elapsedMs := elapsed)
    }

    predicate ResumeAllowed() {
      && (state == Ready || state == Paused)
      && interruptedRequests < MAX_INTERRUPTED_REQUESTS
      && limits.Some?
      && elapsedMs < limits.value.WallMs()
      && repeatCount < limits.value.repeatLimit
      && reportedTokens < limits.value.maxTokens
      && requests < limits.value.maxRequests
    }

    predicate Terminal() { state == Completed || state == Failed }

    function NextRepeat(f: Fingerprint): nat {
      if lastFingerprint == Some(f) then Min(repeatCount + 1, U64_MAX) else 1
    }
  }

  const EMPTY_LEDGER := Snapshot(None, None, NoTask, 0, 0, 0, 0, 0, None, None, 0, None, 0, None)

  function StateAfter(kind: ResponseKind): State {
    match kind
    case SummaryResponse => Ready
    case ToolsResponse => PendingTools
    case FinalResponse => FinalPending
  }

  /** One step of replay, or None when the record is refused. */
  function Apply(s: Snapshot, r: Record, expected: Option<Id>): Option<Snapshot> {
    if r.Malformed? then None
    else if r.Created? then
      if s.limits.Some? && !s.Terminal() then None
      else if expected.Some? && r.taskId != expected.value then None
      else if r.userEntryId == EMPTY || !r.limits.Valid() then None
      else
        var base := if s.limits.Some? then EMPTY_LEDGER else s;
        Some(base.(limits := Some(r.limits), userEntryId := Some(r.userEntryId), state := Ready))
    else if s.limits.None? || !s.ElapsedOk(r.elapsedMs) then None
    else match r {
      case RequestStarted(sequence, stage, elapsed) =>
        if && s.pendingSequence.None? && (s.state == Ready || s.state == Paused)
           && sequence == s.requests + 1 && stage == s.stage
        then Some(s.(pendingSequence := Some(sequence), state := PendingProvider, elapsedMs := elapsed))
        else None
      case RequestSettled(sequence, stage, elapsed, kind, tokens, total) =>
        if && s.pendingSequence == Some(sequence) && stage == s.stage
           && tokens.Total() == Some(total) && s.CanAdd(total)
        then Some(s.Add(elapsed, total).(pendingSequence := None, state := StateAfter(kind)))
        else None
      case ProviderInterrupted(sequence, stage, elapsed, reason, _) =>
        if && s.state == PendingProvider && s.pendingSequence == Some(sequence) && stage == s.stage
           && s.interruptedRequests < MAX_INTERRUPTED_REQUESTS && s.CanAdd(0)
        then Some(s.Add(elapsed, 0).(interruptedRequests := s.interruptedRequests + 1,
                  interruptionReason := Some(reason), pendingSequence := None, state := Paused))
        else None
      case RequestFailed(sequence, stage, elapsed, category, tokens, total) =>
        if && s.pendingSequence == Some(sequence) && stage == s.stage
           && tokens.Total() == Some(total) && s.CanAdd(total)
        then Some(s.Add(elapsed, total).(pendingSequence := None, state := Failed,
                  terminalReason := Some(category)))
        else None
      case StageCheckpoint(stage, stageRequests, elapsed, fingerprint, repeatCount) =>
        if && s.state == Ready && stage == s.stage + 1
           && 0 < stageRequests <= s.limits.value.maxRequests
           && fingerprint.Digest? && s.lastFingerprint == Some(fingerprint)
           && repeatCount == s.repeatCount <= s.limits.value.repeatLimit
        then Some(s.(stage := stage, stageRequests := 0, elapsedMs := elapsed))
        else None
      case ToolBatch(stage, stageRequests, elapsed, fingerprint, repeatCount) =>
        if && s.state == PendingTools && stage == s.stage
           && 0 < stageRequests <= s.limits.value.maxRequests
           && fingerprint.Digest?
           && repeatCount == s.NextRepeat(fingerprint) <= s.limits.value.repeatLimit
        then Some(s.(stageRequests := stageRequests, elapsedMs := elapsed,
                     lastFingerprint := Some(fingerprint), repeatCount := repeatCount, state := Ready))
        else None
      case TaskPaused(_, stage, elapsed) =>
        if s.state == Ready && stage == s.stage
        then Some(s.(elapsedMs := elapsed, state := Paused))
        else None
      case TaskFailed(category, stage, elapsed) =>
        if && s.state == Ready && stage == s.stage && (category == Runtime || category == RequestBudget)
        then Some(s.(elapsedMs := elapsed, state := Failed, terminalReason := Some(category)))
        else None
      case TaskCompleted(stage, elapsed) =>
        if s.state == FinalPending && stage == s.stage
        then Some(s.(elapsedMs := elapsed, state := Completed))
        else None
    }
  }

  /** Replay of a whole record list, oldest first. */
  function Replay(rs: seq<Record>, expected: Option<Id>): Option<Snapshot> {
    if rs == [] then Some(EMPTY_LEDGER)
    else
      var before := Replay(rs[..|rs| - 1], expected);
      if before.None? then None else Apply(before.value, rs[|rs| - 1], expected)
  }

  lemma ReplaySnoc(rs: seq<Record>, r: Record, expected: Option<Id>)
    ensures Replay(rs + [r], expected) ==
            if Replay(rs, expected).None? then None else Apply(Replay(rs, expected).value, r, expected)
  {
    assert (rs + [r])[..|rs + [r]| - 1] == rs;
  }

  /** What holds of every ledger that replay can produce. */
  ghost predicate Consistent(s: Snapshot) {
    && (s.limits.None? ==> s == EMPTY_LEDGER)
    && (s.limits.Some? ==>
      && s.limits.value.Valid()
      && s.state != NoTask
      && s.elapsedMs <= s.limits.value.WallMs()
      && s.requests <= s.limits.value.maxRequests
      && s.repeatCount <= s.limits.value.repeatLimit)
    && s.reportedTokens <= U64_MAX
    && s.interruptedRequests <= MAX_INTERRUPTED_REQUESTS
    && s.interruptedRequests <= s.requests
    && (s.pendingSequence.Some? <==> s.state == PendingProvider)
    && (s.pendingSequence.Some? ==> s.pendingSequence.value == s.requests + 1)
    && (s.lastFingerprint.Some? <==> s.repeatCount > 0)
  }

  lemma ApplyConsistent(s: Snapshot, r: Record, expected: Option<Id>)
    requires Consistent(s) && Apply(s, r, expected).Some?
    ensures Consistent(Apply(s, r, expected).value)
  {
  }

  /** Replay never leaves the accounting invariant: the caps of the creation record hold after every accepted
      record, the elapsed clock stays inside the wall limit and exactly one reservation is open while, and only
      while, the provider is pending. */
  lemma {:induction false} ReplayConsistent(rs: seq<Record>, expected: Option<Id>)
    requires Replay(rs, expected).Some?
    ensures Consistent(Replay(rs, expected).value)
  {
    if rs != [] {
      ReplayConsistent(rs[..|rs| - 1], expected);
      ApplyConsistent(Replay(rs[..|rs| - 1], expected).value, rs[|rs| - 1], expected);
    }
  }

  /** The records a live method writes from a given ledger: replay accepts them, and they also satisfy the
      guards that only the live code enforces. */
  predicate LiveWrites(s: Snapshot, r: Record, expected: Option<Id>) {
    && Apply(s, r, expected).Some?
    && (r.RequestStarted? ==> s.ResumeAllowed())
    && (r.ToolBatch? || r.StageCheckpoint? ==> r.stageRequests == s.stageRequests)
    && (r.TaskPaused? || r.TaskFailed? || r.TaskCompleted? ==> r.elapsedMs == s.elapsedMs)
  }

  /** A record list every element of which was written by a live method. */
  predicate LiveRecords(rs: seq<Record>, expected: Option<Id>)
    ensures LiveRecords(rs, expected) ==> Replay(rs, expected).Some?
  {
    rs == [] ||
    (&& LiveRecords(rs[..|rs| - 1], expected)
     && LiveWrites(Replay(rs[..|rs| - 1], expected).value, rs[|rs| - 1], expected))
  }
}
