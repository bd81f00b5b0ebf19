/** Retries of scheduled tasks: the backoff arithmetic and the life of one failing occurrence. */
module CronRetry {
  import opened Common

  const I64_MAX: int := 0x7FFF_FFFF_FFFF_FFFF

  datatype PolicySpec = PolicySpec(
    maxAttempts: Option<int>, backoffSec: Option<int>, multiplier: Option<int>, maxBackoffSec: Option<int>)
  {
    /** An empty policy object counts as undeclared. */
    predicate Declared() {
      maxAttempts.Some? || backoffSec.Some? || multiplier.Some? || maxBackoffSec.Some?
    }
  }

  datatype Policy = Policy(maxAttempts: int, backoffSec: int, multiplier: int, maxBackoffSec: int)

  function Clamp(value: Option<int>, default: int, low: int, high: int): int {
    if value.Some? && low <= value.value <= high then value.value else default
  }

  function FromSpec(spec: Option<PolicySpec>): (p: Policy)
    ensures 1 <= p.maxAttempts <= 10 && 0 <= p.backoffSec <= 86400
    ensures 1 <= p.multiplier <= 10 && 0 <= p.maxBackoffSec <= 86400
  {
    var s := if spec.Some? then spec.value else PolicySpec(None, None, None, None);
    Policy(Clamp(s.maxAttempts, 1, 1, 10), Clamp(s.backoffSec, 60, 0, 86400),
           Clamp(s.multiplier, 2, 1, 10), Clamp(s.maxBackoffSec, 3600, 0, 86400))
  }

  function Pow(b: nat, e: nat): nat {
    if e == 0 then 1 else b * Pow(b, e - 1)
  }

  function Saturate(n: int): int {
    if n > I64_MAX then I64_MAX else n
  }

  /** Exponential backoff in saturating 64-bit arithmetic, with the exponent cut at 32. */
  function RetryDelay(p: Policy, attempt: int): int
    requires p.multiplier >= 0 && p.backoffSec >= 0
  {
    var index := (if attempt < 1 then 1 else attempt) - 1;
    Min(Saturate(p.backoffSec * Saturate(Pow(p.multiplier, Min(index, 32)))), p.maxBackoffSec)
  }

  /** The delay without any saturation or cut. */
  function IdealDelay(p: Policy, attempt: int): int
    requires p.multiplier >= 0 && p.backoffSec >= 0 && attempt >= 1
  {
    Min(p.backoffSec * Pow(p.multiplier, attempt - 1), p.maxBackoffSec)
  }

  lemma {:induction false} PowMonotone(b: nat, d: nat, e: nat)
    requires b >= 1 && d <= e
    ensures 1 <= Pow(b, d) <= Pow(b, e)
    decreases e
  {
    if e > 0 {
      if d < e {
        PowMonotone(b, d, e - 1);
      } else {
        PowMonotone(b, d - 1, e - 1);
      }
    }
  }

  lemma {:induction false} PowAtLeastTwo(b: nat, e: nat)
    requires b >= 2
    ensures Pow(b, e) >= Pow(2, e)
  {
    if e > 0 {
      PowAtLeastTwo(b, e - 1);
    }
  }

  lemma TwoTo32()
    ensures Pow(2, 32) == 0x1_0000_0000
  {
    assert Pow(2, 8) == 0x100;
    assert Pow(2, 16) == 0x1_0000;
    assert Pow(2, 24) == 0x100_0000;
  }

  lemma {:induction false} PowOne(e: nat)
    ensures Pow(1, e) == 1
  {
    if e > 0 {
      PowOne(e - 1);
    }
  }

  lemma ProductAtLeast(a: int, x: int, y: int)
    requires a >= 0 && x <= y
    ensures a * x <= a * y
  {
  }

  /** Neither the saturation nor the cut exponent is ever visible: for every policy the clamping can produce, the
      delay is the mathematical one, for every attempt number. */
  lemma DelayIsIdeal(spec: Option<PolicySpec>, attempt: int)
    requires attempt >= 1
    ensures RetryDelay(FromSpec(spec), attempt) == IdealDelay(FromSpec(spec), attempt)
  {
    var p := FromSpec(spec);
    var index := attempt - 1;
    var cut := Min(index, 32);
    PowMonotone(p.multiplier, cut, index);
    ProductAtLeast(p.backoffSec, Pow(p.multiplier, cut), Pow(p.multiplier, index));
    if p.multiplier == 1 {
      PowOne(cut);
      PowOne(index);
    } else if p.backoffSec > 0 {
      if index > 32 {
        PowAtLeastTwo(p.multiplier, 32);
        TwoTo32();
      }
      DelayCapped(p, Pow(p.multiplier, cut));
    }
  }

  lemma DelayCapped(p: Policy, power: int)
    requires 1 <= p.backoffSec <= 86400 && 0 <= p.maxBackoffSec <= 86400 && power >= 1
    ensures Min(Saturate(p.backoffSec * Saturate(power)), p.maxBackoffSec) == Min(p.backoffSec * power, p.maxBackoffSec)
    ensures p.backoffSec * power >= power
  {
    ProductAtLeast(power, 1, p.backoffSec);
    if power > I64_MAX {
      ProductAtLeast(I64_MAX, 1, p.backoffSec);
    }
  }

  /** A later attempt never waits less. */
  lemma DelayMonotone(spec: Option<PolicySpec>, m: int, n: int)
    requires 1 <= m <= n
    ensures RetryDelay(FromSpec(spec), m) <= RetryDelay(FromSpec(spec), n)
  {
    var p := FromSpec(spec);
    DelayIsIdeal(spec, m);
    DelayIsIdeal(spec, n);
    PowMonotone(p.multiplier, m - 1, n - 1);
    ProductAtLeast(p.backoffSec, Pow(p.multiplier, m - 1), Pow(p.multiplier, n - 1));
  }

  // The runs of a task. Instants are whole seconds; an occurrence is named by its scheduled time.

  datatype RunStatus = Success | FailedRun | TimedOut

  datatype HistoryItem = HistoryItem(scheduledAt: int, attempt: int, status: RunStatus)

  datatype RetryState = RetryState(scheduledAt: int, attempt: int, eligibleAt: Option<int>)

  datatype RetryView = RetryView(scheduledAt: int, attempt: int, ready: bool, waiting: bool, exhausted: bool)

  function TruncateMinute(at: int): int { at - at % 60 }

  function ViewOf(state: Option<RetryState>, policy: Policy, at: int): Option<RetryView> {
    if state.None? || state.value.attempt < 1 then None
    else
      var s := state.value;
      var open := s.attempt < policy.maxAttempts;
      var ready := s.eligibleAt.Some? && s.eligibleAt.value <= at && open;
      Some(RetryView(s.scheduledAt, if ready then s.attempt + 1 else s.attempt, ready,
                     s.eligibleAt.Some? && s.eligibleAt.value > at && open,
                     !open || s.eligibleAt.None?))
  }

  function MaxAttempt(rows: seq<HistoryItem>, scheduledAt: int): int {
    if rows == [] then 0
    else
      var last, rest := rows[|rows| - 1], MaxAttempt(rows[..|rows| - 1], scheduledAt);
      if last.scheduledAt == scheduledAt then Max(rest, last.attempt) else rest
  }

  /** The run-owned part of a task. */
  datatype TaskState = TaskState(
    runHistory: seq<HistoryItem>, retryState: Option<RetryState>, lastRunAt: Option<int>, enabled: bool, runCount: int)

  function NextAttempt(t: TaskState, scheduledAt: int): int {
    var stored := if t.retryState.Some? && t.retryState.value.scheduledAt == scheduledAt
                  then Max(0, t.retryState.value.attempt) else 0;
    Max(stored, MaxAttempt(t.runHistory, scheduledAt)) + 1
  }

  function HistoryCap(maxRunHistory: int): (cap: int)
    ensures 1 <= cap <= 500
  {
    if maxRunHistory < 1 then 20 else Min(maxRunHistory, 500)
  }

  function Newest(rows: seq<HistoryItem>, cap: int): seq<HistoryItem>
    requires cap >= 1
  {
    if |rows| <= cap then rows else rows[|rows| - cap..]
  }

  function Transition(spec: Option<PolicySpec>, scheduledAt: int, attempt: int, status: RunStatus, at: int)
    : Option<RetryState>
  {
    if status == Success || spec.None? || !spec.value.Declared() then None
    else if attempt >= FromSpec(spec).maxAttempts then Some(RetryState(scheduledAt, attempt, None))
    else Some(RetryState(scheduledAt, attempt, Some(TruncateMinute(at + RetryDelay(FromSpec(spec), attempt)))))
  }

  function Limited(t: TaskState, maxRuns: Option<int>): TaskState {
    if maxRuns.None? then t
    else
      var counted := t.(runCount := t.runCount + 1);
      if counted.runCount >= maxRuns.value then counted.(enabled := false, retryState := None) else counted
  }

  /** The newest occurrence that came up by now after the last one run, if any. */
  type Pending = (Option<int>, int) -> Option<int>

  /** The declared part of a task that matters here; oneShot if a success disables it. */
  datatype Settings = Settings(
    retryPolicy: Option<PolicySpec>, maxRunHistory: int, maxRuns: Option<int>, oneShot: bool,
    notBefore: Option<int>, pending: Pending)

  /** One finished run. */
  datatype Finished = Finished(scheduledAt: int, status: RunStatus, at: int)

  /** A scheduled task as the tick edits it. */
  class CronTask {
    const settings: Settings
    var runHistory: seq<HistoryItem>
    var retryState: Option<RetryState>
    var lastRunAt: Option<int>
    var enabled: bool
    var runCount: int
    /** A run could not be recorded: no other run starts before someone clears this by hand. */
    var quarantined: bool

    function State(): TaskState
      reads this
    {
      TaskState(runHistory, retryState, lastRunAt, enabled, runCount)
    }

    constructor (settings: Settings, t: TaskState)
      ensures State() == t && this.settings == settings && !quarantined
    {
      this.settings := settings;
      runHistory, retryState, lastRunAt := t.runHistory, t.retryState, t.lastRunAt;
      enabled, runCount, quarantined := t.enabled, t.runCount, false;
    }

    /** One past the highest attempt on record for this occurrence. */
    method HistoryAttempt(scheduledAt: int) returns (attempt: int)
      ensures attempt == NextAttempt(State(), scheduledAt)
    {
      var attempts := 0;
      if retryState.Some? && retryState.value.scheduledAt == scheduledAt {
        attempts := Max(attempts, retryState.value.attempt);
      }
      ghost var stored := attempts;
      assert runHistory[..0] == [];
      for i := 0 to |runHistory|
        invariant attempts == Max(stored, MaxAttempt(runHistory[..i], scheduledAt))
      {
        assert runHistory[..i + 1][..i] == runHistory[..i];
        if runHistory[i].scheduledAt == scheduledAt {
          attempts := Max(attempts, runHistory[i].attempt);
        }
      }
      assert runHistory[..|runHistory|] == runHistory;
      attempt := attempts + 1;
    }

    /** Appends a row and hands back the oldest rows beyond the cap; nothing is lost or reordered. */
    method AppendRunHistory(entry: HistoryItem) returns (evicted: seq<HistoryItem>)
      modifies this`runHistory
      ensures evicted + runHistory == old(runHistory) + [entry]
      ensures runHistory == Newest(old(runHistory) + [entry], HistoryCap(settings.maxRunHistory))
    {
      runHistory := runHistory + [entry];
      var cap := HistoryCap(settings.maxRunHistory);
      if |runHistory| <= cap {
        return [];
      }
      var keepFrom := |runHistory| - cap;
      evicted := runHistory[..keepFrom];
      runHistory := runHistory[keepFrom..];
    }

    method ApplyRetryTransition(scheduledAt: int, attempt: int, status: RunStatus, at: int)
      modifies this`retryState
      ensures retryState == Transition(settings.retryPolicy, scheduledAt, attempt, status, at)
    {
      if status == Success || settings.retryPolicy.None? || !settings.retryPolicy.value.Declared() {
        retryState := None;
        return;
      }
      var policy := FromSpec(settings.retryPolicy);
      if attempt >= policy.maxAttempts {
        retryState := Some(RetryState(scheduledAt, attempt, None));
        return;
      }
      var delay := RetryDelay(policy, attempt);
      retryState := Some(RetryState(scheduledAt, attempt, Some(TruncateMinute(at + delay))));
    }

    /** Counts the run; a reached limit disables the task for good and drops its retry. */
    method ApplyRunLimit()
      modifies this`runCount, this`enabled, this`retryState
      ensures State() == Limited(old(State()), settings.maxRuns)
    {
      if settings.maxRuns.None? {
        return;
      }
      runCount := runCount + 1;
      if runCount >= settings.maxRuns.value {
        enabled := false;
        retryState := None;
      }
    }

    /** The fields of the task after one finished run. */
    method Book(run: Finished) returns (attempt: int, evicted: seq<HistoryItem>)
      modifies this
      ensures attempt == NextAttempt(old(State()), run.scheduledAt)
      ensures State() == AfterRun(old(State()), settings, run)
      ensures evicted + runHistory == old(runHistory) + [HistoryItem(run.scheduledAt, attempt, run.status)]
    {
      attempt := HistoryAttempt(run.scheduledAt);
      evicted := AppendRunHistory(HistoryItem(run.scheduledAt, attempt, run.status));
      ApplyRetryTransition(run.scheduledAt, attempt, run.status, run.at);
      ApplyRunLimit();
      lastRunAt := Some(run.scheduledAt);
      if run.status == Success && settings.oneShot {
        enabled := false;
      }
    }

    /** The bookkeeping of one finished run, on a copy. Only when the evicted rows are archived and the copy is
        committed does the task change; otherwise it stays as it was and is quarantined. */
    method RecordRun(run: Finished, archives: bool, commits: bool)
      returns (attempt: int, evicted: seq<HistoryItem>, recorded: bool)
      modifies this
      ensures attempt == NextAttempt(old(State()), run.scheduledAt)
      ensures var row := HistoryItem(run.scheduledAt, attempt, run.status);
              evicted + AfterRun(old(State()), settings, run).runHistory == old(runHistory) + [row]
      ensures recorded <==> commits && (archives || evicted == [])
      ensures State() == if recorded then AfterRun(old(State()), settings, run) else old(State())
      ensures quarantined == (old(quarantined) || !recorded)
    {
      hide AfterRun, NextAttempt;
      var copy := new CronTask(settings, State());
      attempt, evicted := copy.Book(run);
      recorded := (archives || evicted == []) && commits;
      assert copy.runHistory == copy.State().runHistory;
      if recorded {
        runHistory, retryState, lastRunAt := copy.runHistory, copy.retryState, copy.lastRunAt;
        enabled, runCount := copy.enabled, copy.runCount;
      } else {
        quarantined := true;
      }
    }
  }

  function RowOf(t: TaskState, run: Finished): HistoryItem {
    HistoryItem(run.scheduledAt, NextAttempt(t, run.scheduledAt), run.status)
  }

  function AfterRun(t: TaskState, settings: Settings, run: Finished): TaskState {
    var row := RowOf(t, run);
    var recorded := TaskState(Newest(t.runHistory + [row], HistoryCap(settings.maxRunHistory)),
                              Transition(settings.retryPolicy, run.scheduledAt, row.attempt, run.status, run.at),
                              Some(run.scheduledAt), t.enabled, t.runCount);
    var limited := Limited(recorded, settings.maxRuns);
    if run.status == Success && settings.oneShot then limited.(enabled := false) else limited
  }
}
