/** The retries of a task over any list of runs, of whatever occurrences and with whatever outcomes. */
module CronHistory {
  import opened Common
  import opened CronRetry

  /** The task after the given runs, oldest first. */
  function AfterRuns(t: TaskState, settings: Settings, runs: seq<Finished>): TaskState {
    if runs == [] then t
    else AfterRun(AfterRuns(t, settings, runs[..|runs| - 1]), settings, runs[|runs| - 1])
  }

  /** Every row those runs wrote, archived or not. */
  function Rows(t: TaskState, settings: Settings, runs: seq<Finished>): seq<HistoryItem> {
    if runs == [] then []
    else
      var init := runs[..|runs| - 1];
      Rows(t, settings, init) + [RowOf(AfterRuns(t, settings, init), runs[|runs| - 1])]
  }

  /** The number of the newest row of an occurrence, 0 if it has none. */
  function LastAttempt(rows: seq<HistoryItem>, scheduledAt: int): int {
    if rows == [] then 0
    else if rows[|rows| - 1].scheduledAt == scheduledAt then rows[|rows| - 1].attempt
    else LastAttempt(rows[..|rows| - 1], scheduledAt)
  }

  /** How many rows came after the newest one of an occurrence. */
  function Since(rows: seq<HistoryItem>, scheduledAt: int): nat {
    if rows == [] || rows[|rows| - 1].scheduledAt == scheduledAt then 0
    else 1 + Since(rows[..|rows| - 1], scheduledAt)
  }

  predicate OnRecord(rows: seq<HistoryItem>, scheduledAt: int) {
    exists row <- rows :: row.scheduledAt == scheduledAt
  }

  /** The rows of one occurrence are numbered upwards. */
  predicate Increasing(rows: seq<HistoryItem>) {
    && (forall i :: 0 <= i < |rows| ==> rows[i].attempt >= 1)
    && (forall i, j :: 0 <= i < j < |rows| && rows[i].scheduledAt == rows[j].scheduledAt ==>
          rows[i].attempt < rows[j].attempt)
  }

  /** A task as its runs leave it: rows numbered upwards, and a retry state that names the newest row. */
  predicate Numbered(t: TaskState) {
    && Increasing(t.runHistory)
    && (t.retryState.Some? ==>
          && t.runHistory != []
          && var last := t.runHistory[|t.runHistory| - 1];
             t.retryState.value.scheduledAt == last.scheduledAt && t.retryState.value.attempt == last.attempt)
  }

  lemma {:induction false} HighestIsLast(rows: seq<HistoryItem>, scheduledAt: int)
    requires Increasing(rows)
    ensures MaxAttempt(rows, scheduledAt) == LastAttempt(rows, scheduledAt) >= 0
    ensures LastAttempt(rows, scheduledAt) > 0 <==> OnRecord(rows, scheduledAt)
    ensures forall row <- rows :: row.scheduledAt == scheduledAt ==> row.attempt <= LastAttempt(rows, scheduledAt)
  {
    if rows != [] {
      var init, last := rows[..|rows| - 1], rows[|rows| - 1];
      HighestIsLast(init, scheduledAt);
      assert rows == init + [last];
      if OnRecord(init, scheduledAt) && last.scheduledAt == scheduledAt {
        LastIsARow(init, scheduledAt);
      }
    }
  }

  lemma {:induction false} LastIsARow(rows: seq<HistoryItem>, scheduledAt: int)
    requires OnRecord(rows, scheduledAt)
    ensures exists i :: 0 <= i < |rows| && rows[i].scheduledAt == scheduledAt
                        && rows[i].attempt == LastAttempt(rows, scheduledAt)
  {
    var init, last := rows[..|rows| - 1], rows[|rows| - 1];
    assert rows == init + [last];
    if last.scheduledAt != scheduledAt {
      LastIsARow(init, scheduledAt);
      var i :| 0 <= i < |init| && init[i].scheduledAt == scheduledAt
               && init[i].attempt == LastAttempt(init, scheduledAt);
      assert rows[i] == init[i];
    }
  }

  /** So the next number is one past the newest row on record; the retry state never adds to that. */
  lemma NextFollowsLast(t: TaskState, scheduledAt: int)
    requires Numbered(t)
    ensures NextAttempt(t, scheduledAt) == LastAttempt(t.runHistory, scheduledAt) + 1
  {
    HighestIsLast(t.runHistory, scheduledAt);
    hide Increasing, MaxAttempt;
  }

  /** True if the run limit is reached by one more run. */
  predicate LastRun(t: TaskState, settings: Settings) {
    settings.maxRuns.Some? && t.runCount + 1 >= settings.maxRuns.value
  }

  /** One run, field by field. */
  lemma OneRun(t: TaskState, settings: Settings, run: Finished)
    ensures var row := RowOf(t, run);
            var next := AfterRun(t, settings, run);
            && next.runHistory == Newest(t.runHistory + [row], HistoryCap(settings.maxRunHistory))
            && next.retryState == (if LastRun(t, settings) then None
                                   else Transition(settings.retryPolicy, run.scheduledAt, row.attempt,
                                                   run.status, run.at))
            && next.runCount == (if settings.maxRuns.Some? then t.runCount + 1 else t.runCount)
            && next.lastRunAt == Some(run.scheduledAt)
            && (next.enabled <==> t.enabled && !LastRun(t, settings) && !(run.status == Success && settings.oneShot))
  {
    hide Transition, HistoryCap, Newest, RowOf;
  }

  lemma TransitionNames(settings: Settings, scheduledAt: int, attempt: int, status: RunStatus, at: int)
    ensures var s := Transition(settings.retryPolicy, scheduledAt, attempt, status, at);
            s.Some? ==> s.value.scheduledAt == scheduledAt && s.value.attempt == attempt
  {
    hide RetryDelay, FromSpec, TruncateMinute;
  }

  lemma {:induction false} NumberingKept(t: TaskState, settings: Settings, run: Finished)
    requires Numbered(t)
    ensures Numbered(AfterRun(t, settings, run))
  {
    hide AfterRun, Transition, Increasing, NextAttempt, MaxAttempt, LastAttempt, HistoryCap, Newest, LastRun;
    var row, cap := RowOf(t, run), HistoryCap(settings.maxRunHistory);
    NextFollowsLast(t, run.scheduledAt);
    HighestIsLast(t.runHistory, run.scheduledAt);
    OneMoreRow(t.runHistory, row);
    NewestIncreases(t.runHistory + [row], cap);
    OneRun(t, settings, run);
    TransitionNames(settings, run.scheduledAt, row.attempt, run.status, run.at);
    assert (t.runHistory + [row])[|t.runHistory|] == row;
  }

  lemma OneMoreRow(rows: seq<HistoryItem>, row: HistoryItem)
    requires Increasing(rows) && row.attempt >= 1
    requires forall r <- rows :: r.scheduledAt == row.scheduledAt ==> r.attempt < row.attempt
    ensures Increasing(rows + [row])
  {
    forall i | 0 <= i < |rows| && rows[i].scheduledAt == row.scheduledAt ensures rows[i].attempt < row.attempt {
      assert rows[i] in rows;
    }
  }

  lemma NewestIncreases(rows: seq<HistoryItem>, cap: nat)
    requires Increasing(rows) && cap >= 1 && rows != []
    ensures Increasing(Newest(rows, cap)) && Newest(rows, cap) != []
    ensures Newest(rows, cap)[|Newest(rows, cap)| - 1] == rows[|rows| - 1]
  {
  }

  lemma {:induction false} RunsKeepNumbering(t: TaskState, settings: Settings, runs: seq<Finished>)
    requires Numbered(t)
    ensures Numbered(AfterRuns(t, settings, runs))
  {
    if runs != [] {
      RunsKeepNumbering(t, settings, runs[..|runs| - 1]);
      NumberingKept(AfterRuns(t, settings, runs[..|runs| - 1]), settings, runs[|runs| - 1]);
    }
    hide Numbered, AfterRun;
  }

  /** The history is the newest rows of everything ever written, whatever was archived in between. */
  lemma {:induction false} HistoryIsNewest(t: TaskState, settings: Settings, runs: seq<Finished>)
    ensures runs != [] ==>
              AfterRuns(t, settings, runs).runHistory ==
              Newest(t.runHistory + Rows(t, settings, runs), HistoryCap(settings.maxRunHistory))
  {
    hide AfterRun, HistoryCap, RowOf, Newest, Transition;
    if runs != [] {
      var init, cap := runs[..|runs| - 1], HistoryCap(settings.maxRunHistory);
      var before := AfterRuns(t, settings, init);
      var row, all := RowOf(before, runs[|runs| - 1]), t.runHistory + Rows(t, settings, init);
      HistoryIsNewest(t, settings, init);
      OneRun(before, settings, runs[|runs| - 1]);
      assert t.runHistory + Rows(t, settings, runs) == all + [row];
      if init == [] {
        assert all == t.runHistory;
      } else {
        NewestOfNewest(all, row, cap);
      }
    }
  }

  lemma NewestOfNewest(rows: seq<HistoryItem>, row: HistoryItem, cap: nat)
    requires cap >= 1
    ensures Newest(Newest(rows, cap) + [row], cap) == Newest(rows + [row], cap)
  {
  }

  /** An occurrence stays on record until as many rows as the cap were written after its newest one. */
  lemma {:induction false} RecordIffRecent(rows: seq<HistoryItem>, scheduledAt: int, cap: nat)
    requires cap >= 1
    ensures OnRecord(Newest(rows, cap), scheduledAt) <==> OnRecord(rows, scheduledAt) && Since(rows, scheduledAt) < cap
    ensures OnRecord(Newest(rows, cap), scheduledAt) ==>
              LastAttempt(Newest(rows, cap), scheduledAt) == LastAttempt(rows, scheduledAt)
  {
    if rows != [] {
      var init, last := rows[..|rows| - 1], rows[|rows| - 1];
      assert rows == init + [last];
      var kept := Newest(rows, cap);
      assert kept[|kept| - 1] == last;
      if last.scheduledAt == scheduledAt {
        assert last in kept;
      } else if cap == 1 {
        assert kept == [last];
      } else {
        RecordIffRecent(init, scheduledAt, cap - 1);
        assert kept == Newest(init, cap - 1) + [last];
      }
    }
  }

  lemma {:induction false} RowsArePositive(t: TaskState, settings: Settings, runs: seq<Finished>)
    requires Increasing(t.runHistory)
    ensures |Rows(t, settings, runs)| == |runs|
    ensures forall row <- t.runHistory + Rows(t, settings, runs) :: row.attempt >= 1
  {
    hide AfterRun, MaxAttempt;
    if runs != [] {
      RowsArePositive(t, settings, runs[..|runs| - 1]);
    }
  }

  lemma {:induction false} LastIsPositive(rows: seq<HistoryItem>, scheduledAt: int)
    requires forall row <- rows :: row.attempt >= 1
    ensures LastAttempt(rows, scheduledAt) >= 0
    ensures LastAttempt(rows, scheduledAt) > 0 <==> OnRecord(rows, scheduledAt)
  {
    if OnRecord(rows, scheduledAt) {
      LastIsARow(rows, scheduledAt);
    } else if rows != [] {
      assert rows == rows[..|rows| - 1] + [rows[|rows| - 1]];
      LastIsPositive(rows[..|rows| - 1], scheduledAt);
    }
  }

  /** Every row of a task: those it had and those the runs wrote. */
  function All(t: TaskState, settings: Settings, runs: seq<Finished>): seq<HistoryItem> {
    t.runHistory + Rows(t, settings, runs)
  }

  /** Is the newest run of the occurrence still among the rows kept? */
  predicate Remembered(t: TaskState, settings: Settings, runs: seq<Finished>, scheduledAt: int) {
    && OnRecord(All(t, settings, runs), scheduledAt)
    && (runs == [] || Since(All(t, settings, runs), scheduledAt) < HistoryCap(settings.maxRunHistory))
  }

  /** The number the next run of an occurrence gets, after any runs: one more than its last run if that is still among
      the rows kept, and 1 otherwise. */
  lemma NextNumber(t: TaskState, settings: Settings, runs: seq<Finished>, scheduledAt: int)
    requires Numbered(t)
    ensures var last := LastAttempt(All(t, settings, runs), scheduledAt);
            && last >= 0
            && (last > 0 <==> OnRecord(All(t, settings, runs), scheduledAt))
            && NextAttempt(AfterRuns(t, settings, runs), scheduledAt) ==
               if Remembered(t, settings, runs, scheduledAt) then last + 1 else 1
  {
    hide AfterRun, NextAttempt, Increasing, HistoryCap, Newest, LastAttempt, OnRecord, Since;
    var all := All(t, settings, runs);
    RowsArePositive(t, settings, runs);
    LastIsPositive(all, scheduledAt);
    HistoryIsNewest(t, settings, runs);
    RecordIffRecent(all, scheduledAt, HistoryCap(settings.maxRunHistory));
    RunsKeepNumbering(t, settings, runs);
    NextFollowsLast(AfterRuns(t, settings, runs), scheduledAt);
    HighestIsLast(AfterRuns(t, settings, runs).runHistory, scheduledAt);
    assert runs == [] ==> all == t.runHistory;
  }

  /** Whenever the occurrence runs again, its run before is still among the rows kept. */
  predicate Unbroken(t: TaskState, settings: Settings, runs: seq<Finished>, scheduledAt: int) {
    runs != [] ==>
      var init := runs[..|runs| - 1];
      && Unbroken(t, settings, init, scheduledAt)
      && (runs[|runs| - 1].scheduledAt == scheduledAt && OnRecord(All(t, settings, init), scheduledAt) ==>
            Remembered(t, settings, init, scheduledAt))
  }

  function Count(runs: seq<Finished>, scheduledAt: int): nat {
    if runs == [] then 0
    else Count(runs[..|runs| - 1], scheduledAt) + (if runs[|runs| - 1].scheduledAt == scheduledAt then 1 else 0)
  }

  /** The runs of the occurrence are numbered 1, 2, 3, ... */
  predicate Consecutive(t: TaskState, settings: Settings, runs: seq<Finished>, scheduledAt: int) {
    runs != [] ==>
      var init, last := runs[..|runs| - 1], runs[|runs| - 1];
      && Consecutive(t, settings, init, scheduledAt)
      && (last.scheduledAt == scheduledAt ==>
            NextAttempt(AfterRuns(t, settings, init), scheduledAt) == Count(runs, scheduledAt))
  }

  lemma NoRunsYet(t: TaskState, settings: Settings)
    ensures All(t, settings, []) == t.runHistory
  {
  }

  /** Whatever else runs in between and however the runs end, the runs of a new occurrence are numbered 1, 2, 3, ...
      if and only if it never runs again after as many other runs as rows are kept. */
  lemma {:induction false} RunsAreNumbered(t: TaskState, settings: Settings, runs: seq<Finished>, scheduledAt: int)
    requires Numbered(t) && !OnRecord(t.runHistory, scheduledAt)
    ensures Consecutive(t, settings, runs, scheduledAt) <==> Unbroken(t, settings, runs, scheduledAt)
    ensures Unbroken(t, settings, runs, scheduledAt) ==>
              LastAttempt(All(t, settings, runs), scheduledAt) == Count(runs, scheduledAt)
  {
    hide AfterRun, NextAttempt, Numbered, Remembered, OnRecord, LastAttempt, AfterRuns, All;
    NextNumber(t, settings, runs, scheduledAt);
    if runs == [] {
      NoRunsYet(t, settings);
    } else {
      var init := runs[..|runs| - 1];
      RunsAreNumbered(t, settings, init, scheduledAt);
      NextNumber(t, settings, init, scheduledAt);
      OneMore(t, settings, runs, scheduledAt);
    }
  }

  lemma OneMore(t: TaskState, settings: Settings, runs: seq<Finished>, scheduledAt: int)
    requires runs != []
    ensures var init, last := runs[..|runs| - 1], runs[|runs| - 1];
            LastAttempt(All(t, settings, runs), scheduledAt) ==
            if last.scheduledAt == scheduledAt then NextAttempt(AfterRuns(t, settings, init), scheduledAt)
            else LastAttempt(All(t, settings, init), scheduledAt)
  {
    hide NextAttempt, AfterRuns;
    var init := runs[..|runs| - 1];
    assert All(t, settings, runs) == All(t, settings, init) + [RowOf(AfterRuns(t, settings, init), runs[|runs| - 1])];
  }

  /** True if those runs reach the run limit. */
  predicate Spent(t: TaskState, settings: Settings, runs: seq<Finished>) {
    settings.maxRuns.Some? && t.runCount + |runs| >= settings.maxRuns.value
  }

  lemma {:induction false} RunsAreCounted(t: TaskState, settings: Settings, runs: seq<Finished>)
    ensures AfterRuns(t, settings, runs).runCount == t.runCount + (if settings.maxRuns.Some? then |runs| else 0)
  {
    hide AfterRun, Transition, Newest, NextAttempt;
    if runs != [] {
      RunsAreCounted(t, settings, runs[..|runs| - 1]);
      OneRun(AfterRuns(t, settings, runs[..|runs| - 1]), settings, runs[|runs| - 1]);
    }
  }

  /** The retry state always speaks of the last run, whatever was pending before. */
  lemma RetryFollowsLastRun(t: TaskState, settings: Settings, runs: seq<Finished>)
    requires runs != []
    ensures var last := runs[|runs| - 1];
            var attempt := NextAttempt(AfterRuns(t, settings, runs[..|runs| - 1]), last.scheduledAt);
            AfterRuns(t, settings, runs).retryState ==
            if Spent(t, settings, runs) then None
            else Transition(settings.retryPolicy, last.scheduledAt, attempt, last.status, last.at)
    ensures Spent(t, settings, runs) ==> !AfterRuns(t, settings, runs).enabled
  {
    hide AfterRun, Transition, Newest, NextAttempt;
    RunsAreCounted(t, settings, runs[..|runs| - 1]);
    OneRun(AfterRuns(t, settings, runs[..|runs| - 1]), settings, runs[|runs| - 1]);
  }

  predicate Declared(settings: Settings) {
    settings.retryPolicy.Some? && settings.retryPolicy.value.Declared()
  }

  /** What a tick sees after any runs. A retry is on offer exactly when the last run failed or timed out, a policy was
      declared and the run limit is not reached; it is ready from a known minute on, exactly while attempts are left. */
  lemma RetriesUntilExhausted(t: TaskState, settings: Settings, runs: seq<Finished>, now: int)
    requires Numbered(t) && runs != []
    ensures var last := runs[|runs| - 1];
            var attempt := LastAttempt(All(t, settings, runs), last.scheduledAt);
            var policy := FromSpec(settings.retryPolicy);
            var view := ViewOf(AfterRuns(t, settings, runs).retryState, policy, now);
            && (view.Some? <==> last.status != Success && Declared(settings) && !Spent(t, settings, runs))
            && (view.Some? ==>
                  && attempt >= 1
                  && view.value.scheduledAt == last.scheduledAt
                  && (view.value.exhausted <==> attempt >= policy.maxAttempts)
                  && (view.value.ready <==>
                        attempt < policy.maxAttempts && TruncateMinute(last.at + IdealDelay(policy, attempt)) <= now)
                  && view.value.attempt == (if view.value.ready then attempt + 1 else attempt))
  {
    hide FromSpec, AfterRuns, All, NextAttempt, Spent, TruncateMinute, RetryDelay, IdealDelay, LastAttempt, Rows;
    var last, init := runs[|runs| - 1], runs[..|runs| - 1];
    RetryFollowsLastRun(t, settings, runs);
    OneMore(t, settings, runs, last.scheduledAt);
    NextNumber(t, settings, init, last.scheduledAt);
    DelayIsIdeal(settings.retryPolicy, LastAttempt(All(t, settings, runs), last.scheduledAt));
  }

  /** After an occurrence has used up its attempts it is never ready again, whatever runs in between and even if it runs
      again itself, as long as its runs stay on record. */
  lemma ExhaustedForGood(t: TaskState, settings: Settings, runs: seq<Finished>, scheduledAt: int, now: int)
    requires Numbered(t) && Unbroken(t, settings, runs, scheduledAt)
    requires LastAttempt(t.runHistory, scheduledAt) >= FromSpec(settings.retryPolicy).maxAttempts
    ensures LastAttempt(All(t, settings, runs), scheduledAt) >= FromSpec(settings.retryPolicy).maxAttempts
    ensures var view := ViewOf(AfterRuns(t, settings, runs).retryState, FromSpec(settings.retryPolicy), now);
            view.Some? && view.value.scheduledAt == scheduledAt ==> !view.value.ready && view.value.exhausted
  {
    StaysAbove(t, settings, runs, scheduledAt, FromSpec(settings.retryPolicy).maxAttempts);
    hide FromSpec, Numbered, AfterRun, All, Spent, TruncateMinute, IdealDelay, Unbroken;
    if runs == [] {
      assert AfterRuns(t, settings, runs) == t;
      NumberedView(t, settings, scheduledAt, now);
    } else {
      RetriesUntilExhausted(t, settings, runs, now);
    }
  }

  lemma {:induction false} StaysAbove(
      t: TaskState, settings: Settings, runs: seq<Finished>, scheduledAt: int, bound: int)
    requires Numbered(t) && Unbroken(t, settings, runs, scheduledAt)
    requires LastAttempt(t.runHistory, scheduledAt) >= bound >= 1
    ensures LastAttempt(All(t, settings, runs), scheduledAt) >= bound
  {
    hide AfterRun, NextAttempt, Numbered, Remembered, OnRecord, LastAttempt, AfterRuns, All;
    if runs == [] {
      NoRunsYet(t, settings);
    } else {
      var init := runs[..|runs| - 1];
      StaysAbove(t, settings, init, scheduledAt, bound);
      NextNumber(t, settings, init, scheduledAt);
      OneMore(t, settings, runs, scheduledAt);
    }
  }

  lemma NumberedView(t: TaskState, settings: Settings, scheduledAt: int, now: int)
    requires Numbered(t)
    requires LastAttempt(t.runHistory, scheduledAt) >= FromSpec(settings.retryPolicy).maxAttempts
    ensures var view := ViewOf(t.retryState, FromSpec(settings.retryPolicy), now);
            view.Some? && view.value.scheduledAt == scheduledAt ==> !view.value.ready && view.value.exhausted
  {
    hide Increasing, FromSpec;
  }

  /** The other half, though the due rule below never asks for it: once as many other runs as rows are kept came after
      it, an exhausted occurrence that runs again starts over at 1, and is ready again if attempts are left. */
  lemma ForgottenStartsOver(t: TaskState, settings: Settings, runs: seq<Finished>, run: Finished, now: int)
    requires Numbered(t) && !Remembered(t, settings, runs, run.scheduledAt)
    ensures var policy := FromSpec(settings.retryPolicy);
            var view := ViewOf(AfterRuns(t, settings, runs + [run]).retryState, policy, now);
            && LastAttempt(All(t, settings, runs + [run]), run.scheduledAt) == 1
            && (run.status != Success && Declared(settings) && !Spent(t, settings, runs + [run])
                && policy.maxAttempts > 1 && TruncateMinute(run.at + IdealDelay(policy, 1)) <= now ==>
                  && view.Some? && view.value.scheduledAt == run.scheduledAt
                  && view.value.ready && view.value.attempt == 2)
  {
    hide FromSpec, Numbered, Remembered, AfterRun, AfterRuns, All, NextAttempt, LastAttempt, Spent, TruncateMinute,
      IdealDelay;
    assert (runs + [run])[..|runs + [run]| - 1] == runs;
    NextNumber(t, settings, runs, run.scheduledAt);
    OneMore(t, settings, runs + [run], run.scheduledAt);
    RetriesUntilExhausted(t, settings, runs + [run], now);
  }

  // What the scheduler lets run.

  /** A schedule only comes up with occurrences after the last one run. */
  ghost predicate Proper(settings: Settings) {
    forall last, at :: settings.pending(Some(last), at).Some? ==> last < settings.pending(Some(last), at).value
  }

  /** A run is due, at a whole minute, if its occurrence is the newest that has come up since the last one run; only if
      there is none may it be the retry that is ready. */
  predicate Due(t: TaskState, settings: Settings, run: Finished) {
    && t.enabled && run.at % 60 == 0
    && (settings.maxRuns.Some? ==> t.runCount < settings.maxRuns.value)
    && (settings.notBefore.Some? ==> settings.notBefore.value <= run.at)
    && var newest := settings.pending(t.lastRunAt, run.at);
       if newest.Some? then run.scheduledAt == newest.value else RetryDue(t, settings, run)
  }

  predicate RetryDue(t: TaskState, settings: Settings, run: Finished) {
    var view := ViewOf(t.retryState, FromSpec(settings.retryPolicy), run.at);
    view.Some? && view.value.ready && view.value.scheduledAt == run.scheduledAt
  }

  /** Each run was due when it started. */
  predicate DueInTurn(t: TaskState, settings: Settings, runs: seq<Finished>) {
    runs != [] ==>
      && DueInTurn(t, settings, runs[..|runs| - 1])
      && Due(AfterRuns(t, settings, runs[..|runs| - 1]), settings, runs[|runs| - 1])
  }

  /** A task that has not run yet. */
  predicate Fresh(t: TaskState) {
    t.runHistory == [] && t.retryState.None? && t.lastRunAt.None? && t.runCount == 0
  }

  lemma LastRunIsNoted(t: TaskState, settings: Settings, runs: seq<Finished>)
    requires runs != []
    ensures AfterRuns(t, settings, runs).lastRunAt == Some(runs[|runs| - 1].scheduledAt)
    ensures OnRecord(All(t, settings, runs), runs[|runs| - 1].scheduledAt)
    ensures Remembered(t, settings, runs, runs[|runs| - 1].scheduledAt)
  {
    hide AfterRun, Newest, NextAttempt;
    var init := runs[..|runs| - 1];
    var row := RowOf(AfterRuns(t, settings, init), runs[|runs| - 1]);
    OneRun(AfterRuns(t, settings, init), settings, runs[|runs| - 1]);
    assert All(t, settings, runs) == All(t, settings, init) + [row];
    assert row in All(t, settings, runs);
  }

  /** A retry that is due is a second run of the last occurrence, which failed with attempts to spare, from the minute
      in which its delay ends. */
  lemma RetryIsDue(t: TaskState, settings: Settings, runs: seq<Finished>, run: Finished)
    requires Numbered(t) && runs != [] && RetryDue(AfterRuns(t, settings, runs), settings, run)
    ensures var last := runs[|runs| - 1];
            var attempt := LastAttempt(All(t, settings, runs), last.scheduledAt);
            && run.scheduledAt == last.scheduledAt && last.status != Success
            && 1 <= attempt < FromSpec(settings.retryPolicy).maxAttempts
            && TruncateMinute(last.at + IdealDelay(FromSpec(settings.retryPolicy), attempt)) <= run.at
  {
    hide FromSpec, AfterRuns, All, LastAttempt, Spent, TruncateMinute, IdealDelay, Numbered;
    RetriesUntilExhausted(t, settings, runs, run.at);
  }

  /** Occurrences run in their order. */
  lemma {:induction false} RunsAreInOrder(t: TaskState, settings: Settings, runs: seq<Finished>)
    requires Proper(settings) && Fresh(t) && DueInTurn(t, settings, runs)
    ensures forall i, j :: 0 <= i < j < |runs| ==> runs[i].scheduledAt <= runs[j].scheduledAt
  {
    hide AfterRun, RetryDue, Remembered, All;
    if |runs| > 1 {
      var init, run := runs[..|runs| - 1], runs[|runs| - 1];
      RunsAreInOrder(t, settings, init);
      LastRunIsNoted(t, settings, init);
      if RetryDue(AfterRuns(t, settings, init), settings, run) {
        RetryIsDue(t, settings, init, run);
      }
      assert init[|init| - 1].scheduledAt <= run.scheduledAt;
      forall i | 0 <= i < |init| ensures runs[i].scheduledAt <= run.scheduledAt {
        assert runs[i] == init[i];
      }
    }
  }

  lemma {:induction false} CountOfNone(runs: seq<Finished>, scheduledAt: int)
    requires forall run <- runs :: run.scheduledAt != scheduledAt
    ensures Count(runs, scheduledAt) == 0
  {
    if runs != [] {
      CountOfNone(runs[..|runs| - 1], scheduledAt);
    }
  }

  /** In any history of a new task its scheduler allowed, the runs of every occurrence are numbered 1, 2, 3, ..., there
      are at most as many as the policy has attempts, and the run limit holds. */
  lemma {:induction false} AttemptsAreBounded(t: TaskState, settings: Settings, runs: seq<Finished>, scheduledAt: int)
    requires Proper(settings) && Fresh(t) && DueInTurn(t, settings, runs)
    ensures Unbroken(t, settings, runs, scheduledAt) && Consecutive(t, settings, runs, scheduledAt)
    ensures LastAttempt(All(t, settings, runs), scheduledAt) == Count(runs, scheduledAt)
    ensures Count(runs, scheduledAt) <= FromSpec(settings.retryPolicy).maxAttempts
    ensures runs != [] && settings.maxRuns.Some? ==> |runs| <= settings.maxRuns.value
  {
    hide AfterRun, RetryDue, Remembered, All, FromSpec, LastAttempt, OnRecord, TruncateMinute, IdealDelay, Consecutive;
    FreshIsNumbered(t, scheduledAt);
    RunsAreNumbered(t, settings, runs, scheduledAt);
    if runs != [] {
      var init, run := runs[..|runs| - 1], runs[|runs| - 1];
      AttemptsAreBounded(t, settings, init, scheduledAt);
      RunsAreCounted(t, settings, init);
      if run.scheduledAt == scheduledAt {
        if RetryDue(AfterRuns(t, settings, init), settings, run) && init != [] {
          RetryIsDue(t, settings, init, run);
          LastRunIsNoted(t, settings, init);
        } else {
          LaterIsNew(t, settings, runs);
        }
        NextNumber(t, settings, init, scheduledAt);
      }
    }
  }

  lemma FreshIsNumbered(t: TaskState, scheduledAt: int)
    requires Fresh(t)
    ensures Numbered(t) && !OnRecord(t.runHistory, scheduledAt)
  {
  }

  lemma LaterIsNew(t: TaskState, settings: Settings, runs: seq<Finished>)
    requires Proper(settings) && Fresh(t) && DueInTurn(t, settings, runs) && runs != []
    requires |runs| > 1 ==> !RetryDue(AfterRuns(t, settings, runs[..|runs| - 1]), settings, runs[|runs| - 1])
    ensures Count(runs[..|runs| - 1], runs[|runs| - 1].scheduledAt) == 0
  {
    hide AfterRun, RetryDue, Remembered, All;
    var init, run := runs[..|runs| - 1], runs[|runs| - 1];
    if init != [] {
      RunsAreInOrder(t, settings, init);
      LastRunIsNoted(t, settings, init);
      CountOfNone(init, run.scheduledAt);
    }
  }

  /** A second run of an occurrence directly follows one that failed with attempts to spare, and comes no earlier than
      the minute in which the delay of its number ends; so a success is the last run of its occurrence. */
  lemma RetryWaits(t: TaskState, settings: Settings, runs: seq<Finished>)
    requires Proper(settings) && Fresh(t) && DueInTurn(t, settings, runs) && |runs| > 1
    requires Count(runs[..|runs| - 1], runs[|runs| - 1].scheduledAt) > 0
    ensures var before, run := runs[|runs| - 2], runs[|runs| - 1];
            var attempt := Count(runs[..|runs| - 1], run.scheduledAt);
            && before.scheduledAt == run.scheduledAt && before.status != Success
            && attempt < FromSpec(settings.retryPolicy).maxAttempts
            && TruncateMinute(before.at + IdealDelay(FromSpec(settings.retryPolicy), attempt)) <= run.at
  {
    hide AfterRun, RetryDue, All, FromSpec, LastAttempt, OnRecord, TruncateMinute, IdealDelay, Consecutive, Unbroken,
      Fresh, Numbered, Count, AfterRuns;
    var init, run := runs[..|runs| - 1], runs[|runs| - 1];
    FreshIsNumbered(t, run.scheduledAt);
    AttemptsAreBounded(t, settings, init, run.scheduledAt);
    if !RetryDue(AfterRuns(t, settings, init), settings, run) {
      LaterIsNew(t, settings, runs);
    } else {
      RetryIsDue(t, settings, init, run);
    }
  }

  /** The delay before the next run of the last occurrence. */
  function DelayAfter(settings: Settings, runs: seq<Finished>): int
    requires runs != []
  {
    var attempt := Count(runs, runs[|runs| - 1].scheduledAt);
    if attempt < 1 then 0 else IdealDelay(FromSpec(settings.retryPolicy), attempt)
  }

  /** The task may run, and no occurrence after this one has come up. */
  predicate NothingNewer(settings: Settings, last: Finished, at: int) {
    && (settings.notBefore.Some? ==> settings.notBefore.value <= at)
    && settings.pending(Some(last.scheduledAt), at).None?
  }

  /** Exactly when the last occurrence is due again: at any whole minute from its delay on before a newer occurrence
      comes up; but a delay counts in full minutes only. */
  lemma RetryStarts(t: TaskState, settings: Settings, runs: seq<Finished>, run: Finished)
    requires Proper(settings) && Fresh(t) && DueInTurn(t, settings, runs) && runs != []
    requires run.scheduledAt == runs[|runs| - 1].scheduledAt
    ensures var last, delay := runs[|runs| - 1], DelayAfter(settings, runs);
            Due(AfterRuns(t, settings, runs), settings, run) <==>
              && last.status != Success && Declared(settings) && !Spent(t, settings, runs)
              && Count(runs, last.scheduledAt) < FromSpec(settings.retryPolicy).maxAttempts
              && run.at % 60 == 0 && last.at + delay - delay % 60 <= run.at
              && NothingNewer(settings, last, run.at)
  {
    hide AfterRun, All, FromSpec, LastAttempt, IdealDelay, Numbered, AfterRuns, NextAttempt, Newest, OnRecord, Count,
      Remembered, Unbroken, Consecutive;
    var last, delay := runs[|runs| - 1], DelayAfter(settings, runs);
    FreshIsNumbered(t, last.scheduledAt);
    AttemptsAreBounded(t, settings, runs, last.scheduledAt);
    RetriesUntilExhausted(t, settings, runs, run.at);
    LastRunIsNoted(t, settings, runs);
    StillEnabled(t, settings, runs);
    RunsAreCounted(t, settings, runs);
    FullMinutes(last.at, delay);
  }

  lemma StillEnabled(t: TaskState, settings: Settings, runs: seq<Finished>)
    requires DueInTurn(t, settings, runs) && runs != []
    ensures var last := runs[|runs| - 1];
            AfterRuns(t, settings, runs).enabled <==>
            !Spent(t, settings, runs) && !(last.status == Success && settings.oneShot)
    ensures runs[|runs| - 1].at % 60 == 0
  {
    hide AfterRun, Transition, Newest, NextAttempt, RetryDue;
    RunsAreCounted(t, settings, runs[..|runs| - 1]);
    OneRun(AfterRuns(t, settings, runs[..|runs| - 1]), settings, runs[|runs| - 1]);
  }

  lemma FullMinutes(at: int, delay: int)
    requires at % 60 == 0
    ensures TruncateMinute(at + delay) == at + delay - delay % 60
  {
  }

  /** Whatever happened before: an occurrence with attempts to spare is due again from a first minute on, as long as
      nothing newer is, and that minute comes before its delay is over if and only if the delay is not in full minutes,
      and then by the odd seconds of it, never by a minute. */
  lemma RetryMayBeEarly(t: TaskState, settings: Settings, runs: seq<Finished>, status: RunStatus)
    requires Proper(settings) && Fresh(t) && DueInTurn(t, settings, runs) && runs != []
    requires runs[|runs| - 1].status != Success && Declared(settings) && !Spent(t, settings, runs)
    requires Count(runs, runs[|runs| - 1].scheduledAt) < FromSpec(settings.retryPolicy).maxAttempts
    ensures var last, delay := runs[|runs| - 1], DelayAfter(settings, runs);
            var first := last.at + delay - delay % 60;
            && (Due(AfterRuns(t, settings, runs), settings, Finished(last.scheduledAt, status, first)) <==>
                  NothingNewer(settings, last, first))
            && (forall at :: at < first ==>
                  !Due(AfterRuns(t, settings, runs), settings, Finished(last.scheduledAt, status, at)))
            && (first < last.at + delay <==> delay % 60 != 0)
            && last.at + delay - first < 60
  {
    hide AfterRun, AfterRuns, FromSpec, Count, IdealDelay, Due, DueInTurn;
    var last, delay := runs[|runs| - 1], DelayAfter(settings, runs);
    var first := last.at + delay - delay % 60;
    StartsInMinute(t, settings, runs);
    RetryStarts(t, settings, runs, Finished(last.scheduledAt, status, first));
    forall at | at < first
      ensures !Due(AfterRuns(t, settings, runs), settings, Finished(last.scheduledAt, status, at))
    {
      RetryStarts(t, settings, runs, Finished(last.scheduledAt, status, at));
    }
  }

  lemma StartsInMinute(t: TaskState, settings: Settings, runs: seq<Finished>)
    requires DueInTurn(t, settings, runs) && runs != []
    ensures var delay := DelayAfter(settings, runs);
            (runs[|runs| - 1].at + delay - delay % 60) % 60 == 0
  {
    StillEnabled(t, settings, runs);
    hide *;
    WholeMinutes(runs[|runs| - 1].at, DelayAfter(settings, runs));
  }

  lemma WholeMinutes(at: int, delay: int)
    requires at % 60 == 0
    ensures (at + delay - delay % 60) % 60 == 0
  {
    assert at + delay - delay % 60 == 60 * (at / 60 + delay / 60);
  }

  /** With a backoff of half a minute the second run starts in the minute of the first: nothing is waited. */
  lemma NothingIsWaited(t: TaskState, settings: Settings, runs: seq<Finished>)
    requires Fresh(t) && t.enabled
    requires settings.retryPolicy == Some(PolicySpec(Some(2), Some(30), None, None)) && settings.maxRuns.None?
    requires settings.notBefore.None? && Proper(settings)
    requires settings.pending(None, 600) == Some(600) && settings.pending(Some(600), 600) == None
    requires runs == [Finished(600, FailedRun, 600), Finished(600, FailedRun, 600)]
    ensures DueInTurn(t, settings, runs)
    ensures DelayAfter(settings, runs[..1]) == 30 && runs[1].at - runs[0].at == 0
  {
    assert runs[..1][..0] == [];
    assert Pow(2, 0) == 1;
    assert Count(runs[..1], 600) == 1;
    DueOnce(t, settings, runs[..1]);
    hide AfterRun, Due;
    RetryStarts(t, settings, runs[..1], runs[1]);
  }

  lemma DueOnce(t: TaskState, settings: Settings, runs: seq<Finished>)
    requires Fresh(t) && t.enabled && |runs| == 1 && runs[0].at % 60 == 0 && settings.maxRuns.None?
    requires settings.notBefore.None? && settings.pending(None, runs[0].at) == Some(runs[0].scheduledAt)
    ensures DueInTurn(t, settings, runs)
  {
    assert runs[..0] == [];
  }
}
