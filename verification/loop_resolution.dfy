/**
 The worker's own loop resolves every job, with no idealised rounds: it is enough that, stretch by
 stretch of its cycles, the reaper gets through once after two minutes and that after five minutes
 some poll finds nothing left to do.
 */
module LoopResolution {
  import opened JobRows
  import opened JobApi
  import opened Worker
  import opened WorkerLoop
  import Q = JobQueue
  import R = Resolution

  // ------------------------------------------- one job in one stretch

  /** Row r at the start of a stretch may have become `row` by the time `now`. */
  ghost predicate Pending(r: Job, row: Job, now: Time) {
    || Terminal(row.status)
    || R.Need(row) < R.Need(r)
    || row == r
    || (r.status == Processing && Waiting(row.status) && row.availableAt <= now && R.Need(row) == R.Need(r))
  }

  /** And by now a job that was processing has been handed back. */
  ghost predicate HandedBack(r: Job, row: Job, now: Time) {
    Pending(r, row, now) && !(row == r && r.status == Processing)
  }

  lemma ReapKeepsRowOk(row: Job, before: Time, now: Time)
    requires RowOk(row, before) && before <= now
    ensures RowOk(ReapRow(row, now), now) && RowOk(row, now)
  {
    assert |REAP_ERROR| <= 2014;
  }

  lemma PassKeepsRowOk(row: Job, now: Time, a: Attempt)
    requires RowOk(row, now)
    ensures RowOk(WorkRow(row, now, a), now)
  {
    if Claimable(row, now) && a.outcome.Raised? {
      PlanFailOk(ClaimRow(row, now), a.outcome.error, true, now);
    }
  }

  lemma CycleKeepsRowOk(row: Job, before: Time, c: Cycle, due: bool, passed: bool, a: Attempt)
    requires RowOk(row, before) && before <= c.now
    ensures RowOk(CycleRow(row, c, due, passed, a), c.now)
  {
    ReapKeepsRowOk(row, before, c.now);
    PassKeepsRowOk(if due && c.reapSent then ReapRow(row, c.now) else row, c.now, a);
  }

  /** A pass that gets its claim through always uses up some of what a job needs. */
  lemma PassProgress(row: Job, now: Time, a: Attempt)
    requires row.maxAttempts >= 1
    ensures WorkRow(row, now, a) == row || Terminal(WorkRow(row, now, a).status) || R.Need(WorkRow(row, now, a)) < R.Need(row)
    ensures Terminal(row.status) ==> WorkRow(row, now, a) == row
  {
  }

  lemma ReapProgress(r: Job, row: Job, before: Time, now: Time)
    requires Pending(r, row, before) && before <= now
    ensures Pending(r, ReapRow(row, now), now)
  {
  }

  lemma CycleStep(r: Job, start: Time, row: Job, before: Time, c: Cycle, due: bool, passed: bool, a: Attempt)
    requires RowOk(r, start) && RowOk(row, before) && before <= c.now && Pending(r, row, before)
    ensures var row' := CycleRow(row, c, due, passed, a);
            && Pending(r, row', c.now)
            && (HandedBack(r, row, before) ==> HandedBack(r, row', c.now))
            && (due && c.reapSent && c.now > start + STALE_PROCESSING ==> HandedBack(r, row', c.now))
  {
    var reaped := if due && c.reapSent then ReapRow(row, c.now) else row;
    ReapProgress(r, row, before, c.now);
    PassProgress(reaped, c.now, a);
  }

  /** A poll that lists nothing leaves a job that was not finished with less to do. */
  lemma IdleMeansProgress(r: Job, start: Time, row: Job, now: Time)
    requires RowOk(r, start) && now >= start + MAX_BACKOFF
    requires HandedBack(r, row, now) && !Claimable(row, now)
    ensures Terminal(row.status) || R.Need(row) < R.Need(r)
  {
  }

  // ------------------------------------------------------ stretches

  /** The clock when the first n cycles are over. */
  function ClockAfter(start: Time, cycles: seq<Cycle>, n: nat): Time
    requires n <= |cycles|
  {
    if n == 0 then start else cycles[n - 1].now
  }

  ghost predicate ClocksOk(start: Time, cycles: seq<Cycle>) {
    && (cycles != [] ==> start <= cycles[0].now)
    && forall i, j :: 0 <= i <= j < |cycles| ==> cycles[i].now <= cycles[j].now
  }

  /** A job's rows, from cycle to cycle. */
  ghost predicate Life(cycles: seq<Cycle>, trace: seq<Trace>, id: string, rows: seq<Job>) {
    && |trace| <= |cycles| && |rows| == |trace| + 1
    && forall j :: 0 <= j < |trace| ==> LifeAt(cycles, trace, id, rows, j)
  }

  ghost predicate LifeAt(cycles: seq<Cycle>, trace: seq<Trace>, id: string, rows: seq<Job>, j: nat)
    requires j < |trace| <= |cycles| && |rows| == |trace| + 1
  {
    rows[j + 1] == CycleRow(rows[j], cycles[j], Due(cycles, j), id in trace[j].passes, cycles[j].work(id))
  }

  lemma {:induction false} LifeOf(before: map<string, Job>, after: map<string, Job>, cycles: seq<Cycle>, trace: seq<Trace>, id: string)
    returns (rows: seq<Job>)
    requires Runs(before, after, cycles, trace) && id in before
    ensures Life(cycles, trace, id, rows) && rows[0] == before[id]
    ensures id in after && rows[|trace|] == after[id]
    ensures forall j :: 0 <= j < |trace| ==> id in trace[j].before && id in trace[j].after && rows[j + 1] == trace[j].after[id]
    decreases |trace|
  {
    if trace == [] {
      rows := [before[id]];
    } else {
      var n := |trace| - 1;
      var front := trace[..n];
      rows := LifeOf(before, trace[n].before, cycles, front, id);
      CycleOnRow(cycles[n], Due(cycles, n), trace[n], id);
      var all := rows + [after[id]];
      assert LifeAt(cycles, trace, id, all, n);
      forall j | 0 <= j < n
        ensures LifeAt(cycles, trace, id, all, j)
        ensures id in trace[j].before && id in trace[j].after && all[j + 1] == trace[j].after[id]
      {
        assert LifeAt(cycles, front, id, rows, j);
        assert front[j] == trace[j];
      }
      rows := all;
    }
  }

  /**
   Cycles `from` to `to`: the reaper is due and gets through more than 120 s after the stretch began,
   and the last cycle is a poll, at least 300 s after it began, that lists nothing.
   */
  ghost predicate Stretch(start: Time, cycles: seq<Cycle>, trace: seq<Trace>, from: nat, to: nat)
    requires to <= |trace| == |cycles|
  {
    && from < to
    && (exists i :: from <= i < to && ReapsAt(cycles, i) && cycles[i].now > ClockAfter(start, cycles, from) + 120 * SECOND)
    && cycles[to - 1].now >= ClockAfter(start, cycles, from) + 300 * SECOND
    && !cycles[to - 1].pop.Woken? && cycles[to - 1].listed && trace[to - 1].listed == []
  }

  ghost predicate ReapsAt(cycles: seq<Cycle>, i: nat)
    requires i < |cycles|
  {
    Due(cycles, i) && cycles[i].reapSent
  }

  lemma {:induction false} RowsStayOk(start: Time, cycles: seq<Cycle>, trace: seq<Trace>, id: string, rows: seq<Job>, n: nat)
    requires Life(cycles, trace, id, rows) && ClocksOk(start, cycles) && RowOk(rows[0], start) && n <= |trace|
    ensures RowOk(rows[n], ClockAfter(start, cycles, n))
  {
    if n > 0 {
      RowsStayOk(start, cycles, trace, id, rows, n - 1);
      assert LifeAt(cycles, trace, id, rows, n - 1);
      CycleKeepsRowOk(rows[n - 1], ClockAfter(start, cycles, n - 1), cycles[n - 1],
                      Due(cycles, n - 1), id in trace[n - 1].passes, cycles[n - 1].work(id));
    }
  }

  lemma StepWithinStretch(start: Time, cycles: seq<Cycle>, trace: seq<Trace>, id: string, rows: seq<Job>, from: nat, j: nat)
    requires Life(cycles, trace, id, rows) && ClocksOk(start, cycles) && RowOk(rows[0], start) && from <= j < |trace|
    requires Pending(rows[from], rows[j], ClockAfter(start, cycles, j))
    ensures Pending(rows[from], rows[j + 1], cycles[j].now)
    ensures HandedBack(rows[from], rows[j], ClockAfter(start, cycles, j)) ==> HandedBack(rows[from], rows[j + 1], cycles[j].now)
    ensures ReapsAt(cycles, j) && cycles[j].now > ClockAfter(start, cycles, from) + STALE_PROCESSING ==>
              HandedBack(rows[from], rows[j + 1], cycles[j].now)
  {
    RowsStayOk(start, cycles, trace, id, rows, from);
    RowsStayOk(start, cycles, trace, id, rows, j);
    assert LifeAt(cycles, trace, id, rows, j);
    CycleStep(rows[from], ClockAfter(start, cycles, from), rows[j], ClockAfter(start, cycles, j), cycles[j],
              Due(cycles, j), id in trace[j].passes, cycles[j].work(id));
  }

  lemma {:induction false} WithinStretch(start: Time, cycles: seq<Cycle>, trace: seq<Trace>, id: string, rows: seq<Job>,
                                         from: nat, i: nat, n: nat)
    requires Life(cycles, trace, id, rows) && ClocksOk(start, cycles) && RowOk(rows[0], start)
    requires from <= n <= |trace| && from <= i < |trace|
    requires ReapsAt(cycles, i) && cycles[i].now > ClockAfter(start, cycles, from) + STALE_PROCESSING
    ensures Pending(rows[from], rows[n], ClockAfter(start, cycles, n))
    ensures i < n ==> HandedBack(rows[from], rows[n], ClockAfter(start, cycles, n))
    decreases n
  {
    if n > from {
      WithinStretch(start, cycles, trace, id, rows, from, i, n - 1);
      StepWithinStretch(start, cycles, trace, id, rows, from, n - 1);
      assert ClockAfter(start, cycles, n) == cycles[n - 1].now;
    }
  }

  /** What an empty list says about a row: it was not claimable after the reaper's turn, and nothing passed over it. */
  lemma IdleCycle(c: Cycle, due: bool, t: Trace, id: string)
    requires CycleOk(c, due, t) && id in t.before && !c.pop.Woken? && c.listed && t.listed == []
    ensures id in t.after && !Claimable(t.after[id], c.now)
  {
    var rows := Reaped(t.before, c, due);
    assert t.passes == [];
    assert !Listed(rows[id], WAITING, c.now);
  }

  lemma StretchProgress(start: Time, cycles: seq<Cycle>, trace: seq<Trace>, id: string, rows: seq<Job>, from: nat, to: nat)
    requires Life(cycles, trace, id, rows) && ClocksOk(start, cycles) && RowOk(rows[0], start)
    requires to <= |trace| == |cycles| && Stretch(start, cycles, trace, from, to)
    requires !Claimable(rows[to], cycles[to - 1].now)
    ensures Terminal(rows[to].status) || R.Need(rows[to]) < R.Need(rows[from])
  {
    var i :| from <= i < to && ReapsAt(cycles, i) && cycles[i].now > ClockAfter(start, cycles, from) + STALE_PROCESSING;
    WithinStretch(start, cycles, trace, id, rows, from, i, to);
    RowsStayOk(start, cycles, trace, id, rows, from);
    IdleMeansProgress(rows[from], ClockAfter(start, cycles, from), rows[to], cycles[to - 1].now);
  }

  /** The run consists of stretches, from each cut to the next. */
  ghost predicate Stretches(start: Time, cycles: seq<Cycle>, trace: seq<Trace>, cuts: seq<nat>)
    requires |trace| == |cycles|
  {
    && cuts != [] && cuts[0] == 0 && cuts[|cuts| - 1] == |trace|
    && (forall k :: 0 <= k < |cuts| ==> cuts[k] <= |trace|)
    && forall k :: 0 <= k < |cuts| - 1 ==> Stretch(start, cycles, trace, cuts[k], cuts[k + 1])
  }

  lemma {:induction false} StretchesUseUpNeed(start: Time, cycles: seq<Cycle>, trace: seq<Trace>, cuts: seq<nat>,
                                              id: string, rows: seq<Job>, k: nat)
    requires Life(cycles, trace, id, rows) && ClocksOk(start, cycles) && RowOk(rows[0], start)
    requires |trace| == |cycles| && Stretches(start, cycles, trace, cuts) && k < |cuts|
    requires forall k :: 0 < k < |cuts| ==> 0 < cuts[k] <= |trace| && !Claimable(rows[cuts[k]], cycles[cuts[k] - 1].now)
    ensures Terminal(rows[cuts[k]].status) || R.Need(rows[cuts[k]]) + k <= R.Need(rows[0])
  {
    if k > 0 {
      StretchesUseUpNeed(start, cycles, trace, cuts, id, rows, k - 1);
      assert Stretch(start, cycles, trace, cuts[k - 1], cuts[k - 1 + 1]);
      StretchProgress(start, cycles, trace, id, rows, cuts[k - 1], cuts[k]);
      TerminalRowStays(cycles, trace, id, rows, cuts[k - 1], cuts[k]);
    }
  }

  lemma {:induction false} TerminalRowStays(cycles: seq<Cycle>, trace: seq<Trace>, id: string, rows: seq<Job>, m: nat, n: nat)
    requires Life(cycles, trace, id, rows) && m <= n <= |trace|
    ensures Terminal(rows[m].status) ==> rows[n] == rows[m]
    decreases n
  {
    if m < n {
      TerminalRowStays(cycles, trace, id, rows, m, n - 1);
      assert LifeAt(cycles, trace, id, rows, n - 1);
    }
  }

  /** The table at a cut, from the idle cycle just before it. */
  lemma IdleCut(start: Time, before: map<string, Job>, after: map<string, Job>, cycles: seq<Cycle>, trace: seq<Trace>,
                from: nat, to: nat, id: string)
    requires Runs(before, after, cycles, trace) && to <= |trace| == |cycles| && Stretch(start, cycles, trace, from, to)
    requires id in trace[to - 1].before
    ensures id in trace[to - 1].after && !Claimable(trace[to - 1].after[id], cycles[to - 1].now)
  {
    RunsAt(before, after, cycles, trace, to - 1);
    IdleCycle(cycles[to - 1], Due(cycles, to - 1), trace[to - 1], id);
  }

  lemma IdleCuts(start: Time, before: map<string, Job>, after: map<string, Job>, cycles: seq<Cycle>, trace: seq<Trace>,
                 cuts: seq<nat>, id: string, rows: seq<Job>)
    requires Runs(before, after, cycles, trace) && |trace| == |cycles| && Stretches(start, cycles, trace, cuts)
    requires |rows| == |trace| + 1
    requires forall j :: 0 <= j < |trace| ==> id in trace[j].before && id in trace[j].after && rows[j + 1] == trace[j].after[id]
    ensures forall k :: 0 < k < |cuts| ==> 0 < cuts[k] <= |trace| && !Claimable(rows[cuts[k]], cycles[cuts[k] - 1].now)
  {
    forall k | 0 < k < |cuts| ensures 0 < cuts[k] <= |trace| && !Claimable(rows[cuts[k]], cycles[cuts[k] - 1].now) {
      assert Stretch(start, cycles, trace, cuts[k - 1], cuts[k - 1 + 1]);
      IdleCut(start, before, after, cycles, trace, cuts[k - 1], cuts[k], id);
    }
  }

  lemma ReachableJobNeeds(q: Q.Queue, begin: Time, steps: seq<Q.QueueStep>, id: string)
    requires q == Q.ApplyAll(Q.Empty(begin), steps) && id in q.jobs
    ensures id in R.RowsOf(q) && RowOk(R.RowsOf(q)[id], q.now)
    ensures R.Need(R.RowsOf(q)[id]) <= q.jobs[id].row.maxAttempts + 1 <= 21
  {
    Q.EveryReachableJob(begin, steps, id);
  }

  lemma {:induction false} StretchesResolve(start: Time, before: map<string, Job>, after: map<string, Job>, cycles: seq<Cycle>,
                                            trace: seq<Trace>, cuts: seq<nat>, id: string)
    requires id in before && RowOk(before[id], start) && |cuts| - 1 >= R.Need(before[id])
    requires |trace| == |cycles| && Runs(before, after, cycles, trace)
    requires ClocksOk(start, cycles) && Stretches(start, cycles, trace, cuts)
    ensures id in after && Terminal(after[id].status)
  {
    var rows := LifeOf(before, after, cycles, trace, id);
    IdleCuts(start, before, after, cycles, trace, cuts, id, rows);
    StretchesUseUpNeed(start, cycles, trace, cuts, id, rows, |cuts| - 1);
    NeedIsPositive(rows[|trace|]);
  }

  lemma NeedIsPositive(r: Job)
    ensures Terminal(r.status) <==> R.Need(r) == 0
  {
  }

  /**
   Whatever table the services have been left with, and whatever Redis hands out in between, a run
   of the loop of max_attempts + 1 stretches leaves a job completed or failed; 21 are enough for all.
   */
  lemma LoopResolves(q: Q.Queue, begin: Time, steps: seq<Q.QueueStep>, after: map<string, Job>,
                     cycles: seq<Cycle>, trace: seq<Trace>, cuts: seq<nat>, id: string)
    requires q == Q.ApplyAll(Q.Empty(begin), steps) && id in q.jobs
    requires |trace| == |cycles| && Runs(R.RowsOf(q), after, cycles, trace)
    requires ClocksOk(q.now, cycles) && Stretches(q.now, cycles, trace, cuts)
    requires |cuts| - 1 >= q.jobs[id].row.maxAttempts + 1
    ensures id in after && Terminal(after[id].status)
  {
    ReachableJobNeeds(q, begin, steps, id);
    StretchesResolve(q.now, R.RowsOf(q), after, cycles, trace, cuts, id);
  }
}
