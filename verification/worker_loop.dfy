/** The worker's main loop: which requests each cycle sends, and what they do to the table. */
module WorkerLoop {
  import opened Options
  import opened JobRows
  import opened JobApi
  import opened Worker

  datatype Popped = Woken(id: string) | TimedOut | RedisDown

  /** What one cycle of the loop meets: both clocks, Redis, the API, and the shutdown signal. */
  datatype Cycle = Cycle(monotonic: Time, now: Time, reapSent: bool, pop: Popped, listed: bool,
                         work: string -> Attempt, stopAfter: Option<nat>)

  // ------------------------------------------------ when the reaper is due

  /** last_reap after the first n cycles. */
  function LastReap(cycles: seq<Cycle>, n: nat): Time
    requires n <= |cycles|
  {
    if n == 0 then 0
    else if cycles[n - 1].monotonic - LastReap(cycles, n - 1) >= REAP_INTERVAL then cycles[n - 1].monotonic
    else LastReap(cycles, n - 1)
  }

  predicate Due(cycles: seq<Cycle>, j: nat)
    requires j < |cycles|
  {
    cycles[j].monotonic - LastReap(cycles, j) >= REAP_INTERVAL
  }

  ghost predicate Monotonic(cycles: seq<Cycle>) {
    forall i, j :: 0 <= i <= j < |cycles| ==> 0 <= cycles[i].monotonic <= cycles[j].monotonic
  }

  lemma {:induction false} LastReapIs(cycles: seq<Cycle>, n: nat)
    requires Monotonic(cycles) && n <= |cycles|
    ensures LastReap(cycles, n) == 0 || exists i :: 0 <= i < n && Due(cycles, i) && LastReap(cycles, n) == cycles[i].monotonic
    ensures forall i :: 0 <= i < n && Due(cycles, i) ==> cycles[i].monotonic <= LastReap(cycles, n)
  {
    if n > 0 {
      LastReapIs(cycles, n - 1);
    }
  }

  /** The reaper's turns are at least a minute apart, and no cycle is a minute or more after the last one. */
  lemma ReaperEveryMinute(cycles: seq<Cycle>, j: nat)
    requires Monotonic(cycles) && j < |cycles|
    ensures Due(cycles, j) ==>
              forall i :: 0 <= i < j && Due(cycles, i) ==> cycles[j].monotonic - cycles[i].monotonic >= 60_000_000
    ensures cycles[j].monotonic >= 60_000_000 ==>
              exists i :: 0 <= i <= j && Due(cycles, i) && cycles[j].monotonic - cycles[i].monotonic < 60_000_000
  {
    LastReapIs(cycles, j);
    if Due(cycles, j) {
      assert cycles[j].monotonic - cycles[j].monotonic < REAP_INTERVAL;
    }
  }

  // ---------------------------------------------------- what a cycle does

  /** One cycle: the table before and after, what it listed, whom it passed over, what it sent. */
  datatype Trace = Trace(before: map<string, Job>, listed: seq<string>, passes: seq<string>, sent: seq<Logged>, after: map<string, Job>)

  function Reaped(rows: map<string, Job>, c: Cycle, due: bool): map<string, Job> {
    if due && c.reapSent then map id <- rows :: ReapRow(rows[id], c.now) else rows
  }

  /** The popped id alone, or else the first jobs that the poll lists. */
  ghost predicate Passes(c: Cycle, rows: map<string, Job>, listed: seq<string>, passes: seq<string>) {
    match c.pop
    case Woken(id) => passes == [id]
    case _ =>
      if c.listed then FirstListed(rows, WAITING, c.now, POLL_LIMIT, listed) && PassesAlong(listed, passes, c.work, c.stopAfter)
      else passes == []
  }

  /** The exact effect of the requests, with the reaper's turn first when it is due. */
  ghost predicate EffectOk(c: Cycle, due: bool, t: Trace) {
    && Passes(c, Reaped(t.before, c, due), t.listed, t.passes)
    && t.after == Worked(Reaped(t.before, c, due), Elements(t.passes), c.now, c.work)
  }

  /** The requests themselves: the reap exactly when due and sent, then passes only. */
  ghost predicate SentOk(c: Cycle, due: bool, t: Trace) {
    && t.after == ServeLog(t.before, t.sent)
    && ReportsFollowClaims(t.sent)
    && (forall l <- t.sent :: SentBy(l, c.now, c.work) && (l.One? ==> l.id in t.passes))
    && (due && c.reapSent <==> t.sent != [] && t.sent[0].All?)
    && forall i :: 0 < i < |t.sent| ==> t.sent[i].One?
  }

  ghost predicate CycleOk(c: Cycle, due: bool, t: Trace) {
    EffectOk(c, due, t) && SentOk(c, due, t)
  }

  /** The first cycles, one trace for each, lead from one table to the other. */
  ghost predicate Runs(before: map<string, Job>, after: map<string, Job>, cycles: seq<Cycle>, trace: seq<Trace>)
    decreases |trace|
  {
    var n := |trace| - 1;
    if trace == [] then after == before
    else
      && n < |cycles| && trace[n].after == after
      && CycleOk(cycles[n], Due(cycles, n), trace[n])
      && Runs(before, trace[n].before, cycles, trace[..n])
  }

  /** The loop runs until the cycle in which the signal comes. */
  ghost predicate RunsUntilSignal(cycles: seq<Cycle>, executed: nat) {
    && executed <= |cycles|
    && (forall j :: 0 <= j < executed - 1 ==> cycles[j].stopAfter.None?)
    && (executed < |cycles| ==> executed > 0 && cycles[executed - 1].stopAfter.Some?)
  }

  // -------------------------------------------------------------- methods

  /** The reaper's turn. */
  method AskReaper(api: JobTable, c: Cycle, due: bool) returns (ghost sent: seq<Logged>)
    modifies api`rows
    ensures api.rows == Reaped(old(api.rows), c, due)
    ensures api.rows == ServeLog(old(api.rows), sent)
    ensures sent == if due && c.reapSent then [All(c.now)] else []
  {
    sent := [];
    if due && c.reapSent {
      var _ := api.ReapStaleJobs(c.now);
      sent := [All(c.now)];
      assert sent[1..] == [];
    }
  }

  /** A pass over the id Redis popped, or else a poll. */
  method WakeOrPoll(api: JobTable, c: Cycle) returns (listed: seq<string>, passes: seq<string>, ghost sent: seq<Logged>)
    modifies api`rows
    ensures Passes(c, old(api.rows), listed, passes)
    ensures api.rows == Worked(old(api.rows), Elements(passes), c.now, c.work)
    ensures api.rows == ServeLog(old(api.rows), sent) && ReportsFollowClaims(sent)
    ensures forall l <- sent :: l.One? && l.id in passes && SentBy(l, c.now, c.work)
  {
    listed, passes, sent := [], [], [];
    if c.pop.Woken? {
      var raised;
      passes := [c.pop.id];
      assert Elements(passes) == {c.pop.id};
      raised, sent := ProcessOne(api, c.pop.id, c.now, c.work(c.pop.id));
    } else if c.listed {
      listed, passes, sent := Poll(api, c.now, c.work, c.stopAfter);
    }
  }

  lemma ReapThenPasses(c: Cycle, due: bool, reap: seq<Logged>, work: seq<Logged>, t: Trace)
    requires reap == if due && c.reapSent then [All(c.now)] else []
    requires forall l <- work :: l.One? && l.id in t.passes && SentBy(l, c.now, c.work)
    requires ReportsFollowClaims(work) && t.sent == reap + work
    requires t.after == ServeLog(ServeLog(t.before, reap), work)
    ensures SentOk(c, due, t)
  {
    ReportsFollowClaimsAppend(reap, work);
    ServeLogAppend(t.before, reap, work);
    forall i | 0 <= i < |t.sent| ensures if i < |reap| then t.sent[i] == All(c.now) else t.sent[i] in work {
      if i >= |reap| {
        assert t.sent[i] == work[i - |reap|];
      }
    }
  }

  method ServeCycle(api: JobTable, c: Cycle, due: bool) returns (ghost t: Trace)
    modifies api`rows
    ensures t.before == old(api.rows) && t.after == api.rows
    ensures CycleOk(c, due, t)
  {
    ghost var reap := AskReaper(api, c, due);
    var listed, passes;
    ghost var work;
    listed, passes, work := WakeOrPoll(api, c);
    t := Trace(old(api.rows), listed, passes, reap + work, api.rows);
    ReapThenPasses(c, due, reap, work, t);
  }

  lemma OneMoreCycle(before: map<string, Job>, after: map<string, Job>, cycles: seq<Cycle>, trace: seq<Trace>, t: Trace)
    requires Runs(before, after, cycles, trace) && |trace| < |cycles|
    requires t.before == after && CycleOk(cycles[|trace|], Due(cycles, |trace|), t)
    ensures Runs(before, t.after, cycles, trace + [t])
  {
    assert (trace + [t])[..|trace|] == trace;
  }

  /** One turn of the loop, on top of the cycles already run. */
  method RunCycle(api: JobTable, cycles: seq<Cycle>, j: nat, lastReap: Time,
                  ghost before: map<string, Job>, ghost trace: seq<Trace>)
    returns (last: Time, ghost more: seq<Trace>)
    requires j == |trace| < |cycles| && lastReap == LastReap(cycles, j) && Runs(before, api.rows, cycles, trace)
    modifies api`rows
    ensures |more| == j + 1 && last == LastReap(cycles, j + 1) && Runs(before, api.rows, cycles, more)
  {
    var due := cycles[j].monotonic - lastReap >= REAP_INTERVAL;
    last := if due then cycles[j].monotonic else lastReap;
    ghost var t := ServeCycle(api, cycles[j], due);
    OneMoreCycle(before, t.before, cycles, trace, t);
    more := trace + [t];
  }

  /**
   The loop, for whatever Redis hands out. Each cycle asks the reaper exactly when a minute of loop
   time has passed since it last did, and then passes over the popped id or over the head of the
   list; the trace gives each cycle's exact effect on the table.
   */
  method RunLoop(api: JobTable, cycles: seq<Cycle>) returns (executed: nat, ghost trace: seq<Trace>)
    modifies api`rows
    ensures RunsUntilSignal(cycles, executed) && |trace| == executed
    ensures Runs(old(api.rows), api.rows, cycles, trace)
  {
    executed, trace := 0, [];
    var lastReap: Time := 0;
    var shutdown := false;
    while executed < |cycles| && !shutdown
      invariant executed == |trace| <= |cycles|
      invariant forall j :: 0 <= j < executed - 1 ==> cycles[j].stopAfter.None?
      invariant shutdown <==> executed > 0 && cycles[executed - 1].stopAfter.Some?
      invariant lastReap == LastReap(cycles, executed)
      invariant Runs(old(api.rows), api.rows, cycles, trace)
    {
      lastReap, trace := RunCycle(api, cycles, executed, lastReap, old(api.rows), trace);
      shutdown := cycles[executed].stopAfter.Some?;
      executed := executed + 1;
    }
  }

  // ------------------------------------------------------- whole runs

  ghost function LogOf(trace: seq<Trace>): seq<Logged> {
    if trace == [] then [] else LogOf(trace[..|trace| - 1]) + trace[|trace| - 1].sent
  }

  lemma {:induction false} RunsAt(before: map<string, Job>, after: map<string, Job>, cycles: seq<Cycle>, trace: seq<Trace>, j: nat)
    requires Runs(before, after, cycles, trace) && j < |trace|
    ensures |trace| <= |cycles| && CycleOk(cycles[j], Due(cycles, j), trace[j])
    decreases |trace|
  {
    var n := |trace| - 1;
    if n > 0 && j < n {
      RunsAt(before, trace[n].before, cycles, trace[..n], j);
    } else if n > 0 {
      RunsAt(before, trace[n].before, cycles, trace[..n], n - 1);
    }
  }

  /** The loop's whole effect is a log of ordinary requests, so what is proved of such logs holds of it. */
  lemma {:induction false} RunIsLog(before: map<string, Job>, after: map<string, Job>, cycles: seq<Cycle>, trace: seq<Trace>)
    requires Runs(before, after, cycles, trace)
    ensures after == ServeLog(before, LogOf(trace)) && ReportsFollowClaims(LogOf(trace))
    decreases |trace|
  {
    if trace != [] {
      var n := |trace| - 1;
      RunIsLog(before, trace[n].before, cycles, trace[..n]);
      ServeLogAppend(before, LogOf(trace[..n]), trace[n].sent);
      ReportsFollowClaimsAppend(LogOf(trace[..n]), trace[n].sent);
    }
  }

  /** What a cycle does to one row: the reaper's turn, then a pass if it is the job's turn. */
  function CycleRow(r: Job, c: Cycle, due: bool, passed: bool, a: Attempt): Job {
    var reaped := if due && c.reapSent then ReapRow(r, c.now) else r;
    if passed then WorkRow(reaped, c.now, a) else reaped
  }

  lemma CycleOnRow(c: Cycle, due: bool, t: Trace, id: string)
    requires CycleOk(c, due, t) && id in t.before
    ensures id in t.after
    ensures t.after[id] == CycleRow(t.before[id], c, due, id in t.passes, c.work(id))
  {
  }

  /** The cycle claims the waiting job r. */
  ghost predicate Serves(c: Cycle, t: Trace, r: Job, id: string) {
    id in t.passes && c.work(id).claim != NeverSent && r.availableAt <= c.now
  }

  ghost predicate Unserved(cycles: seq<Cycle>, trace: seq<Trace>, r: Job, id: string)
    requires |trace| <= |cycles|
  {
    forall j :: 0 <= j < |trace| ==> !Serves(cycles[j], trace[j], r, id)
  }

  lemma UnservedOneMore(cycles: seq<Cycle>, trace: seq<Trace>, r: Job, id: string)
    requires 0 < |trace| <= |cycles|
    ensures var n := |trace| - 1;
            Unserved(cycles, trace, r, id) <==> Unserved(cycles, trace[..n], r, id) && !Serves(cycles[n], trace[n], r, id)
  {
    var n := |trace| - 1;
    forall j | 0 <= j < n ensures Serves(cycles[j], trace[..n][j], r, id) == Serves(cycles[j], trace[j], r, id) {
      assert trace[..n][j] == trace[j];
    }
  }

  lemma CycleKeepsWaiting(r: Job, c: Cycle, due: bool, passed: bool, a: Attempt)
    ensures CycleRow(r, c, due, passed, a).attempts >= r.attempts
    ensures Waiting(r.status) ==>
              var r' := CycleRow(r, c, due, passed, a);
              && (r' == r <==> !(passed && a.claim != NeverSent && r.availableAt <= c.now))
              && (r' == r || r'.attempts > r.attempts)
  {
  }

  /** A waiting job keeps its row through a run exactly when no cycle of the run claims it. */
  lemma {:induction false} KeptExactly(before: map<string, Job>, after: map<string, Job>, cycles: seq<Cycle>, trace: seq<Trace>, id: string)
    requires Runs(before, after, cycles, trace) && id in before && Waiting(before[id].status)
    ensures |trace| <= |cycles|
    ensures id in after && (after[id] == before[id] || after[id].attempts > before[id].attempts)
    ensures after[id] == before[id] <==> Unserved(cycles, trace, before[id], id)
    decreases |trace|
  {
    if trace != [] {
      var n := |trace| - 1;
      KeptExactly(before, trace[n].before, cycles, trace[..n], id);
      CycleOnRow(cycles[n], Due(cycles, n), trace[n], id);
      CycleKeepsWaiting(trace[n].before[id], cycles[n], Due(cycles, n), id in trace[n].passes, cycles[n].work(id));
      UnservedOneMore(cycles, trace, before[id], id);
    }
  }

  /**
   While Redis keeps handing out other ids the poll never comes, and a job whose wake-up was lost
   keeps its row, for as many cycles as that goes on.
   */
  lemma WakeUpsStarve(before: map<string, Job>, after: map<string, Job>, cycles: seq<Cycle>, trace: seq<Trace>, id: string)
    requires Runs(before, after, cycles, trace) && id in before && Waiting(before[id].status)
    requires |trace| <= |cycles|
    requires forall j :: 0 <= j < |trace| ==> cycles[j].pop.Woken? && cycles[j].pop.id != id
    ensures id in after && after[id] == before[id]
  {
    KeptExactly(before, after, cycles, trace, id);
    forall j | 0 <= j < |trace| ensures !Serves(cycles[j], trace[j], before[id], id) {
      RunsAt(before, after, cycles, trace, j);
    }
  }

  /** One poll claims an available job if it is among the first ten and nothing stops the poll before it. */
  lemma PollServes(c: Cycle, due: bool, t: Trace, id: string)
    requires CycleOk(c, due, t) && id in t.before && Claimable(t.before[id], c.now)
    requires !c.pop.Woken? && c.listed && c.stopAfter.None?
    requires forall i <- t.listed :: c.work(i).claim == Answered
    ensures Serves(c, t, t.before[id], id) <==> id in t.listed
    ensures |Eligible(Reaped(t.before, c, due), c.now)| <= 10 ==> id in t.listed
  {
    assert t.passes == t.listed by {
      assert t.passes != [] ==> t.passes[|t.passes| - 1] in t.listed;
    }
    var rows := Reaped(t.before, c, due);
    PollSize(rows, c.now, t.listed);
    assert id in Eligible(rows, c.now);
    if |Eligible(rows, c.now)| <= POLL_LIMIT && id !in t.listed {
      SubsetSize(Elements(t.listed), Eligible(rows, c.now) - {id});
    }
  }

  lemma {:induction false} SubsetSize<T>(a: set<T>, b: set<T>)
    requires a <= b
    ensures |a| <= |b|
    decreases a
  {
    if a != {} {
      var x :| x in a;
      SubsetSize(a - {x}, b - {x});
    }
  }
}
