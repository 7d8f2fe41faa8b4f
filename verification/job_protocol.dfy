/**
 One job shared by any number of workers, with the read and the guarded UPDATE of
 complete_event and fail_event as separate steps. Every committed claim starts one pass of
 the worker's process_one; passes advance, stall and vanish independently of each other.
 */
module JobProtocol {
  import opened Options
  import opened JobRows

  /** Where a pass of process_one stands. */
  datatype Phase =
    | Working                              // claimed, the integration call is out
    | Accepted                             // the integration answered success
    | Refused(error: string)               // the integration call raised
    | Completing                           // complete_event has read status 'processing'
    | Failing(plan: FailPlan, seen: nat)   // fail_event has read the row and chosen its values
    | Finished

  /** A committed claim: the attempt number it was answered with, its time, and what its pass did. */
  datatype Claim = Claim(attempt: nat, at: Time, phase: Phase, runs: nat, succeeded: bool, overran: bool)

  datatype Action =
    | TakeClaim(answered: bool)            // the response of a committed claim may be lost
    | Integrate(k: nat, succeeded: bool, answered: bool, error: string)
    | ReadForComplete(k: nat)
    | WriteComplete(k: nat)
    | ReadForFail(k: nat)
    | WriteFail(k: nat)
    | Abandon(k: nat)                      // crash, or a request that never arrives

  datatype Step = Wait(d: nat) | Do(action: Action) | Sweep

  datatype World = World(now: Time, row: Job, claims: seq<Claim>)

  predicate At(w: World, k: nat) {
    k < |w.claims|
  }

  function Moved(w: World, k: nat, row: Job, c: Claim): World
    requires At(w, k)
  {
    w.(row := row, claims := w.claims[k := c])
  }

  /** A retry granted to a row that has no attempts left: only a stale plan can do this. */
  predicate Overruns(r: Job, plan: FailPlan) {
    r.status == Processing && plan.status == Retrying && r.attempts >= r.maxAttempts
  }

  /** Steps that are not enabled change nothing. */
  function Act(w: World, a: Action): World {
    match a
    case TakeClaim(answered) =>
      if Claimable(w.row, w.now) then
        var row := ClaimRow(w.row, w.now);
        w.(row := row,
           claims := w.claims + [Claim(row.attempts, w.now, if answered then Working else Finished, 0, false, false)])
      else w
    case Integrate(k, succeeded, answered, error) =>
      if At(w, k) && w.claims[k].phase.Working? then
        Moved(w, k, w.row, w.claims[k].(
          phase := if succeeded && answered then Accepted else Refused(error),
          runs := w.claims[k].runs + 1,
          succeeded := succeeded))
      else w
    case ReadForComplete(k) =>
      if At(w, k) && w.claims[k].phase.Accepted? then
        Moved(w, k, w.row, w.claims[k].(phase := if w.row.status == Processing then Completing else Finished))
      else w
    case WriteComplete(k) =>
      if At(w, k) && w.claims[k].phase.Completing? then
        Moved(w, k, CompleteRow(w.row, w.now), w.claims[k].(phase := Finished))
      else w
    case ReadForFail(k) =>
      if At(w, k) && w.claims[k].phase.Refused? then
        Moved(w, k, w.row, w.claims[k].(
          phase := if w.row.status == Processing
                   then Failing(PlanFail(w.row, w.claims[k].phase.error, true, w.now), w.row.attempts)
                   else Finished))
      else w
    case WriteFail(k) =>
      if At(w, k) && w.claims[k].phase.Failing? then
        var plan := w.claims[k].phase.plan;
        Moved(w, k, FailRow(w.row, plan, w.now),
              w.claims[k].(phase := Finished, overran := Overruns(w.row, plan)))
      else w
    case Abandon(k) =>
      if At(w, k) then Moved(w, k, w.row, w.claims[k].(phase := Finished)) else w
  }

  function Next(w: World, st: Step): World {
    match st
    case Wait(d) => w.(now := w.now + d)
    case Do(a) => Act(w, a)
    case Sweep => w.(row := ReapRow(w.row, w.now))
  }

  function Run(w: World, steps: seq<Step>): World
    decreases steps
  {
    if steps == [] then w else Run(Next(w, steps[0]), steps[1..])
  }

  lemma {:induction false} RunAppend(w: World, steps: seq<Step>, more: seq<Step>)
    ensures Run(w, steps + more) == Run(Run(w, steps), more)
    decreases |steps|
  {
    if steps == [] {
      assert steps + more == more;
    } else {
      assert (steps + more)[1..] == steps[1..] + more;
      RunAppend(Next(w, steps[0]), steps[1..], more);
    }
  }

  /** A job just recorded. */
  ghost predicate Fresh(w: World) {
    && w.claims == []
    && w.row.status == Queued && w.row.attempts == 0 && w.row.maxAttempts >= 1
    && w.row.lastError == None && w.row.processedAt == None
    && w.row.updatedAt == w.row.availableAt == w.now
  }

  // ------------------------------------------------------------ invariants

  ghost predicate Numbered(w: World) {
    && |w.claims| == w.row.attempts
    && forall k :: 0 <= k < |w.claims| ==> w.claims[k].attempt == k + 1 && w.claims[k].at <= w.now
  }

  ghost predicate PassOk(c: Claim, row: Job, now: Time) {
    && c.runs <= 1
    && (c.phase.Working? ==> c.runs == 0)
    && (c.succeeded ==> c.runs == 1)
    && (c.phase.Accepted? || c.phase.Completing? ==> c.succeeded)
    && (c.phase.Failing? ==>
          && PlanOk(c.phase.plan, now)
          && c.attempt <= c.phase.seen <= row.attempts
          && (c.phase.plan.status == Retrying <==> c.phase.seen < row.maxAttempts))
    && (c.overran ==> c.phase.Finished? && c.attempt < row.maxAttempts)
  }

  ghost predicate PassesOk(w: World) {
    forall k :: 0 <= k < |w.claims| ==> PassOk(w.claims[k], w.row, w.now)
  }

  ghost predicate Acknowledged(w: World) {
    w.row.status == Completed ==> exists k :: 0 <= k < |w.claims| && w.claims[k].succeeded
  }

  ghost function Overran(claims: seq<Claim>): set<nat> {
    set k: nat | k < |claims| && claims[k].overran
  }

  /** Every overrun is paid for by exactly one extra attempt, taken as soon as the row is claimed again. */
  ghost predicate Accounted(w: World) {
    var o := |Overran(w.claims)|;
    if o == 0 then
      w.row.attempts <= w.row.maxAttempts && (Waiting(w.row.status) ==> w.row.attempts < w.row.maxAttempts)
    else
      w.row.attempts == w.row.maxAttempts + o - (if Waiting(w.row.status) then 1 else 0)
  }

  ghost predicate Inv(w: World) {
    RowOk(w.row, w.now) && Numbered(w) && PassesOk(w) && Acknowledged(w) && Accounted(w)
  }

  lemma SameOverruns(before: seq<Claim>, after: seq<Claim>)
    requires |before| <= |after|
    requires forall k :: 0 <= k < |before| ==> after[k].overran == before[k].overran
    requires forall k :: |before| <= k < |after| ==> !after[k].overran
    ensures Overran(after) == Overran(before)
  {
  }

  lemma OneMoreOverrun(claims: seq<Claim>, k: nat, c: Claim)
    requires k < |claims| && !claims[k].overran && c.overran
    ensures |Overran(claims[k := c])| == |Overran(claims)| + 1
  {
    assert Overran(claims[k := c]) == Overran(claims) + {k};
  }

  lemma ActKeepsAccounted(w: World, a: Action)
    requires Inv(w)
    ensures Accounted(Act(w, a))
  {
    var w' := Act(w, a);
    if w' == w {
    } else if a.WriteFail? && Overruns(w.row, w.claims[a.k].phase.plan) {
      OneMoreOverrun(w.claims, a.k, w'.claims[a.k]);
    } else {
      SameOverruns(w.claims, w'.claims);
    }
  }

  lemma ActKeepsRow(w: World, a: Action)
    requires Inv(w)
    ensures RowOk(Act(w, a).row, Act(w, a).now) && Numbered(Act(w, a))
  {
    if a.WriteFail? && At(w, a.k) && w.claims[a.k].phase.Failing? {
      assert PassOk(w.claims[a.k], w.row, w.now);
      UpdatesKeepRowOk(w.row, w.now, w.claims[a.k].phase.plan);
    }
  }

  /** A pass that a step does not move keeps what it knows. */
  lemma PassKept(c: Claim, row: Job, row': Job, now: Time)
    requires PassOk(c, row, now) && row'.maxAttempts == row.maxAttempts && row'.attempts >= row.attempts
    ensures PassOk(c, row', now)
  {
  }

  lemma ActKeepsPasses(w: World, a: Action)
    requires Inv(w)
    ensures PassesOk(Act(w, a))
  {
    var w' := Act(w, a);
    forall k | 0 <= k < |w'.claims| ensures PassOk(w'.claims[k], w'.row, w'.now) {
      if k < |w.claims| {
        assert PassOk(w.claims[k], w.row, w.now);
        if w'.claims[k] == w.claims[k] {
          PassKept(w.claims[k], w.row, w'.row, w.now);
        } else if a.ReadForFail? && w.row.status == Processing {
          PlanFailOk(w.row, w.claims[k].phase.error, true, w.now);
        }
      }
    }
  }

  lemma ActKeepsAcknowledged(w: World, a: Action)
    requires Inv(w)
    ensures Acknowledged(Act(w, a))
  {
    var w' := Act(w, a);
    if w'.row.status == Completed {
      var k :| 0 <= k < |w.claims| && w.claims[k].succeeded;
      assert w'.claims[k].succeeded;
    }
  }

  lemma NextKeepsInv(w: World, st: Step)
    requires Inv(w)
    ensures Inv(Next(w, st))
  {
    match st
    case Wait(d) =>
    case Do(a) =>
      ActKeepsRow(w, a);
      ActKeepsPasses(w, a);
      ActKeepsAcknowledged(w, a);
      ActKeepsAccounted(w, a);
    case Sweep =>
      assert |REAP_ERROR| <= 2014;
  }

  lemma {:induction false} RunKeepsInv(w: World, steps: seq<Step>)
    requires Inv(w)
    ensures Inv(Run(w, steps))
    decreases |steps|
  {
    if steps != [] {
      NextKeepsInv(w, steps[0]);
      RunKeepsInv(Next(w, steps[0]), steps[1..]);
    }
  }

  lemma FreshInv(w: World)
    requires Fresh(w)
    ensures Inv(w)
  {
    assert Overran(w.claims) == {};
  }

  // --------------------------------------------- claims, acks and attempts

  /** The committed claims of a job were answered 1, 2, 3, ... with no gap and no repeat. */
  lemma ClaimsAreNumbered(w: World, steps: seq<Step>)
    requires Fresh(w)
    ensures var e := Run(w, steps);
            |e.claims| == e.row.attempts && forall k :: 0 <= k < |e.claims| ==> e.claims[k].attempt == k + 1
  {
    FreshInv(w);
    RunKeepsInv(w, steps);
  }

  ghost function IntegrationRuns(claims: seq<Claim>): nat {
    if claims == [] then 0 else claims[0].runs + IntegrationRuns(claims[1..])
  }

  lemma {:induction false} RunsAtMostClaims(claims: seq<Claim>)
    requires forall k :: 0 <= k < |claims| ==> claims[k].runs <= 1
    ensures IntegrationRuns(claims) <= |claims|
  {
    if claims != [] {
      RunsAtMostClaims(claims[1..]);
    }
  }

  /** A completed job has had a successful integration run, and no job runs more often than it was claimed. */
  lemma NoPrematureAck(w: World, steps: seq<Step>)
    requires Fresh(w)
    ensures var e := Run(w, steps);
            && (e.row.status == Completed ==>
                  exists k :: 0 <= k < |e.claims| && e.claims[k].succeeded && e.claims[k].runs == 1)
            && IntegrationRuns(e.claims) <= e.row.attempts
  {
    FreshInv(w);
    RunKeepsInv(w, steps);
    RunsAtMostClaims(Run(w, steps).claims);
  }

  lemma {:induction false} FewBelow(ks: set<nat>, n: nat)
    requires forall k <- ks :: k < n
    ensures |ks| <= n
  {
    if n == 0 {
      assert ks == {};
    } else {
      FewBelow(ks - {n - 1}, n - 1);
      assert ks <= (ks - {n - 1}) + {n - 1};
    }
  }

  /** Only the first max_attempts - 1 claims can ever overrun: later ones read an exhausted row. */
  lemma OverrunsBounded(w: World)
    requires Inv(w)
    ensures |Overran(w.claims)| <= w.row.maxAttempts - 1
  {
    FewBelow(Overran(w.claims), w.row.maxAttempts - 1);
  }

  /**
   How many claims a job can get. The bound of max_attempts can be passed only through overruns,
   each overrun costs exactly one attempt, and there are fewer than max_attempts of them.
   */
  lemma AttemptsBounded(w: World, steps: seq<Step>)
    requires Fresh(w)
    ensures var e := Run(w, steps);
            var max := w.row.maxAttempts;
            var o := |Overran(e.claims)|;
            && e.row.maxAttempts == max
            && o <= max - 1
            && e.row.attempts <= max + o <= 2 * max - 1
            && (Waiting(e.row.status) ==> e.row.attempts < max + o)
            && (o > 0 ==> e.row.attempts == max + o - (if Waiting(e.row.status) then 1 else 0))
            && (e.row.attempts > max <==> o > 1 || (o == 1 && !Waiting(e.row.status)))
  {
    FreshInv(w);
    RunKeepsInv(w, steps);
    RunKeepsBudget(w, steps);
    OverrunsBounded(Run(w, steps));
  }

  /**
   What becomes of an exhausted job when a fail_event lands: it fails, as documented, exactly when
   the row it read was exhausted too. Otherwise the read is stale, the job goes back to 'retrying',
   and that is an overrun.
   */
  lemma OverrunIsStale(w: World, k: nat)
    requires Inv(w) && At(w, k) && w.claims[k].phase.Failing?
    requires w.row.status == Processing && w.row.attempts >= w.row.maxAttempts
    ensures Act(w, WriteFail(k)).row.status == Failed <==> w.claims[k].phase.seen >= w.row.maxAttempts
    ensures Act(w, WriteFail(k)).row.status == Retrying <==> w.claims[k].phase.seen < w.row.maxAttempts
    ensures Act(w, WriteFail(k)).claims[k].overran <==> w.claims[k].phase.seen < w.row.maxAttempts
    ensures w.claims[k].phase.seen < w.row.maxAttempts ==> w.claims[k].phase.seen < w.row.attempts
  {
    assert PassOk(w.claims[k], w.row, w.now);
  }

  lemma {:induction false} RunKeepsBudget(w: World, steps: seq<Step>)
    ensures Run(w, steps).row.maxAttempts == w.row.maxAttempts
    ensures Run(w, steps).row.providerCallId == w.row.providerCallId
    ensures Run(w, steps).row.eventType == w.row.eventType
    decreases |steps|
  {
    if steps != [] {
      RunKeepsBudget(Next(w, steps[0]), steps[1..]);
    }
  }

  // ------------------------------------------------------- terminal states

  lemma {:induction false} TerminalForever(w: World, steps: seq<Step>)
    requires Terminal(w.row.status)
    ensures Run(w, steps).row == w.row
    decreases |steps|
  {
    if steps != [] {
      TerminalForever(Next(w, steps[0]), steps[1..]);
    }
  }

  /** processed_at marks exactly the terminal rows; stored errors stay bounded, and no retry or failure goes without one. */
  lemma ReachableRowOk(w: World, steps: seq<Step>)
    requires Fresh(w)
    ensures var e := Run(w, steps);
            && (e.row.processedAt.Some? <==> Terminal(e.row.status))
            && (e.row.lastError.Some? ==> |e.row.lastError.value| <= 2014)
            && (e.row.status == Retrying || e.row.status == Failed ==> e.row.lastError.Some?)
            && e.row.availableAt <= e.now + 300 * SECOND
            && e.row.updatedAt <= e.now
  {
    FreshInv(w);
    RunKeepsInv(w, steps);
  }

  // ---------------------------------------------- between two claims

  /** The step that hands a row back: a retrying fail_event, or the reaper. */
  ghost predicate HandsBack(w: World, st: Step) {
    && w.row.status == Processing && Next(w, st).row.status == Retrying
    && ((st.Do? && st.action.WriteFail?) || (st.Sweep? && Stale(w.row, w.now)))
  }

  /** A job already being processed is claimed again only after some step has handed it back. */
  lemma {:induction false} HandedBackBetweenClaims(w: World, steps: seq<Step>)
    requires Inv(w) && w.row.status == Processing
    requires Run(w, steps).row.attempts > w.row.attempts
    ensures exists i :: 0 <= i < |steps| && HandsBack(Run(w, steps[..i]), steps[i])
    decreases |steps|
  {
    var st, rest := steps[0], steps[1..];
    var w' := Next(w, st);
    NextKeepsInv(w, st);
    assert steps[..0] == [];
    if w'.row.status == Processing {
      HandedBackBetweenClaims(w', rest);
      var i :| 0 <= i < |rest| && HandsBack(Run(w', rest[..i]), rest[i]);
      assert steps[..i + 1] == [st] + rest[..i];
      assert HandsBack(Run(w, steps[..i + 1]), steps[i + 1]);
    } else if Terminal(w'.row.status) {
      TerminalForever(w', rest);
    } else {
      assert HandsBack(Run(w, steps[..0]), steps[0]);
    }
  }

  // ----------------------------------------------------------- lease safety

  /** The pass a report step belongs to, if it is one. */
  function ReportOf(st: Step): Option<nat> {
    match st
    case Do(ReadForComplete(k)) => Some(k)
    case Do(WriteComplete(k)) => Some(k)
    case Do(ReadForFail(k)) => Some(k)
    case Do(WriteFail(k)) => Some(k)
    case _ => None
  }

  ghost predicate OnTime(w: World, st: Step) {
    ReportOf(st).Some? && At(w, ReportOf(st).value) ==>
      w.now <= w.claims[ReportOf(st).value].at + 120 * SECOND
  }

  /** Every read and every update of a report lands within 120 s of its claim. */
  ghost predicate Timely(w: World, steps: seq<Step>)
    decreases steps
  {
    steps == [] || (OnTime(w, steps[0]) && Timely(Next(w, steps[0]), steps[1..]))
  }

  /** Pass k has not finished and its 120 s are not over. */
  ghost predicate Leased(w: World, k: nat) {
    At(w, k) && w.claims[k].phase != Finished && w.now <= w.claims[k].at + 120 * SECOND
  }

  ghost predicate LeaseInv(w: World) {
    && Overran(w.claims) == {}
    && forall k: nat :: Leased(w, k) ==>
         && k == |w.claims| - 1
         && w.row.status == Processing
         && w.row.updatedAt == w.claims[k].at
         && (w.claims[k].phase.Failing? ==> w.claims[k].phase.seen == w.row.attempts)
  }

  lemma NextKeepsLease(w: World, st: Step)
    requires Inv(w) && LeaseInv(w) && OnTime(w, st)
    ensures LeaseInv(Next(w, st))
  {
    var w' := Next(w, st);
    SameOverruns(w.claims, w'.claims) by {
      if st.Do? && st.action.WriteFail? && At(w, st.action.k) && w.claims[st.action.k].phase.Failing? {
        assert Leased(w, st.action.k);
        assert PassOk(w.claims[st.action.k], w.row, w.now);
      }
      forall k | 0 <= k < |w.claims| ensures w'.claims[k].overran == w.claims[k].overran {
        assert k !in Overran(w.claims);
        assert PassOk(w.claims[k], w.row, w.now);
      }
    }
    forall k: nat | Leased(w', k) && k < |w.claims| ensures Leased(w, k) {
    }
    if ReportOf(st).Some? && At(w, ReportOf(st).value) && w.claims[ReportOf(st).value].phase != Finished {
      assert Leased(w, ReportOf(st).value);
    }
  }

  lemma {:induction false} RunKeepsLease(w: World, steps: seq<Step>)
    requires Inv(w) && LeaseInv(w) && Timely(w, steps)
    ensures Inv(Run(w, steps)) && LeaseInv(Run(w, steps))
    decreases |steps|
  {
    if steps != [] {
      NextKeepsInv(w, steps[0]);
      NextKeepsLease(w, steps[0]);
      RunKeepsLease(Next(w, steps[0]), steps[1..]);
    }
  }

  /** The reaper after the lease, or the report of the latest claim. */
  ghost predicate MovesOwnRow(w: World, st: Step) {
    || (st.Sweep? && w.row.updatedAt < w.now - STALE_PROCESSING && forall k: nat :: !Leased(w, k))
    || (st.Do? && (st.action.WriteComplete? || st.action.WriteFail?) && st.action.k == |w.claims| - 1)
  }

  lemma OnlyOwnMoves(w: World, st: Step)
    requires Inv(w) && LeaseInv(w) && OnTime(w, st) && w.row.status == Processing && Next(w, st).row != w.row
    ensures MovesOwnRow(w, st)
  {
    if ReportOf(st).Some? {
      assert Leased(w, ReportOf(st).value);
    }
  }

  /**
   With timely reports a leased pass owns the row: the row is processing under that pass's own
   attempt number, no second pass is leased, and no job is ever claimed beyond its budget. Lease or
   no lease, a processing row is moved by nothing but its latest claim's report and the reaper, who
   waits for the lease to be over.
   */
  lemma LeaseSafety(w: World, steps: seq<Step>)
    requires Fresh(w) && Timely(w, steps)
    ensures var e := Run(w, steps);
            && e.row.attempts <= e.row.maxAttempts
            && (Waiting(e.row.status) ==> e.row.attempts < e.row.maxAttempts)
            && (forall k: nat :: Leased(e, k) ==>
                  e.row.status == Processing && e.row.attempts == e.claims[k].attempt)
            && (forall j: nat, k: nat :: Leased(e, j) && Leased(e, k) ==> j == k)
            && (forall st :: OnTime(e, st) && e.row.status == Processing && Next(e, st).row != e.row ==> MovesOwnRow(e, st))
  {
    FreshInv(w);
    assert Overran(w.claims) == {};
    RunKeepsLease(w, steps);
    var e := Run(w, steps);
    forall st | OnTime(e, st) && e.row.status == Processing && Next(e, st).row != e.row ensures MovesOwnRow(e, st) {
      OnlyOwnMoves(e, st);
    }
  }

  // ------------------------------------------- the attempt bound is reached

  /** Claim, fail the integration, read for fail_event, stall past the lease, get reaped. */
  function StallBlock(k: nat): seq<Step> {
    [Do(TakeClaim(true)), Do(Integrate(k, false, true, "timeout")), Do(ReadForFail(k)), Wait(121 * SECOND), Sweep]
  }

  /** A stalled fail_event lands on the row, and once its backoff is over the job is claimed again. */
  function ReviveBlock(k: nat): seq<Step> {
    [Do(WriteFail(k)), Wait(300 * SECOND), Do(TakeClaim(true))]
  }

  function StallBlocks(n: nat): seq<Step> {
    if n == 0 then [] else StallBlocks(n - 1) + StallBlock(n - 1)
  }

  function ReviveBlocks(n: nat): seq<Step> {
    if n == 0 then [] else ReviveBlocks(n - 1) + ReviveBlock(n - 1)
  }

  function WorstRun(max: nat): seq<Step>
    requires max >= 1
  {
    StallBlocks(max - 1) + [Do(TakeClaim(true))] + ReviveBlocks(max - 1)
  }

  /** Pass k holds a plan that will put the job back into 'retrying'. */
  ghost predicate Stalled(w: World, k: nat) {
    && At(w, k) && w.claims[k].phase.Failing?
    && w.claims[k].phase.plan.status == Retrying
    && w.claims[k].phase.plan.availableAt.Some?
    && w.claims[k].phase.plan.availableAt.value <= w.now + MAX_BACKOFF
  }

  lemma RunSingle(w: World, a: Step)
    ensures Run(w, [a]) == Next(w, a)
  {
    assert [a][0] == a && [a][1..] == [];
  }

  lemma RunThree(w: World, a: Step, b: Step, c: Step)
    ensures Run(w, [a, b, c]) == Next(Next(Next(w, a), b), c)
  {
    RunSingle(w, a);
    RunSingle(Next(w, a), b);
    RunSingle(Next(Next(w, a), b), c);
    RunAppend(w, [a], [b]);
    RunAppend(w, [a] + [b], [c]);
    assert [a] + [b] + [c] == [a, b, c];
  }

  lemma RunFive(w: World, a: Step, b: Step, c: Step, d: Step, e: Step)
    ensures Run(w, [a, b, c, d, e]) == Next(Next(Next(Next(Next(w, a), b), c), d), e)
  {
    RunSingle(w, a);
    RunSingle(Next(w, a), b);
    RunAppend(w, [a], [b]);
    RunThree(Next(Next(w, a), b), c, d, e);
    RunAppend(w, [a] + [b], [c, d, e]);
    assert [a] + [b] + [c, d, e] == [a, b, c, d, e];
  }

  lemma {:induction false} StallBlocksEffect(w: World, n: nat)
    requires Fresh(w) && n < w.row.maxAttempts
    ensures var e := Run(w, StallBlocks(n));
            && Claimable(e.row, e.now) && |e.claims| == e.row.attempts == n && e.row.maxAttempts == w.row.maxAttempts
            && forall k: nat :: k < n ==> Stalled(e, k)
  {
    if n > 0 {
      StallBlocksEffect(w, n - 1);
      var e0 := Run(w, StallBlocks(n - 1));
      RunAppend(w, StallBlocks(n - 1), StallBlock(n - 1));
      var a, b, c := Do(TakeClaim(true)), Do(Integrate(n - 1, false, true, "timeout")), Do(ReadForFail(n - 1));
      RunFive(e0, a, b, c, Wait(121 * SECOND), Sweep);
      var e3 := Next(Next(Next(e0, a), b), c);
      forall k: nat | k < n - 1 ensures Stalled(e3, k) {
        assert Stalled(e0, k);
      }
      assert Stalled(e3, n - 1);
      forall k: nat | k < n ensures Stalled(Run(w, StallBlocks(n)), k) {
        assert Stalled(e3, k);
      }
    }
  }

  lemma {:induction false} ReviveBlocksEffect(w: World, n: nat, m: nat)
    requires n <= m < w.row.maxAttempts
    requires w.row.status == Processing && |w.claims| == w.row.attempts
    requires forall k: nat :: k < m ==> Stalled(w, k)
    ensures var e := Run(w, ReviveBlocks(n));
            && e.row.status == Processing && |e.claims| == e.row.attempts == w.row.attempts + n
            && forall k: nat :: n <= k < m ==> Stalled(e, k)
  {
    if n > 0 {
      ReviveBlocksEffect(w, n - 1, m);
      var e0 := Run(w, ReviveBlocks(n - 1));
      RunAppend(w, ReviveBlocks(n - 1), ReviveBlock(n - 1));
      RunThree(e0, Do(WriteFail(n - 1)), Wait(300 * SECOND), Do(TakeClaim(true)));
      assert Stalled(e0, n - 1);
      forall k: nat | n <= k < m ensures Stalled(Run(w, ReviveBlocks(n)), k) {
        assert Stalled(e0, k);
      }
    }
  }

  lemma ClaimWhileStalled(w: World, n: nat)
    requires Claimable(w.row, w.now) && forall k: nat :: k < n ==> Stalled(w, k)
    ensures var e := Next(w, Do(TakeClaim(true)));
            && e.row == w.row.(status := Processing, attempts := w.row.attempts + 1, updatedAt := w.now)
            && |e.claims| == |w.claims| + 1
            && forall k: nat :: k < n ==> Stalled(e, k)
  {
    var e := Next(w, Do(TakeClaim(true)));
    forall k: nat | k < n ensures Stalled(e, k) {
      assert Stalled(w, k);
    }
  }

  lemma RunParts(w: World, a: seq<Step>, st: Step, b: seq<Step>)
    ensures Run(w, a + [st] + b) == Run(Next(Run(w, a), st), b)
  {
    RunAppend(w, a + [st], b);
    RunAppend(w, a, [st]);
    RunSingle(Run(w, a), st);
  }

  /** The last regular attempt, with every earlier pass stalled in fail_event. */
  ghost function LastRegularClaim(w: World): World
    requires w.row.maxAttempts >= 1
  {
    Next(Run(w, StallBlocks(w.row.maxAttempts - 1)), Do(TakeClaim(true)))
  }

  lemma LastRegularClaimState(w: World)
    requires Fresh(w)
    ensures var e := LastRegularClaim(w);
            && e.row.status == Processing && |e.claims| == e.row.attempts == w.row.maxAttempts == e.row.maxAttempts
            && forall k: nat :: k < w.row.maxAttempts - 1 ==> Stalled(e, k)
  {
    StallBlocksEffect(w, w.row.maxAttempts - 1);
    ClaimWhileStalled(Run(w, StallBlocks(w.row.maxAttempts - 1)), w.row.maxAttempts - 1);
  }

  /** For every budget there is a run that claims the job 2 * max_attempts - 1 times. */
  lemma AttemptBoundReached(w: World)
    requires Fresh(w)
    ensures Run(w, WorstRun(w.row.maxAttempts)).row.attempts == 2 * w.row.maxAttempts - 1
  {
    var n := w.row.maxAttempts - 1;
    LastRegularClaimState(w);
    RunParts(w, StallBlocks(n), Do(TakeClaim(true)), ReviveBlocks(n));
    var e := LastRegularClaim(w);
    assert Run(w, WorstRun(w.row.maxAttempts)) == Run(e, ReviveBlocks(n));
    ReviveBlocksEffect(e, n, n);
  }
}
