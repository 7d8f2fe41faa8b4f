/**
 Every job is resolved. A round is: the clock moves on by at least 300 s, the reaper runs, and
 one worker polls until nothing is eligible. Integration outcomes are arbitrary, and so is which
 reports get lost.
 */
module Resolution {
  import opened Options
  import opened JobRows
  import opened JobApi
  import opened Worker
  import Q = JobQueue
  import L = JobLifecycle
  import P = JobProtocol

  datatype Round = Round(at: Time, work: string -> Attempt)

  function RoundRow(r: Job, at: Time, a: Attempt): Job {
    var reaped := ReapRow(r, at);
    if Claimable(reaped, at) then WorkRow(reaped, at, a) else reaped
  }

  function AfterRound(rows: map<string, Job>, r: Round): map<string, Job> {
    map id <- rows :: RoundRow(rows[id], r.at, r.work(id))
  }

  function AfterRounds(rows: map<string, Job>, rounds: seq<Round>): map<string, Job>
    decreases rounds
  {
    if rounds == [] then rows else AfterRounds(AfterRound(rows, rounds[0]), rounds[1..])
  }

  /** The handlers and the poll loop carry out one round. */
  method RunRound(api: JobTable, r: Round)
    requires forall id <- api.rows :: r.work(id).claim == Answered
    modifies api`rows
    ensures api.rows == AfterRound(old(api.rows), r)
    ensures Eligible(api.rows, r.at) == {}
  {
    var _ := api.ReapStaleJobs(r.at);
    var _ := PollUntilEmpty(api, r.at, r.work);
  }

  ghost function RowsOf(q: Q.Queue): map<string, Job> {
    map id <- q.jobs :: q.jobs[id].row
  }

  /** create_event on the table is one recording step of the queue, and answers as that step says. */
  method RecordEvent(api: JobTable, ghost q: Q.Queue, body: EventBody, freshId: string, now: Time, redisUp: bool)
    returns (r: Reply<Created>)
    requires api.rows == RowsOf(q) && now == q.now && freshId !in q.jobs && Q.UniqueKeys(q)
    modifies api
    ensures api.rows == RowsOf(Q.Apply(q, Q.Record(freshId, body)))
    ensures r.Answer? <==> Q.Recordable(body)
    ensures r.Answer? ==> Q.Recorded(r.value.id, r.value.duplicate) == Q.AnswerOf(q, freshId, body)
  {
    r := api.CreateEvent(body, true, freshId, now, redisUp);
    assert forall id <- q.jobs :: RowsOf(q)[id] == q.jobs[id].row;
    if Q.KeyTaken(q, body) {
      var found :| found in q.jobs && SameKey(body.providerCallId, body.eventType, q.jobs[found].row);
      assert RowsOf(q)[found].providerCallId == body.providerCallId && RowsOf(q)[found].eventType == body.eventType;
    }
  }

  // ------------------------------------------------------ bounded resolution

  /** Rounds that are certainly enough for a row. */
  ghost function Need(r: Job): nat {
    var left := if r.attempts < r.maxAttempts then r.maxAttempts - r.attempts else 0;
    if Terminal(r.status) then 0
    else if r.status == Processing then left + 1
    else (if left == 0 then 1 else left) + 1
  }

  lemma RoundProgress(r: Job, before: Time, at: Time, a: Attempt)
    requires RowOk(r, before) && at >= before + MAX_BACKOFF && a.claim == Answered
    ensures RowOk(RoundRow(r, at, a), at)
    ensures Need(RoundRow(r, at, a)) < Need(r) || Terminal(RoundRow(r, at, a).status)
    ensures RoundRow(r, at, a).maxAttempts == r.maxAttempts
  {
    var reaped := ReapRow(r, at);
    assert |REAP_ERROR| <= 2014;
    if Claimable(reaped, at) && a.outcome.Raised? {
      PlanFailOk(ClaimRow(reaped, at), a.outcome.error, true, at);
    }
  }

  ghost predicate WellSpaced(before: Time, rounds: seq<Round>)
    decreases rounds
  {
    rounds == [] || (rounds[0].at >= before + 300 * SECOND && WellSpaced(rounds[0].at, rounds[1..]))
  }

  lemma {:induction false} RoundsResolve(rows: map<string, Job>, before: Time, rounds: seq<Round>, id: string)
    requires id in rows && RowOk(rows[id], before) && WellSpaced(before, rounds)
    requires forall r <- rounds :: r.work(id).claim == Answered
    requires |rounds| >= Need(rows[id])
    ensures id in AfterRounds(rows, rounds) && Terminal(AfterRounds(rows, rounds)[id].status)
    decreases |rounds|
  {
    if rounds != [] {
      RoundProgress(rows[id], before, rounds[0].at, rounds[0].work(id));
      RoundsResolve(AfterRound(rows, rounds[0]), rounds[0].at, rounds[1..], id);
    }
  }

  /**
   From any state that any interleaving of any workers can reach, max_attempts + 1 rounds leave
   the job completed or failed.
   */
  lemma BoundedResolution(w: P.World, steps: seq<P.Step>, rows: map<string, Job>, rounds: seq<Round>, id: string)
    requires P.Fresh(w) && id in rows && rows[id] == P.Run(w, steps).row
    requires WellSpaced(P.Run(w, steps).now, rounds)
    requires forall r <- rounds :: r.work(id).claim == Answered
    requires |rounds| >= w.row.maxAttempts + 1
    ensures id in AfterRounds(rows, rounds) && Terminal(AfterRounds(rows, rounds)[id].status)
  {
    P.FreshInv(w);
    P.RunKeepsInv(w, steps);
    P.RunKeepsBudget(w, steps);
    RoundsResolve(rows, P.Run(w, steps).now, rounds, id);
  }

  /** The handlers and the poll loop carry out round after round. */
  method RunRounds(api: JobTable, rounds: seq<Round>)
    requires forall r <- rounds, id <- api.rows :: r.work(id).claim == Answered
    modifies api`rows
    ensures api.rows == AfterRounds(old(api.rows), rounds)
  {
    for i := 0 to |rounds|
      invariant api.rows.Keys == old(api.rows).Keys
      invariant AfterRounds(api.rows, rounds[i..]) == AfterRounds(old(api.rows), rounds)
    {
      assert rounds[i] in rounds && rounds[i..][1..] == rounds[i + 1..];
      RunRound(api, rounds[i]);
    }
    assert rounds[|rounds|..] == [];
  }

  lemma EveryJobResolved(q: Q.Queue, steps: seq<Q.QueueStep>, now: Time, rounds: seq<Round>, id: string)
    requires q == Q.ApplyAll(Q.Empty(now), steps) && id in q.jobs && WellSpaced(q.now, rounds) && |rounds| >= 21
    requires forall r <- rounds :: r.work(id).claim == Answered
    ensures id in AfterRounds(RowsOf(q), rounds) && Terminal(AfterRounds(RowsOf(q), rounds)[id].status)
  {
    Q.EveryReachableJob(now, steps, id);
    RoundsResolve(RowsOf(q), q.now, rounds, id);
  }

  lemma {:induction false} RoundsAddNoJobs(rows: map<string, Job>, rounds: seq<Round>)
    ensures AfterRounds(rows, rounds).Keys == rows.Keys
    decreases |rounds|
  {
    if rounds != [] {
      RoundsAddNoJobs(AfterRound(rows, rounds[0]), rounds[1..]);
    }
  }

  /**
   Whatever table the services have been left with, 21 rounds of the reaper and the poll loop leave
   no job of it open: that covers every budget the API accepts.
   */
  method ResolveAll(api: JobTable, ghost now: Time, ghost steps: seq<Q.QueueStep>, rounds: seq<Round>)
    requires api.rows == RowsOf(Q.ApplyAll(Q.Empty(now), steps))
    requires WellSpaced(Q.ApplyAll(Q.Empty(now), steps).now, rounds) && |rounds| >= 21
    requires forall r <- rounds, id <- api.rows :: r.work(id).claim == Answered
    modifies api`rows
    ensures api.rows.Keys == old(api.rows).Keys
    ensures forall id <- api.rows :: Terminal(api.rows[id].status)
  {
    ghost var q := Q.ApplyAll(Q.Empty(now), steps);
    RunRounds(api, rounds);
    RoundsAddNoJobs(RowsOf(q), rounds);
    forall id <- q.jobs ensures id in api.rows && Terminal(api.rows[id].status) {
      EveryJobResolved(q, steps, now, rounds, id);
    }
  }

  /** The bound is exact: when every report is lost, max_attempts rounds leave the job processing. */
  lemma {:induction false} LostReportsNeedEveryRound(rows: map<string, Job>, before: Time, rounds: seq<Round>, id: string)
    requires id in rows && RowOk(rows[id], before) && WellSpaced(before, rounds)
    requires forall r <- rounds :: r.work(id).claim == Answered && !r.work(id).reported
    requires !Terminal(rows[id].status) && rounds != []
    requires rows[id].attempts + |rounds| <= rows[id].maxAttempts
    ensures id in AfterRounds(rows, rounds)
    ensures AfterRounds(rows, rounds)[id].status == Processing
    ensures AfterRounds(rows, rounds)[id].attempts == rows[id].attempts + |rounds|
    decreases |rounds|
  {
    var rows' := AfterRound(rows, rounds[0]);
    RoundProgress(rows[id], before, rounds[0].at, rounds[0].work(id));
    if |rounds| > 1 {
      LostReportsNeedEveryRound(rows', rounds[0].at, rounds[1..], id);
    } else {
      assert AfterRounds(rows', rounds[1..]) == rows';
    }
  }

  // --------------------------------------- the worker obeys the protocol

  /** The protocol steps of one pass, taken back to back as claim number k. */
  function PassSteps(k: nat, a: Attempt): seq<P.Step> {
    if a.claim.NeverSent? then []
    else
      [P.Do(P.TakeClaim(a.claim == Answered))] +
      (if a.claim.AnswerLost? then []
       else match a.outcome
         case Succeeded =>
           [P.Do(P.Integrate(k, true, true, ""))] +
           (if a.reported then [P.Do(P.ReadForComplete(k)), P.Do(P.WriteComplete(k))] else [P.Do(P.Abandon(k))])
         case Raised(error) =>
           [P.Do(P.Integrate(k, false, true, error))] +
           (if a.reported && error != "" then [P.Do(P.ReadForFail(k)), P.Do(P.WriteFail(k))] else [P.Do(P.Abandon(k))]))
  }

  lemma RunPair(w: P.World, a: P.Step, b: P.Step)
    ensures P.Run(w, [a, b]) == P.Next(P.Next(w, a), b)
  {
    P.RunSingle(w, a);
    P.RunSingle(P.Next(w, a), b);
    P.RunAppend(w, [a], [b]);
    assert [a] + [b] == [a, b];
  }

  /** What follows an answered claim: the integration, then the report, or none. */
  lemma SuccessAfterClaim(w: P.World, k: nat, a: Attempt)
    requires P.At(w, k) && w.claims[k].phase == P.Working
    requires w.row.status == Processing && a.claim == Answered && a.outcome == Succeeded
    ensures P.Run(w, PassSteps(k, a)[1..]).row == if a.reported then CompleteRow(w.row, w.now) else w.row
  {
    var steps := PassSteps(k, a)[1..];
    if a.reported {
      P.RunThree(w, steps[0], steps[1], steps[2]);
      assert steps == [steps[0], steps[1], steps[2]];
    } else {
      RunPair(w, steps[0], steps[1]);
      assert steps == [steps[0], steps[1]];
    }
  }

  lemma FailureAfterClaim(w: P.World, k: nat, a: Attempt)
    requires P.At(w, k) && w.claims[k].phase == P.Working
    requires w.row.status == Processing && a.claim == Answered && a.outcome.Raised?
    ensures P.Run(w, PassSteps(k, a)[1..]).row ==
            if a.reported && a.outcome.error != "" then FailRow(w.row, PlanFail(w.row, a.outcome.error, true, w.now), w.now)
            else w.row
  {
    var steps := PassSteps(k, a)[1..];
    if a.reported && a.outcome.error != "" {
      P.RunThree(w, steps[0], steps[1], steps[2]);
      assert steps == [steps[0], steps[1], steps[2]];
    } else {
      RunPair(w, steps[0], steps[1]);
      assert steps == [steps[0], steps[1]];
    }
  }

  /** A refused claim starts no pass, so there is nothing for the rest of its steps to act on. */
  lemma {:induction false} RefusedClaim(w: P.World, k: nat, steps: seq<P.Step>)
    requires !Claimable(w.row, w.now) && k >= |w.claims|
    requires forall i :: 0 <= i < |steps| ==> steps[i].Do? && (steps[i].action.TakeClaim? || steps[i].action.k == k)
    ensures P.Run(w, steps) == w
    decreases |steps|
  {
    if steps != [] {
      assert P.Next(w, steps[0]) == w;
      RefusedClaim(w, k, steps[1..]);
    }
  }

  lemma PassStepsShape(k: nat, a: Attempt)
    ensures forall i :: 0 <= i < |PassSteps(k, a)| ==>
              PassSteps(k, a)[i].Do? && (PassSteps(k, a)[i].action.TakeClaim? || PassSteps(k, a)[i].action.k == k)
    ensures a.claim == Answered ==> PassSteps(k, a) == [P.Do(P.TakeClaim(true))] + PassSteps(k, a)[1..]
    ensures a.claim == AnswerLost ==> PassSteps(k, a) == [P.Do(P.TakeClaim(false))]
  {
  }

  /** What process_one does to a row is a run of the protocol, whatever else is going on around it. */
  lemma PassIsProtocolRun(w: P.World, a: Attempt)
    ensures P.Run(w, PassSteps(|w.claims|, a)).row == WorkRow(w.row, w.now, a)
  {
    var k := |w.claims|;
    PassStepsShape(k, a);
    if !Claimable(w.row, w.now) {
      RefusedClaim(w, k, PassSteps(k, a));
    } else if a.claim.Answered? {
      var claimed := P.Next(w, P.Do(P.TakeClaim(true)));
      var rest := PassSteps(k, a)[1..];
      if a.outcome.Succeeded? {
        SuccessAfterClaim(claimed, k, a);
      } else {
        FailureAfterClaim(claimed, k, a);
      }
      P.RunAppend(w, [P.Do(P.TakeClaim(true))], rest);
      P.RunSingle(w, P.Do(P.TakeClaim(true)));
    } else if a.claim.AnswerLost? {
      P.RunSingle(w, P.Do(P.TakeClaim(false)));
    }
  }

  /** An atomic handler is its read followed at once by its guarded update. */
  lemma AtomicReports(w: P.World, k: nat)
    requires P.At(w, k)
    ensures w.claims[k].phase.Refused? ==>
              P.Act(P.Act(w, P.ReadForFail(k)), P.WriteFail(k)).row ==
              L.Serve(w.row, L.Timed(w.now, L.Fail(w.claims[k].phase.error, true)))
    ensures w.claims[k].phase.Accepted? ==>
              P.Act(P.Act(w, P.ReadForComplete(k)), P.WriteComplete(k)).row ==
              L.Serve(w.row, L.Timed(w.now, L.Complete))
  {
  }
}
