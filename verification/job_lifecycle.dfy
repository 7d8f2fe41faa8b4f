/**
 The life of one job when every handler is a single atomic step: how often its status can
 change, and how much backoff it can accumulate.
 */
module JobLifecycle {
  import opened JobRows

  datatype Request = Claim | Complete | Fail(error: string, retry: bool) | Reap
  datatype Timed = Timed(at: Time, request: Request)

  function Serve(r: Job, q: Timed): Job {
    match q.request
    case Claim => ClaimRow(r, q.at)
    case Complete => CompleteRow(r, q.at)
    case Fail(error, retry) => FailRow(r, PlanFail(r, error, retry, q.at), q.at)
    case Reap => ReapRow(r, q.at)
  }

  function ServeAll(r: Job, qs: seq<Timed>): Job
    decreases qs
  {
    if qs == [] then r else ServeAll(Serve(r, qs[0]), qs[1..])
  }

  lemma {:induction false} ServeAllAppend(r: Job, qs: seq<Timed>, more: seq<Timed>)
    ensures ServeAll(r, qs + more) == ServeAll(ServeAll(r, qs), more)
    decreases |qs|
  {
    if qs == [] {
      assert qs + more == more;
    } else {
      assert (qs + more)[1..] == qs[1..] + more;
      ServeAllAppend(Serve(r, qs[0]), qs[1..], more);
    }
  }

  /** A waiting row still has an attempt left; no row has used more than it was given. */
  ghost predicate Budgeted(r: Job) {
    && r.maxAttempts >= 1
    && r.attempts <= r.maxAttempts
    && (Waiting(r.status) ==> r.attempts < r.maxAttempts)
    && (r.status == Processing ==> r.attempts >= 1)
  }

  // ------------------------------------------------------- status changes

  ghost function Rank(r: Job): int {
    if Terminal(r.status) then 0
    else if r.status == Processing then 2 * (r.maxAttempts - r.attempts) + 1
    else 2 * (r.maxAttempts - r.attempts)
  }

  /** Requests that give the job its full number of tries. */
  ghost predicate Patient(q: Timed) {
    !q.request.Complete? && (q.request.Fail? ==> q.request.retry)
  }

  lemma ServeStep(r: Job, q: Timed)
    requires Budgeted(r)
    ensures Budgeted(Serve(r, q)) && Serve(r, q).maxAttempts == r.maxAttempts
    ensures Serve(r, q) == r <==> Serve(r, q).status == r.status
    ensures Serve(r, q) != r ==> 0 <= Rank(Serve(r, q)) < Rank(r)
    ensures Serve(r, q) != r && Patient(q) ==> Rank(Serve(r, q)) == Rank(r) - 1
    ensures Terminal(r.status) ==> Serve(r, q) == r
  {
  }

  ghost function StatusChanges(r: Job, qs: seq<Timed>): nat
    decreases qs
  {
    if qs == [] then 0
    else (if Serve(r, qs[0]).status != r.status then 1 else 0) + StatusChanges(Serve(r, qs[0]), qs[1..])
  }

  /** Every run pays one unit of rank for each status change, and patient runs pay no more. */
  lemma {:induction false} StatusChangesPayRank(r: Job, qs: seq<Timed>)
    requires Budgeted(r)
    ensures Budgeted(ServeAll(r, qs)) && ServeAll(r, qs).maxAttempts == r.maxAttempts
    ensures StatusChanges(r, qs) + Rank(ServeAll(r, qs)) <= Rank(r)
    ensures (forall q <- qs :: Patient(q)) ==> StatusChanges(r, qs) + Rank(ServeAll(r, qs)) == Rank(r)
    decreases |qs|
  {
    if qs != [] {
      ServeStep(r, qs[0]);
      StatusChangesPayRank(Serve(r, qs[0]), qs[1..]);
    }
  }

  lemma StatusChangesBounded(r: Job, qs: seq<Timed>)
    requires r.status == Queued && r.attempts == 0 && r.maxAttempts >= 1
    ensures StatusChanges(r, qs) <= 2 * r.maxAttempts
    ensures ServeAll(r, qs).attempts <= r.maxAttempts
    ensures Terminal(ServeAll(r, qs).status) && (forall q <- qs :: Patient(q)) ==> StatusChanges(r, qs) == 2 * r.maxAttempts
  {
    StatusChangesPayRank(r, qs);
  }

  // -------------------------------------------------------------- backoff

  /** The delay that a request schedules by sending the row to 'retrying' through fail_event. */
  ghost function Delay(r: Job, q: Timed): Time {
    if q.request.Fail? && r.status == Processing && Serve(r, q).status == Retrying
    then Serve(r, q).availableAt - q.at else 0
  }

  ghost function TotalDelay(r: Job, qs: seq<Timed>): Time
    decreases qs
  {
    if qs == [] then 0 else Delay(r, qs[0]) + TotalDelay(Serve(r, qs[0]), qs[1..])
  }

  ghost function BackoffSum(k: nat): nat {
    if k == 0 then 0 else BackoffSum(k - 1) + BackoffSeconds(k)
  }

  lemma {:induction false} BackoffSumGrows(j: nat, k: nat)
    requires j <= k
    ensures BackoffSum(j) <= BackoffSum(k)
    decreases k
  {
    if j < k {
      BackoffSumGrows(j, k - 1);
    }
  }

  lemma {:induction false} BackoffSumClosedForm(k: nat)
    ensures k <= 6 ==> BackoffSum(k) == 5 * (Pow2(k) - 1)
    ensures k >= 6 ==> BackoffSum(k) == 315 + 300 * (k - 6)
  {
    if k > 0 {
      BackoffSumClosedForm(k - 1);
      BackoffShape(k, k);
      assert Pow2(k) == 2 * Pow2(k - 1);
    }
    if k == 6 {
      assert Pow2(3) == 8;
    }
  }

  /** Backoff the job may still be given. */
  ghost function Room(r: Job): int
    requires Budgeted(r)
  {
    if Terminal(r.status) then 0
    else if r.status == Processing then BackoffSum(r.maxAttempts - 1) - BackoffSum(r.attempts - 1)
    else BackoffSum(r.maxAttempts - 1) - BackoffSum(r.attempts)
  }

  lemma {:induction false} TotalDelayWithinRoom(r: Job, qs: seq<Timed>)
    requires Budgeted(r)
    ensures 0 <= TotalDelay(r, qs) <= Room(r) * SECOND
    decreases |qs|
  {
    if Waiting(r.status) {
      BackoffSumGrows(r.attempts, r.maxAttempts - 1);
    } else if r.status == Processing {
      BackoffSumGrows(r.attempts - 1, r.maxAttempts - 1);
    }
    if qs != [] {
      ServeStep(r, qs[0]);
      TotalDelayWithinRoom(Serve(r, qs[0]), qs[1..]);
    }
  }

  /** A request that loses no backoff: no reaping, no success, every failure with a retry. */
  ghost predicate Orderly(q: Timed) {
    q.request.Claim? || (q.request.Fail? && q.request.retry)
  }

  lemma DelayExact(r: Job, q: Timed)
    requires Budgeted(r) && Orderly(q)
    ensures Budgeted(Serve(r, q))
    ensures Delay(r, q) == (Room(r) - Room(Serve(r, q))) * SECOND
  {
    if q.request.Fail? && r.status == Processing {
      assert BackoffSum(r.attempts) == BackoffSum(r.attempts - 1) + BackoffSeconds(r.attempts);
    }
  }

  /** A run of nothing but claims and retried failures writes exactly the backoff of the attempts it uses up. */
  lemma {:induction false} TotalDelayExact(r: Job, qs: seq<Timed>)
    requires Budgeted(r) && forall q <- qs :: Orderly(q)
    ensures Budgeted(ServeAll(r, qs))
    ensures TotalDelay(r, qs) + Room(ServeAll(r, qs)) * SECOND == Room(r) * SECOND
    decreases |qs|
  {
    if qs != [] {
      ServeStep(r, qs[0]);
      DelayExact(r, qs[0]);
      TotalDelayExact(Serve(r, qs[0]), qs[1..]);
    }
  }

  /** A fresh job that such a run has failed has been given all its backoff: 75 s at the default of 5 attempts. */
  lemma ExhaustedDelay(r: Job, qs: seq<Timed>)
    requires r.status == Queued && r.attempts == 0 && r.maxAttempts >= 1 && forall q <- qs :: Orderly(q)
    requires Terminal(ServeAll(r, qs).status)
    ensures r.maxAttempts <= 7 ==> TotalDelay(r, qs) == 5 * (Pow2(r.maxAttempts - 1) - 1) * SECOND
    ensures r.maxAttempts >= 7 ==> TotalDelay(r, qs) == (315 + 300 * (r.maxAttempts - 7)) * SECOND
    ensures r.maxAttempts == 5 ==> TotalDelay(r, qs) == 75_000_000
  {
    TotalDelayExact(r, qs);
    BackoffSumClosedForm(r.maxAttempts - 1);
    assert Pow2(4) == 16 by { assert Pow2(2) == 4; }
  }

  /** 75 s in all for the default of 5 attempts, 4215 s for the maximum of 20. */
  lemma TotalDelayBounded(r: Job, qs: seq<Timed>)
    requires r.status == Queued && r.attempts == 0 && r.maxAttempts >= 1
    ensures TotalDelay(r, qs) <= BackoffSum(r.maxAttempts - 1) * SECOND
    ensures r.maxAttempts == 5 ==> TotalDelay(r, qs) <= 75 * SECOND
    ensures r.maxAttempts == 20 ==> TotalDelay(r, qs) <= 4215 * SECOND
  {
    TotalDelayWithinRoom(r, qs);
    BackoffSumClosedForm(r.maxAttempts - 1);
    assert Pow2(4) == 16;
  }
}
