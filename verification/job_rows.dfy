/** One `call_jobs` row and the guarded updates that services/api applies to it. */
module JobRows {
  import opened Options

  /** Microseconds, the resolution of both timestamptz and Python's datetime. */
  type Time = int

  const SECOND: Time := 1_000_000
  const STALE_PROCESSING: Time := 120 * SECOND
  const MAX_BACKOFF: Time := 300 * SECOND
  const MAX_ERROR_CHARS := 2000
  const TRUNCATION_MARK := "...(truncated)"
  const REAP_ERROR := "reaped: worker did not report completion in time"

  datatype Status = Queued | Processing | Retrying | Completed | Failed

  /** The mutable columns of a row, plus the two that make its idempotency key. */
  datatype Job = Job(
    providerCallId: Option<string>,
    eventType: string,
    status: Status,
    attempts: nat,
    maxAttempts: nat,
    lastError: Option<string>,
    updatedAt: Time,
    availableAt: Time,
    processedAt: Option<Time>)

  /** The body of POST /internal/v1/events, without the columns nothing here reads. */
  datatype EventBody = EventBody(providerCallId: Option<string>, eventType: string, maxAttempts: Option<int>)

  /** The field constraints that answer 422 when broken. */
  predicate ValidBody(b: EventBody) {
    1 <= |b.eventType| <= 50 && (b.maxAttempts.Some? ==> 1 <= b.maxAttempts.value <= 20)
  }

  /** provider_call_id fits its String(255) column; the schema of the request does not check that. */
  predicate FitsColumns(b: EventBody) {
    b.providerCallId.Some? ==> |b.providerCallId.value| <= 255
  }

  function NewJob(b: EventBody, now: Time): Job
    requires ValidBody(b)
  {
    Job(b.providerCallId, b.eventType, Queued, 0,
        if b.maxAttempts.Some? then b.maxAttempts.value else 5,
        None, now, now, None)
  }

  /** The partial unique index: rows without a provider_call_id never collide. */
  predicate SameKey(providerCallId: Option<string>, eventType: string, r: Job) {
    providerCallId.Some? && r.providerCallId == providerCallId && r.eventType == eventType
  }

  predicate Terminal(s: Status) {
    s == Completed || s == Failed
  }

  const WAITING: set<Status> := {Queued, Retrying}

  predicate Waiting(s: Status) {
    s in WAITING
  }

  // ---------------------------------------------------------------- backoff

  function Pow2(n: nat): nat {
    if n == 0 then 1 else 2 * Pow2(n - 1)
  }

  function BackoffSeconds(attempts: int): (d: nat)
    ensures 5 <= d <= 300
  {
    Pow2Positive(if attempts - 1 > 0 then attempts - 1 else 0);
    var raw := 5 * Pow2(if attempts - 1 > 0 then attempts - 1 else 0);
    if raw <= 300 then raw else 300
  }

  lemma {:induction false} Pow2Positive(n: nat)
    ensures Pow2(n) >= 1
  {
    if n > 0 {
      Pow2Positive(n - 1);
    }
  }

  lemma {:induction false} Pow2Grows(n: nat, m: nat)
    requires n <= m
    ensures Pow2(n) <= Pow2(m)
    decreases m
  {
    if n < m {
      Pow2Grows(n, m - 1);
      Pow2Positive(m - 1);
    }
  }

  /** The cap takes over exactly from the seventh attempt on, and the delay never shrinks. */
  lemma BackoffShape(a: nat, b: nat)
    requires 1 <= a <= b
    ensures BackoffSeconds(a) <= BackoffSeconds(b)
    ensures BackoffSeconds(a) == 300 <==> a >= 7
    ensures a <= 6 ==> BackoffSeconds(a) == 5 * Pow2(a - 1)
  {
    Pow2Grows(a - 1, b - 1);
    assert Pow2(5) == 32 by { assert Pow2(3) == 8; }
    assert Pow2(6) == 64;
    if a >= 7 {
      Pow2Grows(6, a - 1);
    } else {
      Pow2Grows(a - 1, 5);
    }
  }

  // ------------------------------------------------------------- error text

  function TruncateError(error: string): string {
    if |error| <= MAX_ERROR_CHARS then error else error[..MAX_ERROR_CHARS] + TRUNCATION_MARK
  }

  /** The stored text is at most 2014 characters, keeps the first 2000, and storing it again changes nothing. */
  lemma TruncateErrorBounds(error: string)
    ensures |TruncateError(error)| <= 2014
    ensures |error| <= 2000 ==> TruncateError(error) == error
    ensures |error| > 2000 ==> error[..2000] <= TruncateError(error)
    ensures TruncateError(TruncateError(error)) == TruncateError(error)
  {
    if |error| > 2000 {
      assert TruncateError(error)[..2000] == error[..2000];
    }
  }

  // -------------------------------------------------------- guarded updates

  /** The WHERE clause of claim_event. */
  predicate Claimable(r: Job, now: Time) {
    Waiting(r.status) && r.availableAt <= now
  }

  function ClaimRow(r: Job, now: Time): Job {
    if Claimable(r, now) then r.(status := Processing, attempts := r.attempts + 1, updatedAt := now) else r
  }

  function CompleteRow(r: Job, now: Time): Job {
    if r.status == Processing then r.(status := Completed, processedAt := Some(now), updatedAt := now) else r
  }

  /** The values fail_event computes from the row it read; `None` leaves available_at alone. */
  datatype FailPlan = FailPlan(status: Status, availableAt: Option<Time>, error: string)

  function PlanFail(seen: Job, error: string, retry: bool, now: Time): FailPlan {
    if retry && seen.attempts < seen.maxAttempts then
      FailPlan(Retrying, Some(now + BackoffSeconds(seen.attempts) * SECOND), TruncateError(error))
    else
      FailPlan(Failed, None, TruncateError(error))
  }

  /** The guarded UPDATE of fail_event: only the status is checked again. */
  function FailRow(r: Job, plan: FailPlan, now: Time): Job {
    if r.status == Processing then
      r.(status := plan.status,
         lastError := Some(plan.error),
         availableAt := if plan.availableAt.Some? then plan.availableAt.value else r.availableAt,
         updatedAt := now,
         processedAt := if plan.status == Failed then Some(now) else r.processedAt)
    else r
  }

  /** A reported failure, told with the numbers and the text it writes. */
  lemma FailExactly(r: Job, error: string, retry: bool, now: Time)
    requires r.status == Processing
    ensures var again := retry && r.attempts < r.maxAttempts;
            FailRow(r, PlanFail(r, error, retry, now), now) ==
            r.(status := if again then Retrying else Failed,
               lastError := Some(if |error| <= 2000 then error else error[..2000] + "...(truncated)"),
               availableAt :=
                 if !again then r.availableAt
                 else now + 1_000_000 * (if r.attempts <= 6 then [5, 5, 10, 20, 40, 80, 160][r.attempts] else 300),
               updatedAt := now,
               processedAt := if again then r.processedAt else Some(now))
  {
    BackoffTable(r.attempts);
  }

  lemma BackoffTable(attempts: nat)
    ensures BackoffSeconds(attempts) == if attempts <= 6 then [5, 5, 10, 20, 40, 80, 160][attempts] else 300
  {
    if attempts >= 1 {
      BackoffShape(attempts, attempts);
    }
    assert Pow2(2) == 4 && Pow2(3) == 8;
    assert Pow2(4) == 16 && Pow2(5) == 32;
  }

  predicate Stale(r: Job, now: Time) {
    r.status == Processing && r.updatedAt < now - STALE_PROCESSING
  }

  function ReapRow(r: Job, now: Time): Job {
    if Stale(r, now) then
      r.(status := if r.attempts < r.maxAttempts then Retrying else Failed,
         availableAt := now,
         processedAt := if r.attempts < r.maxAttempts then None else Some(now),
         lastError := if r.lastError.Some? then r.lastError else Some(REAP_ERROR),
         updatedAt := now)
    else r
  }

  // --------------------------------------------------------- row invariants

  /** What every reachable row satisfies, whatever the interleaving. */
  ghost predicate RowOk(r: Job, now: Time) {
    && r.maxAttempts >= 1
    && r.updatedAt <= now
    && r.availableAt <= now + MAX_BACKOFF
    && (r.processedAt.Some? <==> Terminal(r.status))
    && (r.lastError.Some? ==> |r.lastError.value| <= 2014)
    && (r.status == Retrying || r.status == Failed ==> r.lastError.Some?)
  }

  /** What fail_event may have in hand when it issues its UPDATE. */
  ghost predicate PlanOk(p: FailPlan, now: Time) {
    && (p.status == Retrying || p.status == Failed)
    && (p.availableAt.Some? <==> p.status == Retrying)
    && (p.availableAt.Some? ==> p.availableAt.value <= now + MAX_BACKOFF)
    && |p.error| <= 2014
  }

  lemma PlanFailOk(seen: Job, error: string, retry: bool, now: Time)
    ensures PlanOk(PlanFail(seen, error, retry, now), now)
    ensures PlanFail(seen, error, retry, now).status == Retrying <==> retry && seen.attempts < seen.maxAttempts
  {
    TruncateErrorBounds(error);
  }

  /** A reaped job can be claimed at once if it has attempts left, and has failed if not; an earlier error is kept. */
  lemma ReapResolves(r: Job, now: Time)
    requires Stale(r, now)
    ensures Claimable(ReapRow(r, now), now) <==> r.attempts < r.maxAttempts
    ensures ReapRow(r, now).status == Failed <==> r.attempts >= r.maxAttempts
    ensures ReapRow(r, now).lastError.Some? && (r.lastError.Some? ==> ReapRow(r, now).lastError == r.lastError)
    ensures !Stale(ReapRow(r, now), now) && ReapRow(r, now).attempts == r.attempts
  {
  }

  lemma UpdatesKeepRowOk(r: Job, now: Time, plan: FailPlan)
    requires RowOk(r, now) && PlanOk(plan, now)
    ensures RowOk(ClaimRow(r, now), now)
    ensures RowOk(CompleteRow(r, now), now)
    ensures RowOk(FailRow(r, plan, now), now)
    ensures RowOk(ReapRow(r, now), now)
  {
    assert |REAP_ERROR| <= 2014;
  }
}
