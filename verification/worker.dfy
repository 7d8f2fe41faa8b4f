/** The worker process: one pass of process_one, one poll, and the main loop. */
module Worker {
  import opened Options
  import opened JobRows
  import opened JobLifecycle
  import opened JobApi

  const REAP_INTERVAL: Time := 60 * SECOND
  const POLL_LIMIT := 10

  datatype ClaimFate = Answered | NeverSent | AnswerLost
  datatype Outcome = Succeeded | Raised(error: string)

  /** What the environment does to one pass: the claim request, the integration call, the report. */
  datatype Attempt = Attempt(claim: ClaimFate, outcome: Outcome, reported: bool)

  // -------------------------------------------------- what a pass does

  function WorkRow(r: Job, now: Time, a: Attempt): Job {
    if a.claim.NeverSent? || !Claimable(r, now) then r
    else
      var claimed := ClaimRow(r, now);
      if a.claim.AnswerLost? || !a.reported then claimed
      else match a.outcome
        case Succeeded => CompleteRow(claimed, now)
        case Raised(error) =>
          if error == "" then claimed else FailRow(claimed, PlanFail(claimed, error, true, now), now)
  }

  /** What a pass leaves of a job it could claim: the integration's outcome, unless the report went missing. */
  lemma PassOutcome(r: Job, now: Time, a: Attempt)
    requires r.status in {Queued, Retrying} && r.availableAt <= now && a.claim != NeverSent
    ensures var w := WorkRow(r, now, a);
            var told := a.claim == Answered && a.reported;
            && w.attempts == r.attempts + 1 && w.updatedAt == now
            && (w.status == Completed <==> told && a.outcome == Succeeded)
            && (w.status == Retrying <==> told && a.outcome.Raised? && a.outcome.error != "" && r.attempts + 1 < r.maxAttempts)
            && (w.status == Failed <==> told && a.outcome.Raised? && a.outcome.error != "" && r.attempts + 1 >= r.maxAttempts)
            && (w.status == Processing <==> !told || a.outcome == Raised(""))
            && (w.status == Retrying ==> w.availableAt == now + 1_000_000 * (if r.attempts <= 5 then [5, 10, 20, 40, 80, 160][r.attempts] else 300))
  {
    if a.outcome.Raised? {
      FailExactly(ClaimRow(r, now), a.outcome.error, true, now);
    }
  }

  /** The table after passes over the jobs in `done`, each at most once. */
  function Worked(rows: map<string, Job>, done: set<string>, now: Time, work: string -> Attempt): map<string, Job> {
    map id <- rows :: if id in done then WorkRow(rows[id], now, work(id)) else rows[id]
  }

  function Eligible(rows: map<string, Job>, now: Time): set<string> {
    set id <- rows | Claimable(rows[id], now)
  }

  /** A processed job always leaves the eligible set: it is terminal, processing, or backing off. */
  lemma ProcessedLeavesEligible(rows: map<string, Job>, done: set<string>, now: Time, work: string -> Attempt)
    requires forall id <- done :: work(id).claim == Answered
    ensures Eligible(Worked(rows, done, now, work), now) == Eligible(rows, now) - done
  {
    forall id <- rows | id in done ensures !Claimable(WorkRow(rows[id], now, work(id)), now) {
    }
  }

  // ---------------------------------------------- what the loop asks for

  /** A request that reached services/api: about one job, or the reaper. */
  datatype Logged = One(id: string, what: Timed) | All(at: Time)

  function ServeLogged(rows: map<string, Job>, l: Logged): map<string, Job> {
    match l
    case One(id, what) => if id in rows then rows[id := Serve(rows[id], what)] else rows
    case All(at) => map id <- rows :: ReapRow(rows[id], at)
  }

  function ServeLog(rows: map<string, Job>, log: seq<Logged>): map<string, Job>
    decreases log
  {
    if log == [] then rows else ServeLog(ServeLogged(rows, log[0]), log[1..])
  }

  lemma {:induction false} ServeLogAppend(rows: map<string, Job>, log: seq<Logged>, more: seq<Logged>)
    ensures ServeLog(rows, log + more) == ServeLog(ServeLog(rows, log), more)
    decreases |log|
  {
    if log == [] {
      assert log + more == more;
    } else {
      assert (log + more)[1..] == log[1..] + more;
      ServeLogAppend(ServeLogged(rows, log[0]), log[1..], more);
    }
  }

  /** The requests of a log that touch one job. */
  function About(log: seq<Logged>, id: string): seq<Timed> {
    if log == [] then []
    else
      (match log[0]
       case One(i, what) => if i == id then [what] else []
       case All(at) => [Timed(at, Reap)]) + About(log[1..], id)
  }

  /** Whatever ids the loop was woken with, each job lives through a run of ordinary requests. */
  lemma {:induction false} LogPerJob(rows: map<string, Job>, log: seq<Logged>, id: string)
    requires id in rows
    ensures id in ServeLog(rows, log)
    ensures ServeLog(rows, log)[id] == ServeAll(rows[id], About(log, id))
    decreases |log|
  {
    if log != [] {
      var after := ServeLogged(rows, log[0]);
      LogPerJob(after, log[1..], id);
      if About(log, id) != About(log[1..], id) {
        assert About(log, id)[1..] == About(log[1..], id);
      }
    }
  }

  /** No report is sent except right after this worker's own claim of that job. */
  ghost predicate ReportsFollowClaims(log: seq<Logged>) {
    forall i :: 0 <= i < |log| && log[i].One? && !log[i].what.request.Claim? ==>
      i > 0 && log[i - 1] == One(log[i].id, Timed(log[i].what.at, Claim))
  }

  /** Sent at that clock reading; success is reported only after a successful integration. */
  ghost predicate SentBy(l: Logged, now: Time, work: string -> Attempt) {
    && (l.All? ==> l.at == now)
    && (l.One? ==> l.what.at == now && (l.what.request.Complete? ==> work(l.id).outcome == Succeeded))
  }

  // -------------------------------------------------------------- methods

  lemma ReportsFollowClaimsAppend(a: seq<Logged>, b: seq<Logged>)
    requires ReportsFollowClaims(a) && ReportsFollowClaims(b)
    ensures ReportsFollowClaims(a + b)
  {
    forall i | 0 <= i < |a + b| && (a + b)[i].One? && !(a + b)[i].what.request.Claim?
      ensures i > 0 && (a + b)[i - 1] == One((a + b)[i].id, Timed((a + b)[i].what.at, Claim))
    {
      if i >= |a| {
        assert b[i - |a|] == (a + b)[i];
      }
    }
  }

  /** One pass. `raised` is the JobsApiError that escapes process_one; report errors never do. */
  method ProcessOne(api: JobTable, id: string, now: Time, a: Attempt) returns (raised: bool, ghost sent: seq<Logged>)
    modifies api`rows
    ensures raised <==> a.claim != Answered
    ensures api.rows == if id in old(api.rows)
                        then old(api.rows)[id := WorkRow(old(api.rows)[id], now, a)] else old(api.rows)
    ensures api.rows == ServeLog(old(api.rows), sent)
    ensures ReportsFollowClaims(sent)
    ensures forall l <- sent :: l.One? && l.id == id && l.what.at == now
    ensures forall l <- sent :: l.what.request.Complete? ==> a.outcome == Succeeded
  {
    if a.claim.NeverSent? {
      assert id in api.rows ==> api.rows == api.rows[id := api.rows[id]];
      return true, [];
    }
    ghost var claim := One(id, Timed(now, Claim));
    var reply := api.ClaimEvent(id, now);
    assert api.rows == ServeLogged(old(api.rows), claim);
    assert api.rows == ServeLog(old(api.rows), [claim]);
    if a.claim.AnswerLost? || !reply.Answer? || !a.reported {
      return a.claim.AnswerLost?, [claim];
    }
    if a.outcome.Succeeded? {
      var _ := api.CompleteEvent(id, now);
      sent := [claim, One(id, Timed(now, Complete))];
    } else {
      var _ := api.FailEvent(id, a.outcome.error, true, now);
      sent := if a.outcome.error == "" then [claim] else [claim, One(id, Timed(now, Fail(a.outcome.error, true)))];
    }
    ServeLogAppend(old(api.rows), [claim], sent[1..]);
    assert sent == [claim] + sent[1..];
    raised := false;
  }

  function Elements(ids: seq<string>): set<string> {
    set id <- ids
  }

  lemma {:induction false} DistinctSize(ids: seq<string>)
    requires forall i, j :: 0 <= i < j < |ids| ==> ids[i] != ids[j]
    ensures |Elements(ids)| == |ids|
    decreases |ids|
  {
    if ids != [] {
      DistinctSize(ids[..|ids| - 1]);
      assert Elements(ids) == Elements(ids[..|ids| - 1]) + {ids[|ids| - 1]};
    }
  }

  /** A poll takes 10 eligible jobs, or all of them when there are fewer. */
  lemma PollSize(rows: map<string, Job>, now: Time, ids: seq<string>)
    requires FirstListed(rows, WAITING, now, POLL_LIMIT, ids)
    ensures Elements(ids) <= Eligible(rows, now)
    ensures |Elements(ids)| == if |Eligible(rows, now)| <= 10 then |Eligible(rows, now)| else 10
  {
    DistinctSize(ids);
    var e := Eligible(rows, now);
    assert Elements(ids) <= e;
    assert |e| == |Elements(ids)| + |e - Elements(ids)| by {
      assert e == Elements(ids) + (e - Elements(ids));
    }
    if e - Elements(ids) != {} {
      var id :| id in e - Elements(ids);
      assert Listed(rows[id], WAITING, now) && id !in ids;
    }
  }

  lemma WorkedNone(rows: map<string, Job>, ids: seq<string>, now: Time, work: string -> Attempt)
    requires ids == []
    ensures Worked(rows, Elements(ids), now, work) == rows
  {
    assert Elements(ids) == {};
  }

  lemma WorkedOneMore(rows: map<string, Job>, ids: seq<string>, i: nat, now: Time, work: string -> Attempt)
    requires i < |ids| && ids[i] in rows && ids[i] !in Elements(ids[..i])
    ensures Worked(rows, Elements(ids[..i + 1]), now, work) ==
            Worked(rows, Elements(ids[..i]), now, work)[ids[i] := WorkRow(rows[ids[i]], now, work(ids[i]))]
    ensures Worked(rows, Elements(ids[..i]), now, work)[ids[i]] == rows[ids[i]]
  {
    assert Elements(ids[..i + 1]) == Elements(ids[..i]) + {ids[i]};
  }

  /** The passes of one poll: along the list until an error escapes a pass, or a signal comes. */
  ghost predicate PassesAlong(ids: seq<string>, passes: seq<string>, work: string -> Attempt, stopAfter: Option<nat>) {
    && passes <= ids
    && (forall i :: 0 <= i < |passes| ==> stopAfter != Some(i))
    && (forall i :: 0 <= i < |passes| - 1 ==> work(passes[i]).claim == Answered)
    && (passes == ids || stopAfter == Some(|passes|) || (passes != [] && work(passes[|passes| - 1]).claim != Answered))
  }

  /** The requests of the passes so far. */
  ghost predicate SentFor(before: map<string, Job>, after: map<string, Job>, passes: seq<string>,
                          sent: seq<Logged>, now: Time, work: string -> Attempt) {
    && after == ServeLog(before, sent)
    && ReportsFollowClaims(sent)
    && forall l <- sent :: l.One? && l.id in passes && SentBy(l, now, work)
  }

  lemma SentForOneMore(before: map<string, Job>, middle: map<string, Job>, passes: seq<string>, sent: seq<Logged>,
                       now: Time, work: string -> Attempt, id: string, more: seq<Logged>)
    requires SentFor(before, middle, passes, sent, now, work)
    requires SentFor(middle, ServeLog(middle, more), [id], more, now, work)
    ensures SentFor(before, ServeLog(middle, more), passes + [id], sent + more, now, work)
  {
    ServeLogAppend(before, sent, more);
    ReportsFollowClaimsAppend(sent, more);
  }

  lemma ListedAt(rows: map<string, Job>, now: Time, ids: seq<string>, i: nat)
    requires FirstListed(rows, WAITING, now, POLL_LIMIT, ids) && i < |ids|
    ensures ids[i] in rows && ids[i] !in Elements(ids[..i])
  {
    assert ids[i] in ids;
  }

  /** A poll that has done its first i passes. */
  ghost predicate Polling(before: map<string, Job>, rows: map<string, Job>, ids: seq<string>, i: nat, raised: bool,
                          sent: seq<Logged>, now: Time, work: string -> Attempt, stopAfter: Option<nat>)
    requires i <= |ids|
  {
    && rows == Worked(before, Elements(ids[..i]), now, work)
    && SentFor(before, rows, ids[..i], sent, now, work)
    && (stopAfter.Some? ==> i <= stopAfter.value)
    && (forall k :: 0 <= k < i - 1 ==> work(ids[k]).claim == Answered)
    && (raised <==> i > 0 && work(ids[i - 1]).claim != Answered)
  }

  lemma PollingStart(rows: map<string, Job>, ids: seq<string>, now: Time, work: string -> Attempt, stopAfter: Option<nat>)
    ensures Polling(rows, rows, ids, 0, false, [], now, work, stopAfter)
  {
    assert Elements(ids[..0]) == {};
  }

  lemma PollingEnd(before: map<string, Job>, rows: map<string, Job>, ids: seq<string>, i: nat, raised: bool,
                   sent: seq<Logged>, now: Time, work: string -> Attempt, stopAfter: Option<nat>)
    requires i <= |ids| && Polling(before, rows, ids, i, raised, sent, now, work, stopAfter)
    requires i == |ids| || raised || stopAfter == Some(i)
    ensures PassesAlong(ids, ids[..i], work, stopAfter)
  {
    assert i == |ids| ==> ids[..i] == ids;
  }

  lemma PollingOneMore(before: map<string, Job>, rows: map<string, Job>, after: map<string, Job>, ids: seq<string>, i: nat,
                       sent: seq<Logged>, more: seq<Logged>, now: Time, work: string -> Attempt, stopAfter: Option<nat>)
    requires i < |ids| && Polling(before, rows, ids, i, false, sent, now, work, stopAfter) && stopAfter != Some(i)
    requires FirstListed(before, WAITING, now, POLL_LIMIT, ids) && ids[i] in rows
    requires after == rows[ids[i] := WorkRow(rows[ids[i]], now, work(ids[i]))]
    requires SentFor(rows, after, [ids[i]], more, now, work)
    ensures Polling(before, after, ids, i + 1, work(ids[i]).claim != Answered, sent + more, now, work, stopAfter)
  {
    ListedAt(before, now, ids, i);
    WorkedOneMore(before, ids, i, now, work);
    SentForOneMore(before, rows, ids[..i], sent, now, work, ids[i], more);
    assert ids[..i + 1] == ids[..i] + [ids[i]];
  }

  /** Pass number i over a list. */
  method NextPass(api: JobTable, ids: seq<string>, i: nat, now: Time, work: string -> Attempt,
                  ghost stopAfter: Option<nat>, ghost before: map<string, Job>, ghost sent: seq<Logged>)
    returns (raised: bool, ghost all: seq<Logged>)
    requires i < |ids| && Polling(before, api.rows, ids, i, false, sent, now, work, stopAfter) && stopAfter != Some(i)
    requires FirstListed(before, WAITING, now, POLL_LIMIT, ids)
    modifies api`rows
    ensures Polling(before, api.rows, ids, i + 1, raised, all, now, work, stopAfter)
  {
    ghost var more;
    ListedAt(before, now, ids, i);
    raised, more := ProcessOne(api, ids[i], now, work(ids[i]));
    PollingOneMore(before, old(api.rows), api.rows, ids, i, sent, more, now, work, stopAfter);
    all := sent + more;
  }

  /** The poll of one loop cycle. `stopAfter` is where a signal sets the shutdown flag, if it does. */
  method Poll(api: JobTable, now: Time, work: string -> Attempt, stopAfter: Option<nat>)
    returns (ids: seq<string>, passes: seq<string>, ghost sent: seq<Logged>)
    modifies api`rows
    ensures FirstListed(old(api.rows), WAITING, now, POLL_LIMIT, ids)
    ensures PassesAlong(ids, passes, work, stopAfter)
    ensures api.rows == Worked(old(api.rows), Elements(passes), now, work)
    ensures SentFor(old(api.rows), api.rows, passes, sent, now, work)
  {
    var listed := api.ListEligible(WAITING, POLL_LIMIT, now);
    ids := listed.value;
    sent := [];
    PollingStart(api.rows, ids, now, work, stopAfter);
    var i, raised := 0, false;
    while i < |ids| && !raised && stopAfter != Some(i)
      invariant 0 <= i <= |ids|
      invariant Polling(old(api.rows), api.rows, ids, i, raised, sent, now, work, stopAfter)
    {
      raised, sent := NextPass(api, ids, i, now, work, stopAfter, old(api.rows), sent);
      i := i + 1;
    }
    PollingEnd(old(api.rows), api.rows, ids, i, raised, sent, now, work, stopAfter);
    passes := ids[..i];
  }

  /** The first `polls` polls, ten jobs at a time, have taken `done` out of `all`. */
  ghost predicate PollsDone(all: set<string>, done: set<string>, polls: nat) {
    && done <= all
    && |done| == (if 10 * polls <= |all| then 10 * polls else |all|)
    && (polls > 0 ==> 10 * (polls - 1) < |all|)
  }

  lemma OneMorePoll(all: set<string>, done: set<string>, taken: set<string>, polls: nat)
    requires PollsDone(all, done, polls) && taken <= all - done
    requires |taken| == if |all - done| <= POLL_LIMIT then |all - done| else POLL_LIMIT
    ensures taken == {} ==> done == all
    ensures taken != {} ==> PollsDone(all, done + taken, polls + 1)
    ensures taken != {} ==> all - (done + taken) < all - done
  {
    assert all == done + (all - done);
    assert |all| == |done| + |all - done|;
    assert |done + taken| == |done| + |taken|;
    if taken != {} {
      var t :| t in taken;
      assert t in all - done && t !in all - (done + taken);
    }
  }

  lemma WorkedTwice(rows: map<string, Job>, done: set<string>, more: set<string>, now: Time, work: string -> Attempt)
    requires done !! more
    ensures Worked(Worked(rows, done, now, work), more, now, work) == Worked(rows, done + more, now, work)
  {
  }

  /** Where polling stands: the jobs in `done` have been served, the rest of `all` are still eligible. */
  ghost predicate Polled(rows: map<string, Job>, before: map<string, Job>, done: set<string>,
                         now: Time, work: string -> Attempt, polls: nat) {
    && PollsDone(Eligible(before, now), done, polls)
    && rows == Worked(before, done, now, work)
    && Eligible(rows, now) == Eligible(before, now) - done
  }

  lemma PolledOnce(before: map<string, Job>, done: set<string>, now: Time, work: string -> Attempt, polls: nat, ids: seq<string>)
    requires forall id <- Eligible(before, now) :: work(id).claim == Answered
    requires Polled(Worked(before, done, now, work), before, done, now, work, polls)
    requires FirstListed(Worked(before, done, now, work), WAITING, now, POLL_LIMIT, ids)
    ensures forall id <- ids :: work(id).claim == Answered
    ensures ids == [] ==> done == Eligible(before, now)
    ensures ids != [] ==>
              && Polled(Worked(Worked(before, done, now, work), Elements(ids), now, work),
                        before, done + Elements(ids), now, work, polls + 1)
              && Eligible(before, now) - (done + Elements(ids)) < Eligible(before, now) - done
  {
    var rows := Worked(before, done, now, work);
    var taken := Elements(ids);
    PollSize(rows, now, ids);
    assert forall id <- ids :: id in taken;
    OneMorePoll(Eligible(before, now), done, taken, polls);
    if ids != [] {
      assert ids[0] in taken;
      WorkedTwice(before, done, taken, now, work);
      ProcessedLeavesEligible(before, done + taken, now, work);
    }
  }

  /** Polling at one clock reading with no wake-ups empties n eligible jobs in exactly ceil(n / 10) polls. */
  method PollUntilEmpty(api: JobTable, now: Time, work: string -> Attempt) returns (polls: nat)
    requires forall id <- Eligible(api.rows, now) :: work(id).claim == Answered
    modifies api`rows
    ensures Eligible(api.rows, now) == {}
    ensures api.rows == Worked(old(api.rows), Eligible(old(api.rows), now), now, work)
    ensures polls == (|Eligible(old(api.rows), now)| + 9) / 10
  {
    ghost var rows := api.rows;
    ghost var done: set<string> := {};
    polls := 0;
    var more := true;
    while more
      invariant Polled(api.rows, rows, done, now, work, polls)
      invariant !more ==> done == Eligible(rows, now)
      decreases Eligible(rows, now) - done, more
    {
      var ids, passes;
      ghost var m;
      ids, passes, m := Poll(api, now, work, None);
      PolledOnce(rows, done, now, work, polls, ids);
      assert passes == ids by {
        assert passes != [] ==> passes[|passes| - 1] in ids;
      }
      if ids == [] {
        assert api.rows == Worked(rows, done, now, work);
        more := false;
      } else {
        done, polls := done + Elements(ids), polls + 1;
      }
    }
  }

  /** No job of the table is ever claimed past its budget, nor changes status more than twice per attempt. */
  lemma LogKeepsBudgets(rows: map<string, Job>, log: seq<Logged>, id: string)
    requires id in rows && Budgeted(rows[id])
    ensures id in ServeLog(rows, log) && Budgeted(ServeLog(rows, log)[id])
    ensures StatusChanges(rows[id], About(log, id)) <= 2 * rows[id].maxAttempts
  {
    LogPerJob(rows, log, id);
    StatusChangesPayRank(rows[id], About(log, id));
  }
}
