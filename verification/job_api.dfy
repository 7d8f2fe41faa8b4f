/**
 The internal job API of services/api: the handlers as they update the table in place.
 complete_event and fail_event keep their two halves, the read and the guarded UPDATE.
 */
module JobApi {
  import opened Options
  import opened JobRows

  datatype Created = Created(id: string, row: Job, duplicate: bool)

  predicate Listed(r: Job, statuses: set<Status>, now: Time) {
    r.status in statuses && r.availableAt <= now
  }

  /** The first `limit` listed jobs, oldest availability first; ties come in any order. */
  ghost predicate FirstListed(rows: map<string, Job>, statuses: set<Status>, now: Time, limit: nat, ids: seq<string>) {
    && (forall i, j :: 0 <= i < j < |ids| ==> ids[i] != ids[j])
    && (forall id <- ids :: id in rows && Listed(rows[id], statuses, now))
    && (forall i, j :: 0 <= i < j < |ids| ==> ids[i] in rows && ids[j] in rows && rows[ids[i]].availableAt <= rows[ids[j]].availableAt)
    && (forall id <- rows | Listed(rows[id], statuses, now) && id !in ids ::
          |ids| == limit && forall i <- ids :: i in rows && rows[i].availableAt <= rows[id].availableAt)
    && |ids| <= limit
  }

  lemma {:induction false} EarliestExists(rows: map<string, Job>, ids: set<string>)
    requires ids != {} && ids <= rows.Keys
    ensures exists m <- ids :: forall id <- ids :: rows[m].availableAt <= rows[id].availableAt
    decreases |ids|
  {
    var one :| one in ids;
    var rest := ids - {one};
    if rest == {} {
      assert ids == {one};
    } else {
      EarliestExists(rows, rest);
      var m :| m in rest && forall id <- rest :: rows[m].availableAt <= rows[id].availableAt;
      var best := if rows[one].availableAt <= rows[m].availableAt then one else m;
      assert forall id <- ids :: id == one || id in rest;
      assert forall id <- ids :: rows[best].availableAt <= rows[id].availableAt;
    }
  }

  /** ListEligible halfway: `ids` are chosen, `left` are not, and nothing left is earlier than anything chosen. */
  ghost predicate Choosing(rows: map<string, Job>, all: set<string>, ids: seq<string>, left: set<string>) {
    && all <= rows.Keys && left <= all
    && (forall id <- ids :: id in all && id !in left)
    && (forall id <- all :: id in left || id in ids)
    && (forall i, j :: 0 <= i < j < |ids| ==> ids[i] != ids[j])
    && (forall i, j :: 0 <= i < j < |ids| && ids[i] in rows && ids[j] in rows ==> rows[ids[i]].availableAt <= rows[ids[j]].availableAt)
    && (forall i <- ids, id <- left :: i in rows && rows[i].availableAt <= rows[id].availableAt)
  }

  lemma ChooseNext(rows: map<string, Job>, all: set<string>, ids: seq<string>, left: set<string>, next: string)
    requires Choosing(rows, all, ids, left)
    requires next in left && forall id <- left :: rows[next].availableAt <= rows[id].availableAt
    ensures Choosing(rows, all, ids + [next], left - {next})
  {
    var more := ids + [next];
    assert forall i :: 0 <= i < |ids| ==> ids[i] in ids;
    forall id <- all ensures id in left - {next} || id in more {
      assert id == next ==> more[|ids|] == id;
      assert id in ids ==> id in more;
    }
  }

  predicate KeyTaken(rows: map<string, Job>, body: EventBody) {
    exists id <- rows :: SameKey(body.providerCallId, body.eventType, rows[id])
  }

  class JobTable {
    var rows: map<string, Job>
    var queue: seq<string>          // the Redis list of wake-up hints

    constructor ()
      ensures rows == map[] && queue == []
    {
      rows, queue := map[], [];
    }

    /** `callKnown`: the body's call_id is absent or names a call row, so the foreign key holds. */
    method CreateEvent(body: EventBody, callKnown: bool, freshId: string, now: Time, redisUp: bool) returns (r: Reply<Created>)
      requires freshId !in rows     // a uuid4 drawn by the server
      modifies this
      ensures r.Answer? || r.Invalid? || r.Fault?
      ensures r.Invalid? <==> !(1 <= |body.eventType| <= 50 && (body.maxAttempts.Some? ==> 1 <= body.maxAttempts.value <= 20))
      ensures r.Fault? <==>
                && !r.Invalid?
                && ((body.providerCallId.Some? && |body.providerCallId.value| > 255) || (!callKnown && !KeyTaken(old(rows), body)))
      ensures r.Answer? && r.value.duplicate <==>
                && !r.Invalid? && body.providerCallId.Some? && |body.providerCallId.value| <= 255
                && exists id <- old(rows) :: old(rows)[id].providerCallId == body.providerCallId && old(rows)[id].eventType == body.eventType
      ensures !r.Answer? || r.value.duplicate ==> rows == old(rows) && queue == old(queue)
      ensures r.Answer? ==> r.value.id in rows && rows[r.value.id] == r.value.row
      ensures r.Answer? && r.value.duplicate ==>
                r.value.row.providerCallId == body.providerCallId && r.value.row.eventType == body.eventType
      ensures r.Answer? && !r.value.duplicate ==>
                && r.value.id == freshId
                && rows == old(rows)[freshId := Job(body.providerCallId, body.eventType, Queued, 0,
                                                    if body.maxAttempts.Some? then body.maxAttempts.value else 5,
                                                    None, now, now, None)]
                && queue == old(queue) + (if redisUp then [freshId] else [])
    {
      if !ValidBody(body) {
        return Invalid;
      }
      if !FitsColumns(body) {
        return Fault;
      }
      if existing :| existing in rows && SameKey(body.providerCallId, body.eventType, rows[existing]) {
        return Answer(Created(existing, rows[existing], true));
      }
      if !callKnown {
        return Fault;
      }
      rows := rows[freshId := NewJob(body, now)];
      if redisUp {
        queue := queue + [freshId];
      }
      r := Answer(Created(freshId, rows[freshId], false));
    }

    method ListEligible(statuses: set<Status>, limit: int, now: Time) returns (r: Reply<seq<string>>)
      ensures if 1 <= limit <= 200 then r.Answer? && FirstListed(rows, statuses, now, limit, r.value) else r == Invalid
      ensures r.Answer? ==> forall id <- r.value :: id in rows && rows[id].status in statuses && rows[id].availableAt <= now
      ensures r.Answer? ==>
                forall i, j :: 0 <= i < j < |r.value| ==> r.value[i] != r.value[j] && rows[r.value[i]].availableAt <= rows[r.value[j]].availableAt
      ensures r.Answer? ==>
                forall id <- rows | rows[id].status in statuses && rows[id].availableAt <= now && id !in r.value ::
                  |r.value| == limit && forall i <- r.value :: rows[i].availableAt <= rows[id].availableAt
    {
      if limit < 1 || limit > 200 {
        return Invalid;
      }
      var ids := [];
      var left := set id <- rows | Listed(rows[id], statuses, now);
      ghost var all := left;
      while |ids| < limit && left != {}
        invariant |ids| <= limit
        invariant Choosing(rows, all, ids, left)
        decreases left
      {
        EarliestExists(rows, left);
        var next :| next in left && forall id <- left :: rows[next].availableAt <= rows[id].availableAt;
        ChooseNext(rows, all, ids, left, next);
        ids, left := ids + [next], left - {next};
      }
      r := Answer(ids);
    }

    method ClaimEvent(id: string, now: Time) returns (r: Reply<Job>)
      modifies this`rows
      ensures r.NotFound? <==> id !in old(rows)
      ensures r.Answer? <==>
                id in old(rows) && old(rows)[id].status in {Queued, Retrying} && old(rows)[id].availableAt <= now
      ensures r.Answer? ==>
                && r.value == old(rows)[id].(status := Processing, attempts := old(rows)[id].attempts + 1, updatedAt := now)
                && rows == old(rows)[id := r.value]
      ensures !r.Answer? ==> rows == old(rows) && (r.NotFound? || r.Conflict?)
    {
      if id !in rows {
        return NotFound;
      }
      if !Claimable(rows[id], now) {
        return Conflict;
      }
      rows := rows[id := ClaimRow(rows[id], now)];
      r := Answer(rows[id]);
    }

    /** db.get and the status checks; None lets the UPDATE go ahead. */
    method ReadForComplete(id: string) returns (early: Option<Reply<Job>>)
      ensures early.None? <==> id in rows && rows[id].status == Processing
      ensures early == Some(NotFound) <==> id !in rows
      ensures early.Some? && early.value.Answer? <==> id in rows && rows[id].status == Completed
      ensures early.Some? && early.value.Answer? ==> early.value.value == rows[id]
      ensures early.Some? ==> !early.value.Invalid? && !early.value.Fault?
    {
      if id !in rows {
        return Some(NotFound);
      }
      if rows[id].status == Completed {
        return Some(Answer(rows[id]));
      }
      if rows[id].status != Processing {
        return Some(Conflict);
      }
      early := None;
    }

    method WriteComplete(id: string, now: Time) returns (r: Reply<Job>)
      modifies this`rows
      ensures id in old(rows) ==> rows == old(rows)[id := CompleteRow(old(rows)[id], now)]
      ensures id !in old(rows) ==> rows == old(rows)
      ensures r.Answer? <==> id in rows && rows[id].status == Completed
      ensures r.Answer? ==> r.value == rows[id]
      ensures !r.Answer? ==> r == Conflict
    {
      if id in rows && rows[id].status == Processing {
        rows := rows[id := CompleteRow(rows[id], now)];
        return Answer(rows[id]);
      }
      assert id in rows ==> rows == rows[id := rows[id]];
      if id in rows && rows[id].status == Completed {
        return Answer(rows[id]);
      }
      r := Conflict;
    }

    /** Reporting success twice is the same as reporting it once. */
    method CompleteEvent(id: string, now: Time) returns (r: Reply<Job>)
      modifies this`rows
      ensures id !in old(rows) ==> r == NotFound && rows == old(rows)
      ensures id in old(rows) ==> rows == old(rows)[id := CompleteRow(old(rows)[id], now)]
      ensures id in old(rows) ==> (r.Answer? <==> rows[id].status == Completed) && (r.Answer? || r == Conflict)
      ensures r.Answer? ==> id in rows && r.value == rows[id]
      ensures id in old(rows) && old(rows)[id].status == Processing ==>
                rows[id] == old(rows)[id].(status := Completed, processedAt := Some(now), updatedAt := now)
      ensures id in old(rows) && old(rows)[id].status != Processing ==> rows[id] == old(rows)[id]
    {
      var early := ReadForComplete(id);
      if early.Some? {
        assert id in rows ==> rows == rows[id := rows[id]];
        return early.value;
      }
      r := WriteComplete(id, now);
    }

    /** db.get, the status checks, and the values chosen from the row that was read. */
    method ReadForFail(id: string, error: string, retry: bool, now: Time) returns (early: Option<Reply<Job>>, plan: FailPlan)
      ensures early == Some(Invalid) <==> error == ""
      ensures early.None? <==> error != "" && id in rows && rows[id].status == Processing
      ensures early == Some(NotFound) <==> error != "" && id !in rows
      ensures early == Some(Conflict) <==> error != "" && id in rows && rows[id].status in {Queued, Retrying}
      ensures early.Some? && early.value.Answer? <==> error != "" && id in rows && Terminal(rows[id].status)
      ensures early.Some? && early.value.Answer? ==> early.value.value == rows[id]
      ensures early.None? ==> plan == PlanFail(rows[id], error, retry, now)
    {
      plan := FailPlan(Failed, None, "");
      if error == "" {
        return Some(Invalid), plan;
      }
      if id !in rows {
        return Some(NotFound), plan;
      }
      if Terminal(rows[id].status) {
        return Some(Answer(rows[id])), plan;
      }
      if rows[id].status != Processing {
        return Some(Conflict), plan;
      }
      return None, PlanFail(rows[id], error, retry, now);
    }

    method WriteFail(id: string, plan: FailPlan, now: Time) returns (r: Reply<Job>)
      modifies this`rows
      ensures id in old(rows) ==> rows == old(rows)[id := FailRow(old(rows)[id], plan, now)]
      ensures id !in old(rows) ==> rows == old(rows)
      ensures r.Answer? <==> id in old(rows) && old(rows)[id].status == Processing
      ensures r.Answer? ==> r.value == rows[id]
      ensures !r.Answer? ==> r == Conflict
    {
      if id !in rows || rows[id].status != Processing {
        assert id in rows ==> rows == rows[id := rows[id]];
        return Conflict;
      }
      rows := rows[id := FailRow(rows[id], plan, now)];
      r := Answer(rows[id]);
    }

    method FailEvent(id: string, error: string, retry: bool, now: Time) returns (r: Reply<Job>)
      modifies this`rows
      ensures error == "" ==> r == Invalid && rows == old(rows)
      ensures error != "" && id !in old(rows) ==> r == NotFound && rows == old(rows)
      ensures error != "" && id in old(rows) ==>
                && rows == old(rows)[id := FailRow(old(rows)[id], PlanFail(old(rows)[id], error, retry, now), now)]
                && (r.Answer? <==> old(rows)[id].status in {Processing, Completed, Failed}) && (r.Answer? || r == Conflict)
      ensures r.Answer? ==> id in rows && r.value == rows[id]
      ensures r.Answer? && old(rows)[id].status != Processing ==> r.value == old(rows)[id]
      ensures r.Answer? && old(rows)[id].status == Processing ==>
                var seen := old(rows)[id];
                var again := retry && seen.attempts < seen.maxAttempts;
                r.value ==
                seen.(status := if again then Retrying else Failed,
                      lastError := Some(if |error| <= 2000 then error else error[..2000] + "...(truncated)"),
                      availableAt :=
                        if !again then seen.availableAt
                        else now + 1_000_000 * (if seen.attempts <= 6 then [5, 5, 10, 20, 40, 80, 160][seen.attempts] else 300),
                      updatedAt := now,
                      processedAt := if again then seen.processedAt else Some(now))
    {
      if id in rows && rows[id].status == Processing {
        FailExactly(rows[id], error, retry, now);
      }
      var early, plan := ReadForFail(id, error, retry, now);
      if early.Some? {
        assert id in rows ==> rows == rows[id := rows[id]];
        return early.value;
      }
      r := WriteFail(id, plan, now);
    }

    /** One bulk UPDATE: every stale job leaves 'processing', nothing else moves. */
    method ReapStaleJobs(now: Time) returns (reaped: set<string>)
      modifies this`rows
      ensures rows == map id <- old(rows) :: ReapRow(old(rows)[id], now)
      ensures forall id :: id in reaped <==> id in old(rows) && rows[id] != old(rows)[id]
      ensures forall id <- rows :: !Stale(rows[id], now)
      ensures forall id :: id in reaped <==>
                id in old(rows) && old(rows)[id].status == Processing && old(rows)[id].updatedAt < now - 120_000_000
      ensures forall id <- reaped ::
                var again := old(rows)[id].attempts < old(rows)[id].maxAttempts;
                rows[id] == old(rows)[id].(
                  status := if again then Retrying else Failed,
                  availableAt := now,
                  processedAt := if again then None else Some(now),
                  lastError := if old(rows)[id].lastError.Some? then old(rows)[id].lastError
                               else Some("reaped: worker did not report completion in time"),
                  updatedAt := now)
    {
      reaped := set id <- rows | Stale(rows[id], now);
      rows := map id <- rows :: ReapRow(rows[id], now);
    }
  }
}
