/** The whole `call_jobs` table: many jobs, one clock, one unique index, one bulk reaper. */
module JobQueue {
  import opened Options
  import opened JobRows
  import opened JobProtocol

  datatype QueueStep =
    | Tick(d: nat)
    | Record(id: string, body: EventBody)   // create_event, with the uuid it drew
    | Work(id: string, action: Action)
    | ReapAll

  datatype Queue = Queue(now: Time, jobs: map<string, World>)

  datatype Recorded = Recorded(id: string, duplicate: bool)

  predicate KeyTaken(q: Queue, body: EventBody) {
    exists id <- q.jobs :: SameKey(body.providerCallId, body.eventType, q.jobs[id].row)
  }

  /** Bodies the API and the columns take. */
  predicate Recordable(body: EventBody) {
    ValidBody(body) && FitsColumns(body)
  }

  function Apply(q: Queue, st: QueueStep): Queue {
    match st
    case Tick(d) => Queue(q.now + d, map id <- q.jobs :: Next(q.jobs[id], Wait(d)))
    case Record(id, body) =>
      if Recordable(body) && !KeyTaken(q, body) && id !in q.jobs then
        q.(jobs := q.jobs[id := World(q.now, NewJob(body, q.now), [])])
      else q
    case Work(id, action) =>
      if id in q.jobs then q.(jobs := q.jobs[id := Next(q.jobs[id], Do(action))]) else q
    case ReapAll => q.(jobs := map id <- q.jobs :: Next(q.jobs[id], Sweep))
  }

  function ApplyAll(q: Queue, steps: seq<QueueStep>): Queue
    decreases steps
  {
    if steps == [] then q else ApplyAll(Apply(q, steps[0]), steps[1..])
  }

  function Empty(now: Time): Queue {
    Queue(now, map[])
  }

  // ---------------------------------- every job runs its own protocol

  /** What one job sees of a step, and of a run, of the whole table. */
  function ViewOf(st: QueueStep, id: string): seq<Step> {
    match st
    case Tick(d) => [Wait(d)]
    case Record(_, _) => []
    case Work(i, action) => if i == id then [Do(action)] else []
    case ReapAll => [Sweep]
  }

  function View(steps: seq<QueueStep>, id: string): seq<Step> {
    if steps == [] then [] else ViewOf(steps[0], id) + View(steps[1..], id)
  }

  lemma NextKeepsKey(w: World, st: Step)
    ensures Next(w, st).row.providerCallId == w.row.providerCallId
    ensures Next(w, st).row.eventType == w.row.eventType
    ensures Next(w, st).row.maxAttempts == w.row.maxAttempts
  {
  }

  /** Jobs do not disturb each other: a run of the table, seen from one job, is a run of that job. */
  lemma {:induction false} JobsAreIndependent(q: Queue, steps: seq<QueueStep>, id: string)
    requires id in q.jobs
    ensures id in ApplyAll(q, steps).jobs
    ensures ApplyAll(q, steps).jobs[id] == Run(q.jobs[id], View(steps, id))
    decreases |steps|
  {
    if steps != [] {
      var q' := Apply(q, steps[0]);
      JobsAreIndependent(q', steps[1..], id);
      var head := ViewOf(steps[0], id);
      if head != [] {
        RunSingle(q.jobs[id], head[0]);
      }
      RunAppend(q.jobs[id], head, View(steps[1..], id));
    }
  }

  ghost predicate Reached(w: World) {
    exists w0, js :: Fresh(w0) && w == Run(w0, js)
  }

  lemma NextReached(w: World, st: Step)
    requires Reached(w)
    ensures Reached(Next(w, st))
  {
    var w0, js :| Fresh(w0) && w == Run(w0, js);
    RunAppend(w0, js, [st]);
    RunSingle(w, st);
    assert Next(w, st) == Run(w0, js + [st]);
  }

  ghost predicate JobReached(q: Queue, id: string)
    requires id in q.jobs
  {
    Reached(q.jobs[id]) && q.jobs[id].now == q.now && q.jobs[id].row.maxAttempts <= 20
  }

  lemma ApplyReached(q: Queue, st: QueueStep, id: string)
    requires id in Apply(q, st).jobs && (id in q.jobs ==> JobReached(q, id))
    ensures JobReached(Apply(q, st), id)
  {
    var q' := Apply(q, st);
    if id !in q.jobs {
      assert Fresh(q'.jobs[id]) && q'.jobs[id] == Run(q'.jobs[id], []);
    } else if ViewOf(st, id) != [] {
      NextReached(q.jobs[id], ViewOf(st, id)[0]);
      NextKeepsKey(q.jobs[id], ViewOf(st, id)[0]);
    }
  }

  lemma {:induction false} AllReached(q: Queue, steps: seq<QueueStep>)
    requires forall id <- q.jobs :: JobReached(q, id)
    ensures forall id <- ApplyAll(q, steps).jobs :: JobReached(ApplyAll(q, steps), id)
    decreases |steps|
  {
    if steps != [] {
      var q' := Apply(q, steps[0]);
      forall id <- q'.jobs ensures JobReached(q', id) {
        ApplyReached(q, steps[0], id);
      }
      AllReached(q', steps[1..]);
    }
  }

  /** In every reachable table every job keeps its budget, its timestamps and its acknowledgement honest. */
  lemma EveryReachableJob(now: Time, steps: seq<QueueStep>, id: string)
    requires id in ApplyAll(Empty(now), steps).jobs
    ensures var e := ApplyAll(Empty(now), steps); var j := e.jobs[id];
            && RowOk(j.row, e.now)
            && j.row.attempts <= 2 * j.row.maxAttempts - 1 <= 39
            && |j.claims| == j.row.attempts
            && (j.row.status == Completed ==> exists k :: 0 <= k < |j.claims| && j.claims[k].succeeded)
  {
    AllReached(Empty(now), steps);
    var e := ApplyAll(Empty(now), steps);
    assert JobReached(e, id);
    var w0, js :| Fresh(w0) && e.jobs[id] == Run(w0, js);
    FreshInv(w0);
    RunKeepsInv(w0, js);
    AttemptsBounded(w0, js);
  }

  /** A run of one job, carried out in the table. */
  function Lift(steps: seq<Step>, id: string): seq<QueueStep> {
    if steps == [] then []
    else
      [match steps[0]
       case Wait(d) => Tick(d)
       case Do(action) => Work(id, action)
       case Sweep => ReapAll] + Lift(steps[1..], id)
  }

  lemma {:induction false} LiftedView(steps: seq<Step>, id: string)
    ensures View(Lift(steps, id), id) == steps
    decreases |steps|
  {
    if steps != [] {
      LiftedView(steps[1..], id);
      assert Lift(steps, id)[1..] == Lift(steps[1..], id);
    }
  }

  /** Any budget the API accepts can be overshot to 2 * max_attempts - 1 claims, and by EveryReachableJob never further. */
  lemma BudgetCanBeOvershot(now: Time, id: string, body: EventBody)
    requires Recordable(body)
    ensures exists steps ::
              && id in ApplyAll(Empty(now), steps).jobs
              && ApplyAll(Empty(now), steps).jobs[id].row.attempts == 2 * NewJob(body, now).maxAttempts - 1
  {
    var q := Apply(Empty(now), Record(id, body));
    var w := q.jobs[id];
    var worst := Lift(WorstRun(w.row.maxAttempts), id);
    assert Fresh(w) && w.row == NewJob(body, now);
    AttemptBoundReached(w);
    LiftedView(WorstRun(w.row.maxAttempts), id);
    JobsAreIndependent(q, worst, id);
    var steps := [Record(id, body)] + worst;
    assert steps[1..] == worst;
    assert ApplyAll(Empty(now), steps) == ApplyAll(q, worst);
  }

  // ---------------------------------------------------------- idempotency

  /** The unique index, as a property of the table. */
  ghost predicate UniqueKeys(q: Queue) {
    forall a <- q.jobs, b <- q.jobs ::
      SameKey(q.jobs[a].row.providerCallId, q.jobs[a].row.eventType, q.jobs[b].row) ==> a == b
  }

  /** The job id and duplicate flag create_event answers for a body it can record. */
  ghost function AnswerOf(q: Queue, id: string, body: EventBody): Recorded
    requires Recordable(body)
  {
    if KeyTaken(q, body) then
      var found :| found in q.jobs && SameKey(body.providerCallId, body.eventType, q.jobs[found].row);
      Recorded(found, true)
    else Recorded(id, false)
  }

  lemma ApplyKeepsKey(q: Queue, st: QueueStep, id: string)
    requires id in q.jobs
    ensures id in Apply(q, st).jobs
    ensures Apply(q, st).jobs[id].row.providerCallId == q.jobs[id].row.providerCallId
    ensures Apply(q, st).jobs[id].row.eventType == q.jobs[id].row.eventType
  {
    if ViewOf(st, id) != [] {
      NextKeepsKey(q.jobs[id], ViewOf(st, id)[0]);
    }
  }

  lemma ApplyKeepsKeysUnique(q: Queue, st: QueueStep)
    requires UniqueKeys(q)
    ensures UniqueKeys(Apply(q, st))
  {
    var q' := Apply(q, st);
    forall a <- q'.jobs, b <- q'.jobs
      | SameKey(q'.jobs[a].row.providerCallId, q'.jobs[a].row.eventType, q'.jobs[b].row)
      ensures a == b
    {
      if a in q.jobs {
        ApplyKeepsKey(q, st, a);
      }
      if b in q.jobs {
        ApplyKeepsKey(q, st, b);
      }
    }
  }

  lemma {:induction false} KeysStayUnique(q: Queue, steps: seq<QueueStep>)
    requires UniqueKeys(q)
    ensures UniqueKeys(ApplyAll(q, steps))
    decreases |steps|
  {
    if steps != [] {
      ApplyKeepsKeysUnique(q, steps[0]);
      KeysStayUnique(Apply(q, steps[0]), steps[1..]);
    }
  }

  lemma KeptKey(q: Queue, steps: seq<QueueStep>, id: string)
    requires id in q.jobs
    ensures id in ApplyAll(q, steps).jobs
    ensures ApplyAll(q, steps).jobs[id].row.providerCallId == q.jobs[id].row.providerCallId
    ensures ApplyAll(q, steps).jobs[id].row.eventType == q.jobs[id].row.eventType
  {
    JobsAreIndependent(q, steps, id);
    RunKeepsBudget(q.jobs[id], View(steps, id));
  }

  /**
   However the first recording of a key was answered, and whatever happens afterwards (claims,
   failures, reaping, other recordings, any number of gateway restarts), every later recording
   of the key is answered with the same job id and duplicate = true, and inserts nothing.
   */
  lemma RecordedOnce(q: Queue, id: string, body: EventBody, between: seq<QueueStep>, id2: string, body2: EventBody)
    requires UniqueKeys(q) && Recordable(body) && Recordable(body2) && id !in q.jobs
    requires body.providerCallId.Some?
    requires body2.providerCallId == body.providerCallId && body2.eventType == body.eventType
    ensures var later := ApplyAll(Apply(q, Record(id, body)), between);
            && AnswerOf(later, id2, body2) == Recorded(AnswerOf(q, id, body).id, true)
            && Apply(later, Record(id2, body2)) == later
  {
    var q1 := Apply(q, Record(id, body));
    var first := AnswerOf(q, id, body).id;
    assert first in q1.jobs && SameKey(body.providerCallId, body.eventType, q1.jobs[first].row);
    ApplyKeepsKeysUnique(q, Record(id, body));
    KeptKey(q1, between, first);
    KeysStayUnique(q1, between);
  }

  lemma {:induction false} ApplyAllOneMore(q: Queue, steps: seq<QueueStep>, st: QueueStep)
    ensures ApplyAll(q, steps + [st]) == Apply(ApplyAll(q, steps), st)
    decreases |steps|
  {
    if steps == [] {
      assert (steps + [st])[1..] == [];
    } else {
      assert (steps + [st])[1..] == steps[1..] + [st];
      ApplyAllOneMore(Apply(q, steps[0]), steps[1..], st);
    }
  }

  /** The step is a recording of the body's key, under an id the table does not have. */
  ghost predicate Records(q: Queue, st: QueueStep, body: EventBody) {
    && st.Record? && Recordable(st.body) && st.id !in q.jobs
    && st.body.providerCallId == body.providerCallId && st.body.eventType == body.eventType
  }

  lemma KeyTakenStep(q: Queue, st: QueueStep, body: EventBody)
    requires body.providerCallId.Some?
    ensures KeyTaken(Apply(q, st), body) <==> KeyTaken(q, body) || Records(q, st, body)
  {
    var q' := Apply(q, st);
    forall id <- q.jobs ensures id in q'.jobs && SameKey(body.providerCallId, body.eventType, q'.jobs[id].row) ==
                                                 SameKey(body.providerCallId, body.eventType, q.jobs[id].row) {
      ApplyKeepsKey(q, st, id);
    }
    if Records(q, st, body) && !KeyTaken(q, st.body) {
      assert SameKey(body.providerCallId, body.eventType, q'.jobs[st.id].row);
    }
  }

  /**
   In every run an event is answered as a duplicate exactly when it carries a provider id and its
   key has been recorded before; without a provider id it never is.
   */
  lemma {:induction false} DuplicateExactly(now: Time, steps: seq<QueueStep>, id: string, body: EventBody)
    requires Recordable(body)
    ensures AnswerOf(ApplyAll(Empty(now), steps), id, body).duplicate <==>
            body.providerCallId.Some? &&
            exists k :: 0 <= k < |steps| && Records(ApplyAll(Empty(now), steps[..k]), steps[k], body)
    decreases |steps|
  {
    if steps != [] && body.providerCallId.Some? {
      var n := |steps| - 1;
      var front := steps[..n];
      assert steps == front + [steps[n]];
      ApplyAllOneMore(Empty(now), front, steps[n]);
      DuplicateExactly(now, front, id, body);
      KeyTakenStep(ApplyAll(Empty(now), front), steps[n], body);
      assert forall k :: 0 <= k < n ==> front[..k] == steps[..k] && front[k] == steps[k];
    }
  }
}
