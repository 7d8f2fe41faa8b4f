/** _GatewaySessionManager: process memory in front of Redis. */
module Sessions {
  import opened Options

  datatype Turn = Turn(role: string, text: string, at: int)

  datatype Session = Session(tenantId: string, agentId: string, startedAt: int, ended: bool, turns: seq<Turn>)

  /** Both levels. Only Redis outlives the process; without a configured Redis every Redis call fails. */
  datatype Levels = Levels(mem: map<string, Session>, redis: map<string, Session>)

  datatype Op =
    | Create(tenantId: string, agentId: string, now: int)
    | Get
    | End
    | Remove
    | AddTurn(turn: Turn)

  /** An operation on one call, with the fate of its Redis read and its Redis write; or a restart. */
  datatype Event = On(id: string, op: Op, readOk: bool, writeOk: bool) | Restart

  function Fetched(s: Levels, id: string, readOk: bool): Levels {
    if id !in s.mem && readOk && id in s.redis then s.(mem := s.mem[id := s.redis[id]]) else s
  }

  function WithTurn(s: Session, t: Turn): Session {
    s.(turns := s.turns + [t])
  }

  /** What the manager does to its two levels. */
  function Apply(s: Levels, e: Event): Levels {
    match e
    case Restart => s.(mem := map[])
    case On(id, op, readOk, writeOk) =>
      match op
      case Create(tenantId, agentId, now) =>
        var data := Session(tenantId, agentId, now, false, []);
        Levels(s.mem[id := data], if writeOk then s.redis[id := data] else s.redis)
      case Get => Fetched(s, id, readOk)
      case End =>
        Levels(if id in s.mem then s.mem[id := s.mem[id].(ended := true)] else s.mem,
               if readOk && writeOk && id in s.redis then s.redis[id := s.redis[id].(ended := true)] else s.redis)
      case Remove => Levels(s.mem - {id}, if writeOk then s.redis - {id} else s.redis)
      case AddTurn(turn) =>
        var f := Fetched(s, id, readOk);
        if id !in f.mem then f
        else
          var data := WithTurn(f.mem[id], turn);
          Levels(f.mem[id := data], if writeOk then f.redis[id := data] else f.redis)
  }

  function ApplyAll(s: Levels, es: seq<Event>): Levels
    decreases es
  {
    if es == [] then s else ApplyAll(Apply(s, es[0]), es[1..])
  }

  /** What get() answers when its Redis read goes as `readOk` says. */
  function Look(s: Levels, id: string, readOk: bool): Option<Session> {
    if id in s.mem then Some(s.mem[id])
    else if readOk && id in s.redis then Some(s.redis[id])
    else None
  }

  // ------------------------------------------- the plain map it stands for

  function Plain(m: map<string, Session>, e: Event): map<string, Session> {
    match e
    case Restart => m
    case On(id, op, _, _) =>
      match op
      case Create(tenantId, agentId, now) => m[id := Session(tenantId, agentId, now, false, [])]
      case Get => m
      case End => if id in m then m[id := m[id].(ended := true)] else m
      case Remove => m - {id}
      case AddTurn(turn) => if id in m then m[id := WithTurn(m[id], turn)] else m
  }

  function PlainAll(m: map<string, Session>, es: seq<Event>): map<string, Session>
    decreases es
  {
    if es == [] then m else PlainAll(Plain(m, es[0]), es[1..])
  }

  ghost predicate Healthy(e: Event) {
    e.On? ==> e.readOk && e.writeOk
  }

  /** Memory holds nothing that Redis does not hold too. */
  ghost predicate Synced(s: Levels) {
    forall id <- s.mem :: id in s.redis && s.redis[id] == s.mem[id]
  }

  lemma HealthyStep(s: Levels, e: Event)
    requires Synced(s) && Healthy(e)
    ensures Synced(Apply(s, e)) && Apply(s, e).redis == Plain(s.redis, e)
  {
  }

  /** With Redis healthy the two levels are one map, and no restart can be noticed. */
  lemma {:induction false} HealthyRefinesPlain(s: Levels, es: seq<Event>, id: string)
    requires Synced(s) && forall e <- es :: Healthy(e)
    ensures var m := PlainAll(s.redis, es);
            Look(ApplyAll(s, es), id, true) == if id in m then Some(m[id]) else None
    ensures Synced(ApplyAll(s, es))
    decreases |es|
  {
    if es != [] {
      HealthyStep(s, es[0]);
      HealthyRefinesPlain(Apply(s, es[0]), es[1..], id);
    }
  }

  /** Restarts may be dropped from any healthy history. */
  lemma {:induction false} RestartsAreUnobservable(s: Levels, before: seq<Event>, after: seq<Event>, id: string)
    requires Synced(s) && (forall e <- before + after :: Healthy(e))
    ensures Look(ApplyAll(s, before + [Restart] + after), id, true) == Look(ApplyAll(s, before + after), id, true)
  {
    var with, without := before + [Restart] + after, before + after;
    forall e <- with ensures Healthy(e) {
      if e in before {
        assert e in without;
      } else if e in after {
        assert e in without;
      }
    }
    HealthyRefinesPlain(s, with, id);
    HealthyRefinesPlain(s, without, id);
    PlainSkipsRestart(s.redis, before, after);
  }

  lemma {:induction false} PlainSkipsRestart(m: map<string, Session>, before: seq<Event>, after: seq<Event>)
    ensures PlainAll(m, before + [Restart] + after) == PlainAll(m, before + after)
    decreases |before|
  {
    var with, without := before + [Restart] + after, before + after;
    if before == [] {
      assert with[0] == Restart && with[1..] == after && without == after;
    } else {
      assert with[0] == before[0] && with[1..] == before[1..] + [Restart] + after;
      assert without[0] == before[0] && without[1..] == before[1..] + after;
      PlainSkipsRestart(Plain(m, before[0]), before[1..], after);
    }
  }

  // ------------------------------------------------------- Redis faults

  /** The events of one call while the process lives and the call is not removed. */
  ghost predicate KeepsCall(e: Event, id: string) {
    e.On? && !(e.id == id && e.op.Remove?)
  }

  lemma {:induction false} FaultsAreHidden(s: Levels, m: map<string, Session>, es: seq<Event>, id: string)
    requires id in s.mem && id in m && s.mem[id] == m[id]
    requires forall e <- es :: KeepsCall(e, id)
    ensures id in PlainAll(m, es) && id in ApplyAll(s, es).mem
    ensures ApplyAll(s, es).mem[id] == PlainAll(m, es)[id]
    decreases |es|
  {
    if es != [] {
      assert KeepsCall(es[0], id);
      FaultsAreHidden(Apply(s, es[0]), Plain(m, es[0]), es[1..], id);
    }
  }

  /** Between create and remove in one process, get() is exact under any Redis faults at all. */
  lemma LiveCallIsExact(s: Levels, created: Event, es: seq<Event>, readOk: bool)
    requires created.On? && created.op.Create?
    requires forall e <- es :: KeepsCall(e, created.id)
    ensures var m := PlainAll(Plain(map[], created), es);
            created.id in m && Look(ApplyAll(Apply(s, created), es), created.id, readOk) == Some(m[created.id])
  {
    FaultsAreHidden(Apply(s, created), Plain(map[], created), es, created.id);
  }

  // -------------------------------------- what get() answers, told by events

  /** The turns of one call's add_turn events, in their order. */
  ghost function Said(es: seq<Event>, id: string): seq<Turn> {
    if es == [] then []
    else (if es[0].On? && es[0].id == id && es[0].op.AddTurn? then [es[0].op.turn] else []) + Said(es[1..], id)
  }

  ghost predicate Ended(es: seq<Event>, id: string) {
    exists e <- es :: e.On? && e.id == id && e.op.End?
  }

  /** The call is neither removed nor created again. */
  ghost predicate Continues(e: Event, id: string) {
    e.On? && e.id == id ==> !e.op.Remove? && !e.op.Create?
  }

  /** One plain session and the events that follow. */
  lemma {:induction false} StoryOfPlain(m: map<string, Session>, es: seq<Event>, id: string)
    requires id in m && forall e <- es :: Continues(e, id)
    ensures id in PlainAll(m, es)
    ensures PlainAll(m, es)[id] ==
            Session(m[id].tenantId, m[id].agentId, m[id].startedAt, m[id].ended || Ended(es, id), m[id].turns + Said(es, id))
    decreases |es|
  {
    if es != [] {
      var e := es[0];
      assert Continues(e, id);
      StoryOfPlain(Plain(m, e), es[1..], id);
      assert es == [e] + es[1..];
      assert Ended(es, id) <==> (e.On? && e.id == id && e.op.End?) || Ended(es[1..], id);
    }
  }

  /**
   From create to remove, in one process and under any Redis faults, get() answers the tenant, agent
   and start of the create, whether the call has been ended, and every turn said, in order.
   */
  lemma LiveCallAnswers(s: Levels, id: string, tenantId: string, agentId: string, now: int,
                        readOk: bool, writeOk: bool, es: seq<Event>, lookOk: bool)
    requires forall e <- es :: e.On? && Continues(e, id)
    ensures var created := On(id, Op.Create(tenantId, agentId, now), readOk, writeOk);
            Look(ApplyAll(Apply(s, created), es), id, lookOk) ==
            Some(Session(tenantId, agentId, now, exists e <- es :: e.On? && e.id == id && e.op.End?, Said(es, id)))
  {
    var created := On(id, Op.Create(tenantId, agentId, now), readOk, writeOk);
    forall e <- es ensures KeepsCall(e, id) {
      assert Continues(e, id);
    }
    LiveCallIsExact(s, created, es, lookOk);
    StoryOfPlain(Plain(map[], created), es, id);
    assert [] + Said(es, id) == Said(es, id);
  }

  /** The same with Redis healthy, over any number of restarts. */
  lemma HealthyCallAnswers(s: Levels, id: string, tenantId: string, agentId: string, now: int, es: seq<Event>)
    requires Synced(s) && forall e <- es :: Healthy(e) && Continues(e, id)
    ensures var created := On(id, Op.Create(tenantId, agentId, now), true, true);
            Look(ApplyAll(s, [created] + es), id, true) ==
            Some(Session(tenantId, agentId, now, exists e <- es :: e.On? && e.id == id && e.op.End?, Said(es, id)))
  {
    var created := On(id, Op.Create(tenantId, agentId, now), true, true);
    var all := [created] + es;
    assert all[1..] == es;
    HealthyRefinesPlain(s, all, id);
    StoryOfPlain(Plain(s.redis, created), es, id);
    assert [] + Said(es, id) == Said(es, id);
  }

  /** A get() that found the call keeps it for the rest of the process: later Redis faults are hidden too. */
  lemma FoundCallAnswers(s: Levels, id: string, readOk: bool, writeOk: bool, es: seq<Event>, lookOk: bool)
    requires Look(s, id, readOk).Some? && forall e <- es :: e.On? && Continues(e, id)
    ensures var found := Look(s, id, readOk).value;
            Look(ApplyAll(Apply(s, On(id, Get, readOk, writeOk)), es), id, lookOk) ==
            Some(Session(found.tenantId, found.agentId, found.startedAt,
                         found.ended || exists e <- es :: e.On? && e.id == id && e.op.End?,
                         found.turns + Said(es, id)))
  {
    var found := Look(s, id, readOk).value;
    forall e <- es ensures KeepsCall(e, id) {
      assert Continues(e, id);
    }
    FaultsAreHidden(Apply(s, On(id, Get, readOk, writeOk)), map[id := found], es, id);
    StoryOfPlain(map[id := found], es, id);
  }

  /** What reaches Redis: nothing when the call fails, the session in memory when it gets through. */
  lemma RedisAfter(s: Levels, e: Event)
    ensures e.Restart? ==> Apply(s, e).redis == s.redis && forall id :: Look(Apply(s, e), id, false) == None
    ensures e.On? && (!e.writeOk || e.op.Get?) ==> Apply(s, e).redis == s.redis
    ensures e.On? && e.op.End? && !e.readOk ==> Apply(s, e).redis == s.redis
    ensures e.On? && (e.op.Create? || (e.op.AddTurn? && Look(s, e.id, e.readOk).Some?)) && e.writeOk ==>
              e.id in Apply(s, e).mem && Apply(s, e).redis == s.redis[e.id := Apply(s, e).mem[e.id]]
    ensures e.On? && e.op.End? && e.readOk && e.writeOk && e.id in s.redis ==>
              Apply(s, e).redis == s.redis[e.id := s.redis[e.id].(ended := true)]
    ensures e.On? && e.op.Remove? ==> Apply(s, e) == Levels(s.mem - {e.id}, if e.writeOk then s.redis - {e.id} else s.redis)
  {
  }

  lemma {:induction false} GoneStaysGone(s: Levels, es: seq<Event>, id: string)
    requires id !in s.mem && id !in s.redis
    requires forall e <- es :: e.On? && e.id == id ==> !e.op.Create?
    ensures Look(ApplyAll(s, es), id, true) == None
    decreases |es|
  {
    if es != [] {
      assert es[0] in es;
      GoneStaysGone(Apply(s, es[0]), es[1..], id);
    }
  }

  /**
   remove() is final exactly when its Redis delete got through, or there was nothing in Redis to
   delete: otherwise the very next get() brings the session back.
   */
  lemma RemovedForGood(s: Levels, removal: Event)
    requires removal.On? && removal.op.Remove?
    ensures var gone := Apply(s, removal);
            (forall es: seq<Event> | (forall e <- es :: e.On? && e.id == removal.id ==> !e.op.Create?) ::
               Look(ApplyAll(gone, es), removal.id, true) == None)
            <==> removal.writeOk || removal.id !in s.redis
  {
    var gone := Apply(s, removal);
    if removal.writeOk || removal.id !in s.redis {
      forall es: seq<Event> | (forall e <- es :: e.On? && e.id == removal.id ==> !e.op.Create?)
        ensures Look(ApplyAll(gone, es), removal.id, true) == None
      {
        GoneStaysGone(gone, es, removal.id);
      }
    } else {
      assert Look(ApplyAll(gone, []), removal.id, true) == Some(s.redis[removal.id]);
    }
  }

  // ------------------------------------------------------------ manager

  class GatewaySessionManager {
    var mem: map<string, Session>
    var redis: map<string, Session>

    constructor (redis: map<string, Session>)
      ensures State() == Levels(map[], redis)
    {
      this.mem, this.redis := map[], redis;
    }

    ghost function State(): Levels
      reads this
    {
      Levels(mem, redis)
    }

    method Create(id: string, tenantId: string, agentId: string, now: int, writeOk: bool)
      modifies this
      ensures State() == Apply(old(State()), On(id, Op.Create(tenantId, agentId, now), true, writeOk))
    {
      var data := Session(tenantId, agentId, now, false, []);
      mem := mem[id := data];
      if writeOk {
        redis := redis[id := data];
      }
    }

    method Get(id: string, readOk: bool) returns (r: Option<Session>)
      modifies this`mem
      ensures r == Look(old(State()), id, readOk)
      ensures State() == Apply(old(State()), On(id, Op.Get, readOk, true))
    {
      if id in mem {
        return Some(mem[id]);
      }
      if readOk && id in redis {
        mem := mem[id := redis[id]];
        return Some(mem[id]);
      }
      r := None;
    }

    method End(id: string, readOk: bool, writeOk: bool)
      modifies this
      ensures State() == Apply(old(State()), On(id, Op.End, readOk, writeOk))
    {
      if id in mem {
        mem := mem[id := mem[id].(ended := true)];
      }
      if readOk && id in redis {
        var data := redis[id].(ended := true);
        if writeOk {
          redis := redis[id := data];
        }
      }
    }

    method Remove(id: string, writeOk: bool)
      modifies this
      ensures State() == Apply(old(State()), On(id, Op.Remove, true, writeOk))
    {
      mem := mem - {id};
      if writeOk {
        redis := redis - {id};
      }
    }

    method AddTurn(id: string, turn: Turn, readOk: bool, writeOk: bool)
      modifies this
      ensures State() == Apply(old(State()), On(id, Op.AddTurn(turn), readOk, writeOk))
    {
      var session := Get(id, readOk);
      if session.None? {
        return;
      }
      var data := WithTurn(session.value, turn);
      mem := mem[id := data];
      if writeOk {
        redis := redis[id := data];
      }
    }
  }
}
