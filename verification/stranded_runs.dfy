/** Runs of the webhook protocol, from the empty system, that leave a call behind. */
module StrandedRuns {
  import opened Options
  import opened Calls
  import opened Callbacks
  import opened CallEndings

  lemma RunFirst(w: World, st: Step, rest: seq<Step>)
    ensures Run(w, [st] + rest) == Run(Next(w, st), rest)
  {
    assert ([st] + rest)[1..] == rest;
  }

  // ----------------------------------------- what single webhooks do

  function Answered(provider: string, event: string, dialed: bool, phase: Phase): Request {
    Request(provider, event, dialed, "", phase, true)
  }

  /** Request i arrives and goes through the duplicate gate. */
  function PassGate(i: nat, provider: string, event: string, dialed: bool): seq<Step> {
    [Receive(provider, event, dialed, ""), Advance(i, Record(true))]
  }

  lemma PassGateRuns(w: World, provider: string, event: string, dialed: bool)
    requires event in START_EVENTS + END_EVENTS
    ensures Run(w, PassGate(|w.requests|, provider, event, dialed)) ==
            w.(recorded := w.recorded + {(provider, event)},
               requests := w.requests + [
                 if (provider, event) in w.recorded then NewRequest(provider, event, dialed).(phase := Done(Duplicate))
                 else Answered(provider, event, dialed, Gated)])
  {
    var receive, record := Receive(provider, event, dialed, ""), Advance(|w.requests|, Record(true));
    Received(w, provider, event, dialed);
    RunFirst(w, receive, [record]);
    RunFirst(Next(w, receive), record, []);
    assert PassGate(|w.requests|, provider, event, dialed) == [receive] + [record];
  }

  /** A start event up to the commit of its call row. */
  function PlaceSteps(i: nat, provider: string, event: string, callId: string, owner: Owner, answered: bool): seq<Step> {
    PassGate(i, provider, event, true) + [Advance(i, Route(Some(owner)))] + [Advance(i, CommitCreate(callId, answered))]
  }

  function StartSteps(i: nat, provider: string, event: string, callId: string, owner: Owner): seq<Step> {
    PlaceSteps(i, provider, event, callId, owner, true) + [Advance(i, Register)]
  }

  function Placed(w: World, provider: string, event: string, callId: string, owner: Owner, phase: Phase): World {
    WithCall(w, callId, NewCall(owner.tenantId, owner.agentId, Some(provider)), event)
    .(recorded := w.recorded + {(provider, event)}, requests := w.requests + [Answered(provider, event, true, phase)])
  }

  lemma RouteNext(w: World, r: Request, owner: Owner)
    requires r.phase.Gated? && r.event in START_EVENTS && r.dialed
    ensures var u := w.(requests := w.requests + [r]);
            Next(u, Advance(|w.requests|, Route(Some(owner)))) == w.(requests := w.requests + [r.(phase := Routed(owner))])
  {
    assert r.event !in END_EVENTS;
  }

  lemma CreateNext(w: World, r: Request, callId: string, answered: bool)
    requires r.phase.Routed? && callId !in w.calls
    ensures var u := w.(requests := w.requests + [r]);
            var owner := r.phase.owner;
            Next(u, Advance(|w.requests|, CommitCreate(callId, answered))) ==
            WithCall(w, callId, NewCall(owner.tenantId, owner.agentId, Some(r.provider)), r.event)
            .(requests := w.requests + [r.(phase := if answered then Created(callId, owner) else Done(Unavailable))])
  {
  }

  lemma PlaceRuns(w: World, provider: string, event: string, callId: string, owner: Owner, answered: bool)
    requires event in START_EVENTS && (provider, event) !in w.recorded && callId !in w.calls
    ensures Run(w, PlaceSteps(|w.requests|, provider, event, callId, owner, answered)) ==
            Placed(w, provider, event, callId, owner, if answered then Created(callId, owner) else Done(Unavailable))
  {
    var i := |w.requests|;
    var route, create := Advance(i, Route(Some(owner))), Advance(i, CommitCreate(callId, answered));
    var gate := PassGate(i, provider, event, true);
    PassGateRuns(w, provider, event, true);
    var recorded := w.(recorded := w.recorded + {(provider, event)});
    var gated := Answered(provider, event, true, Gated);
    RunOneMore(w, gate, route);
    RouteNext(recorded, gated, owner);
    var routed := gated.(phase := Routed(owner));
    RunOneMore(w, gate + [route], create);
    CreateNext(recorded, routed, callId, answered);
  }

  lemma StartRuns(w: World, provider: string, event: string, callId: string, owner: Owner)
    requires event in START_EVENTS && (provider, event) !in w.recorded && callId !in w.calls
    ensures Run(w, StartSteps(|w.requests|, provider, event, callId, owner)) ==
            WithSession(Placed(w, provider, event, callId, owner, Done(Started(callId))), callId, owner, provider)
  {
    var i := |w.requests|;
    PlaceRuns(w, provider, event, callId, owner, true);
    var place := PlaceSteps(i, provider, event, callId, owner, true);
    RunAppend(w, place, [Advance(i, Register)]);
    RunFirst(Run(w, place), Advance(i, Register), []);
  }

  /** An end event up to the call it is going to finalize. */
  function LookupSteps(i: nat, provider: string, event: string): seq<Step> {
    PassGate(i, provider, event, false) + [Advance(i, Lookup)]
  }

  function WithEnd(w: World, provider: string, event: string, phase: Phase): World {
    w.(recorded := w.recorded + {(provider, event)}, requests := w.requests + [Answered(provider, event, false, phase)])
  }

  lemma LookupRuns(w: World, provider: string, event: string, callId: string)
    requires event in END_EVENTS && (provider, event) !in w.recorded && MappedTo(w, provider, callId)
    ensures Run(w, LookupSteps(|w.requests|, provider, event)) == WithEnd(w, provider, event, Ending(callId))
  {
    var i := |w.requests|;
    PassGateRuns(w, provider, event, false);
    RunAppend(w, PassGate(i, provider, event, false), [Advance(i, Lookup)]);
    RunFirst(Run(w, PassGate(i, provider, event, false)), Advance(i, Lookup), []);
  }

  /** An end event whose finalize() never reaches services/api. */
  function FailSteps(i: nat, provider: string, event: string): seq<Step> {
    LookupSteps(i, provider, event) + [Advance(i, FinalizeFails)]
  }

  lemma FailRuns(w: World, provider: string, event: string, callId: string)
    requires event in END_EVENTS && (provider, event) !in w.recorded && MappedTo(w, provider, callId)
    ensures Run(w, FailSteps(|w.requests|, provider, event)) == WithEnd(w, provider, event, Done(Unavailable))
  {
    var i := |w.requests|;
    LookupRuns(w, provider, event, callId);
    RunAppend(w, LookupSteps(i, provider, event), [Advance(i, FinalizeFails)]);
    RunFirst(WithEnd(w, provider, event, Ending(callId)), Advance(i, FinalizeFails), []);
  }

  // ------------------------------------------------------ the runs

  /**
   The end event cannot be retried: its finalize() fails, it is delivered again, the answer is
   "duplicate", and the call is still active and mapped. Another end event could still finalize it.
   */
  lemma FailedFinalizeIsNotRetried(provider: string, callId: string, owner: Owner, start: string, end: string)
    requires start in START_EVENTS && end in END_EVENTS
    ensures var w := Run(EMPTY, StartSteps(0, provider, start, callId, owner) + FailSteps(1, provider, end) +
                                PassGate(2, provider, end, false));
            && |w.requests| == 3
            && w.requests[1].phase == Done(Unavailable) && w.requests[2].phase == Done(Duplicate)
            && Active(w, callId) && MappedTo(w, provider, callId) && CanEnd(w, callId)
  {
    var a, b, c := StartSteps(0, provider, start, callId, owner), FailSteps(1, provider, end), PassGate(2, provider, end, false);
    StartRuns(EMPTY, provider, start, callId, owner);
    var w1 := Run(EMPTY, a);
    RunAppend(EMPTY, a, b);
    FailRuns(w1, provider, end, callId);
    var w2 := Run(w1, b);
    RunAppend(EMPTY, a + b, c);
    PassGateRuns(w2, provider, end, false);
    var w := Run(w2, c);
    var other := if end == "terminal" then "completed" else "terminal";
    assert other in END_EVENTS && (provider, other) !in w.recorded;
    assert Linked(w, provider, callId) && EndEventLeft(w, provider);
    CanEndExactly(w, callId);
  }

  function FailEach(i: nat, provider: string, events: seq<string>): seq<Step>
    decreases events
  {
    if events == [] then [] else FailSteps(i, provider, events[0]) + FailEach(i + 1, provider, events[1..])
  }

  ghost predicate AllAnswered(w: World) {
    forall r <- w.requests :: r.phase.Done?
  }

  lemma {:induction false} FailEachRuns(w: World, provider: string, events: seq<string>, callId: string)
    requires AllAnswered(w) && MappedTo(w, provider, callId)
    requires forall e <- events :: e in END_EVENTS && (provider, e) !in w.recorded
    requires forall i, j :: 0 <= i < j < |events| ==> events[i] != events[j]
    ensures var v := Run(w, FailEach(|w.requests|, provider, events));
            && AllAnswered(v) && v.calls == w.calls && v.mapping == w.mapping
            && w.recorded <= v.recorded && forall e <- events :: (provider, e) in v.recorded
    decreases |events|
  {
    if events != [] {
      FailRuns(w, provider, events[0], callId);
      var u := WithEnd(w, provider, events[0], Done(Unavailable));
      FailEachRuns(u, provider, events[1..], callId);
      RunAppend(w, FailSteps(|w.requests|, provider, events[0]), FailEach(|u.requests|, provider, events[1..]));
      assert events == [events[0]] + events[1..];
    }
  }

  lemma NothingUnderWay(w: World)
    requires AllAnswered(w)
    ensures forall c :: !EndPending(w, c) && !CleanupPending(w, c)
    ensures forall p, c :: Linked(w, p, c) ==> MappedTo(w, p, c)
    ensures forall key :: !GatePassed(w, key)
  {
    assert forall k: nat :: At(w, k) ==> w.requests[k] in w.requests;
  }

  lemma SpentCallStays(w: World, provider: string, callId: string)
    requires Inv(w) && AllAnswered(w) && MappedTo(w, provider, callId) && Active(w, callId)
    requires forall e <- END_EVENTS :: (provider, e) in w.recorded
    ensures !CanEnd(w, callId)
  {
    NothingUnderWay(w);
    assert CallOf(w, callId, provider) && !EndEventLeft(w, provider);
    if p: string :| Linked(w, p, callId) {
      OnlyOwnMapping(w, provider, callId, p);
    }
    CanEndExactly(w, callId);
  }

  /** Once finalize() has failed for every end event, in any order, the call stays active for ever, although it is still mapped. */
  lemma AllFailuresAreFinal(provider: string, callId: string, owner: Owner, start: string, events: seq<string>)
    requires start in START_EVENTS
    requires forall e :: e in events <==> e in END_EVENTS
    requires forall i, j :: 0 <= i < j < |events| ==> events[i] != events[j]
    ensures var w := Run(EMPTY, StartSteps(0, provider, start, callId, owner) + FailEach(1, provider, events));
            Active(w, callId) && MappedTo(w, provider, callId) && !CanEnd(w, callId)
  {
    var a := StartSteps(0, provider, start, callId, owner);
    FirstStart(provider, callId, owner, start);
    var w1 := Run(EMPTY, a);
    RunAppend(EMPTY, a, FailEach(1, provider, events));
    forall e <- events ensures (provider, e) !in w1.recorded {
      assert (provider, e) == (provider, start) ==> e == start;
    }
    FailEachRuns(w1, provider, events, callId);
    RunKeepsInv(EMPTY, a + FailEach(1, provider, events));
    SpentCallStays(Run(w1, FailEach(1, provider, events)), provider, callId);
  }

  lemma FirstStart(provider: string, callId: string, owner: Owner, start: string)
    requires start in START_EVENTS
    ensures var w := Run(EMPTY, StartSteps(0, provider, start, callId, owner));
            && w.requests == [Answered(provider, start, true, Done(Started(callId)))] && AllAnswered(w)
            && w.recorded == {(provider, start)} && w.sockets == []
            && w.calls.Keys == {callId} && Active(w, callId) && callId in w.sessions
            && w.mapping == map[provider := callId]
  {
    StartRuns(EMPTY, provider, start, callId, owner);
  }

  /** A row whose creation was committed but not answered: the start event is spent, and no link to the row exists. */
  lemma LostCreateStrands(provider: string, callId: string, owner: Owner, start: string)
    requires start in START_EVENTS
    ensures var w := Run(EMPTY, PlaceSteps(0, provider, start, callId, owner, false));
            Active(w, callId) && AllAnswered(w) && !CanEnd(w, callId)
  {
    PlaceRuns(EMPTY, provider, start, callId, owner, false);
    UnmappedCallStays(Run(EMPTY, PlaceSteps(0, provider, start, callId, owner, false)), callId);
  }

  /** Two start events with different names: two active calls, and the first is out of reach. */
  lemma TwoStartsStrandFirst(provider: string, first: string, second: string, owner: Owner, start: string, again: string)
    requires start in START_EVENTS && again in START_EVENTS && start != again && first != second
    ensures var w := Run(EMPTY, StartSteps(0, provider, start, first, owner) + StartSteps(1, provider, again, second, owner));
            && Active(w, first) && Active(w, second) && first in w.sessions && MappedTo(w, provider, second)
            && !CanEnd(w, first) && !CanLoseSession(w, first)
  {
    var a, b := StartSteps(0, provider, start, first, owner), StartSteps(1, provider, again, second, owner);
    FirstStart(provider, first, owner, start);
    var w1 := Run(EMPTY, a);
    RunAppend(EMPTY, a, b);
    StartRuns(w1, provider, again, second, owner);
    UnmappedCallStays(Run(w1, b), first);
  }

  /** The steps of LateCleanupStrandsSecond: the end event of the first call overlaps the second start. */
  function LateCleanup(provider: string, first: string, second: string, owner: Owner,
                       start: string, again: string, end: string): seq<Step> {
    StartSteps(0, provider, start, first, owner) + LookupSteps(1, provider, end) +
    StartSteps(2, provider, again, second, owner) +
    [Advance(1, CommitFinalize(0, true))] + [Advance(1, Cleanup)]
  }

  lemma BeforeSecondStart(provider: string, first: string, owner: Owner, start: string, end: string)
    requires start in START_EVENTS && end in END_EVENTS
    ensures var w := Run(EMPTY, StartSteps(0, provider, start, first, owner) + LookupSteps(1, provider, end));
            && |w.requests| == 2 && w.requests[0].phase.Done?
            && w.requests[1] == Answered(provider, end, false, Ending(first))
            && w.recorded == {(provider, start), (provider, end)} && w.sockets == []
            && w.calls.Keys == {first} && Active(w, first) && w.mapping == map[provider := first]
  {
    var a, b := StartSteps(0, provider, start, first, owner), LookupSteps(1, provider, end);
    FirstStart(provider, first, owner, start);
    RunAppend(EMPTY, a, b);
    LookupRuns(Run(EMPTY, a), provider, end, first);
  }

  lemma BeforeLateCleanup(provider: string, first: string, second: string, owner: Owner, start: string, again: string, end: string)
    requires start in START_EVENTS && again in START_EVENTS && start != again && first != second && end in END_EVENTS
    ensures var w := Run(EMPTY, StartSteps(0, provider, start, first, owner) + LookupSteps(1, provider, end) +
                                StartSteps(2, provider, again, second, owner));
            && |w.requests| == 3 && w.sockets == []
            && w.requests[0].phase.Done? && w.requests[2].phase.Done?
            && w.requests[1] == Answered(provider, end, false, Ending(first))
            && Active(w, first) && Active(w, second) && second in w.sessions && w.mapping == map[provider := second]
  {
    var a := StartSteps(0, provider, start, first, owner) + LookupSteps(1, provider, end);
    BeforeSecondStart(provider, first, owner, start, end);
    var w := Run(EMPTY, a);
    RunAppend(EMPTY, a, StartSteps(2, provider, again, second, owner));
    StartRuns(w, provider, again, second, owner);
  }

  /** Finalize and clean up, back to back, with the provider id mapped to another call by now. */
  lemma CleanupNext(u: World, first: string, second: string, provider: string)
    requires |u.requests| == 3 && u.requests[0].phase.Done? && u.requests[2].phase.Done?
    requires u.requests[1].phase == Ending(first) && u.requests[1].provider == provider && u.sockets == []
    requires Active(u, first) && Active(u, second) && second in u.sessions && u.mapping == map[provider := second]
    requires first != second
    ensures var w := Next(Next(u, Advance(1, CommitFinalize(0, true))), Advance(1, Cleanup));
            && AllAnswered(w) && w.sockets == [] && w.mapping == map[]
            && Ended(w, first) && Active(w, second) && second in w.sessions
  {
  }

  /** The first call's cleanup deletes the second call's mapping: the second can never be finalized. */
  lemma LateCleanupStrandsSecond(provider: string, first: string, second: string, owner: Owner,
                                 start: string, again: string, end: string)
    requires start in START_EVENTS && again in START_EVENTS && start != again && first != second && end in END_EVENTS
    ensures var w := Run(EMPTY, LateCleanup(provider, first, second, owner, start, again, end));
            && Ended(w, first) && Active(w, second) && second in w.sessions && w.mapping == map[]
            && !CanEnd(w, second) && !CanLoseSession(w, second)
  {
    BeforeLateCleanup(provider, first, second, owner, start, again, end);
    var steps := StartSteps(0, provider, start, first, owner) + LookupSteps(1, provider, end) +
                 StartSteps(2, provider, again, second, owner);
    var finalize, cleanup := Advance(1, CommitFinalize(0, true)), Advance(1, Cleanup);
    var u := Run(EMPTY, steps);
    RunOneMore(EMPTY, steps, finalize);
    RunOneMore(EMPTY, steps + [finalize], cleanup);
    CleanupNext(u, first, second, provider);
    UnmappedCallStays(Next(Next(u, finalize), cleanup), second);
  }

  lemma UnmappedCallStays(w: World, callId: string)
    requires AllAnswered(w) && Active(w, callId) && forall p: string :: !MappedTo(w, p, callId)
    ensures !CanEnd(w, callId)
    ensures callId in w.sessions && w.sockets == [] ==> !CanLoseSession(w, callId)
  {
    NothingUnderWay(w);
    CanEndExactly(w, callId);
    if callId in w.sessions {
      CanLoseSessionExactly(w, callId);
    }
  }
}
