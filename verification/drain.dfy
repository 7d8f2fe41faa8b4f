/** Deployment draining: admission of WebSocket calls, the active-call counter, and the wait loop. */
module Drain {

  /** A connection that passed the draining check: awaiting accept(), in its call, or over. */
  datatype Connection = Accepting | Running | Over

  datatype Gate = Gate(draining: bool, active: int, connections: seq<Connection>)

  datatype Event =
    | Connect(known: bool)           // is there a session for the call_id
    | Accepted(i: nat, ok: bool)     // accept() returned, or raised
    | Ended(i: nat)                  // _run_call returned or raised
    | BeginDrain

  /** Events that are not enabled change nothing. */
  function Apply(g: Gate, e: Event): Gate {
    match e
    case Connect(known) =>
      if g.draining || !known then g else g.(connections := g.connections + [Accepting])
    case Accepted(i, ok) =>
      if i < |g.connections| && g.connections[i].Accepting? then
        if ok then g.(connections := g.connections[i := Running], active := g.active + 1)
        else g.(connections := g.connections[i := Over])
      else g
    case Ended(i) =>
      if i < |g.connections| && g.connections[i].Running? then
        g.(connections := g.connections[i := Over], active := g.active - 1)
      else g
    case BeginDrain => g.(draining := true)
  }

  function ApplyAll(g: Gate, es: seq<Event>): Gate
    decreases es
  {
    if es == [] then g else ApplyAll(Apply(g, es[0]), es[1..])
  }

  ghost function Count(cs: seq<Connection>, c: Connection): nat {
    multiset(cs)[c]
  }

  lemma CountUpdate(cs: seq<Connection>, i: nat, c: Connection, x: Connection)
    requires i < |cs|
    ensures Count(cs[i := c], x) == Count(cs, x) - (if cs[i] == x then 1 else 0) + (if c == x then 1 else 0)
  {
    assert cs == cs[..i] + [cs[i]] + cs[i + 1..];
    assert cs[i := c] == cs[..i] + [c] + cs[i + 1..];
  }

  /** The counter is the number of calls between start and end, on every path. */
  ghost predicate Counted(g: Gate) {
    g.active == Count(g.connections, Running)
  }

  /** Calls an event starts: 0 or 1. */
  ghost function Starts(g: Gate, e: Event): nat {
    if Apply(g, e).active > g.active then 1 else 0
  }

  ghost function AllStarts(g: Gate, es: seq<Event>): nat
    decreases es
  {
    if es == [] then 0 else Starts(g, es[0]) + AllStarts(Apply(g, es[0]), es[1..])
  }

  ghost function Pending(g: Gate): nat {
    Count(g.connections, Accepting)
  }

  lemma ApplyCounts(g: Gate, e: Event)
    requires Counted(g)
    ensures Counted(Apply(g, e))
    ensures g.draining ==> Apply(g, e).draining
    ensures g.draining ==> Pending(Apply(g, e)) + Starts(g, e) <= Pending(g)
    ensures g.draining ==> Pending(Apply(g, e)) + Apply(g, e).active <= Pending(g) + g.active
  {
    if e.Accepted? && e.i < |g.connections| && g.connections[e.i].Accepting? {
      CountUpdate(g.connections, e.i, if e.ok then Running else Over, Running);
      CountUpdate(g.connections, e.i, if e.ok then Running else Over, Accepting);
    } else if e.Ended? && e.i < |g.connections| && g.connections[e.i].Running? {
      CountUpdate(g.connections, e.i, Over, Running);
      CountUpdate(g.connections, e.i, Over, Accepting);
    } else if e.Connect? {
      assert multiset(g.connections + [Accepting]) == multiset(g.connections) + multiset{Accepting};
    }
  }

  /**
   While draining, running plus still-accepting connections never grow, and every later start
   uses up a connection that was already accepting.
   */
  lemma {:induction false} DrainingOnlyShrinks(g: Gate, es: seq<Event>)
    requires Counted(g)
    ensures Counted(ApplyAll(g, es))
    ensures g.draining ==> AllStarts(g, es) + Pending(ApplyAll(g, es)) <= Pending(g)
    ensures g.draining ==> Pending(ApplyAll(g, es)) + ApplyAll(g, es).active <= Pending(g) + g.active
    decreases |es|
  {
    if es != [] {
      ApplyCounts(g, es[0]);
      DrainingOnlyShrinks(Apply(g, es[0]), es[1..]);
    }
  }

  /** Draining has really stopped new calls exactly when no connection is still awaiting accept(). */
  lemma NoMoreStarts(g: Gate)
    requires Counted(g) && g.draining
    ensures (forall es: seq<Event> :: AllStarts(g, es) == 0) <==> Pending(g) == 0
  {
    if Pending(g) == 0 {
      forall es: seq<Event> ensures AllStarts(g, es) == 0 {
        DrainingOnlyShrinks(g, es);
      }
    } else {
      assert Accepting in multiset(g.connections);
      var i :| 0 <= i < |g.connections| && g.connections[i] == Accepting;
      var es := [Accepted(i, true)];
      assert es[1..] == [];
      assert AllStarts(g, es) == Starts(g, es[0]) + AllStarts(Apply(g, es[0]), []);
      assert AllStarts(g, es) == 1;
    }
  }

  /** The wait loop can see no active call while one is still to start: a connection in accept() is not counted. */
  lemma IdleIsNotDrained()
    ensures var g := ApplyAll(Gate(false, 0, []), [Connect(true), BeginDrain]);
            && g.draining && g.active == 0 && Pending(g) == 1
            && exists es :: AllStarts(g, es) == 1
  {
    var es := [Connect(true), BeginDrain];
    var g := ApplyAll(Gate(false, 0, []), es);
    assert es[1..] == [BeginDrain] && es[1..][1..] == [];
    assert g == Gate(true, 0, [Accepting]);
    var last := [Accepted(0, true)];
    assert last[1..] == [];
    assert AllStarts(g, last) == 1;
  }

  const POLL_INTERVAL := 2

  /** The gateway once shutdown has begun and n polls have slept; `during(k)` happens while poll k sleeps. */
  ghost function Then(g: Gate, during: nat -> seq<Event>, n: nat): Gate {
    if n == 0 then Apply(g, BeginDrain) else ApplyAll(Then(g, during, n - 1), during(n - 1))
  }

  /** Before each of the first `polls` polls a call was active and the timeout had not passed. */
  ghost predicate SleptOnlyForCalls(g: Gate, during: nat -> seq<Event>, timeout: int, polls: nat) {
    forall n: nat :: n < polls ==> 2 * n < timeout && Then(g, during, n).active > 0
  }

  lemma SleptOnceMore(g: Gate, during: nat -> seq<Event>, timeout: int, polls: nat)
    requires SleptOnlyForCalls(g, during, timeout, polls)
    requires 2 * polls < timeout && Then(g, during, polls).active > 0
    ensures SleptOnlyForCalls(g, during, timeout, polls + 1)
    ensures Then(g, during, polls + 1) == ApplyAll(Then(g, during, polls), during(polls))
  {
  }

  lemma ApplyAllOneMore(g: Gate, es: seq<Event>, i: nat)
    requires i < |es|
    ensures ApplyAll(g, es[..i + 1]) == Apply(ApplyAll(g, es[..i]), es[i])
    decreases i
  {
    if i == 0 {
      assert es[..1][1..] == [];
    } else {
      assert es[..i + 1][1..] == es[1..][..i] && es[..i][1..] == es[1..][..i - 1];
      ApplyAllOneMore(Apply(g, es[0]), es[1..], i - 1);
    }
  }

  /** While shutting down, the calls and connections that are left only get fewer, poll by poll. */
  lemma {:induction false} DrainingPolls(g: Gate, during: nat -> seq<Event>, m: nat, n: nat)
    requires Counted(g) && m <= n
    ensures Counted(Then(g, during, n)) && Then(g, during, n).draining
    ensures Then(g, during, n).active + Pending(Then(g, during, n)) <= Then(g, during, m).active + Pending(Then(g, during, m))
    decreases n
  {
    if n > 0 {
      DrainingPolls(g, during, if m < n then m else n - 1, n - 1);
      DrainingOnlyShrinks(Then(g, during, n - 1), during(n - 1));
      StaysDraining(Then(g, during, n - 1), during(n - 1));
    }
  }

  lemma {:induction false} StaysDraining(g: Gate, es: seq<Event>)
    requires g.draining
    ensures ApplyAll(g, es).draining
    decreases |es|
  {
    if es != [] {
      StaysDraining(Apply(g, es[0]), es[1..]);
    }
  }

  class VoiceGateway {
    var draining: bool
    var activeCalls: int
    var connections: seq<Connection>

    constructor ()
      ensures State() == Gate(false, 0, []) && Counted(State())
    {
      draining, activeCalls, connections := false, 0, [];
    }

    ghost function State(): Gate
      reads this
    {
      Gate(draining, activeCalls, connections)
    }

    method Handle(e: Event)
      modifies this
      ensures State() == Apply(old(State()), e)
      ensures e == Connect(true) && !old(draining) ==> connections == old(connections) + [Accepting] && activeCalls == old(activeCalls)
      ensures e == Connect(false) || (e.Connect? && old(draining)) ==> State() == old(State())
      ensures e.Accepted? && e.i < |old(connections)| && old(connections)[e.i] == Accepting ==>
                && connections == old(connections)[e.i := if e.ok then Running else Over]
                && activeCalls == old(activeCalls) + (if e.ok then 1 else 0)
      ensures e.Ended? && e.i < |old(connections)| && old(connections)[e.i] == Running ==>
                connections == old(connections)[e.i := Over] && activeCalls == old(activeCalls) - 1
      ensures draining == (old(draining) || e == BeginDrain)
    {
      match e {
        case Connect(known) =>
          if !draining && known {
            connections := connections + [Accepting];
          }
        case Accepted(i, ok) =>
          if i < |connections| && connections[i].Accepting? {
            connections := connections[i := if ok then Running else Over];
            if ok {
              activeCalls := activeCalls + 1;
            }
          }
        case Ended(i) =>
          if i < |connections| && connections[i].Running? {
            connections := connections[i := Over];
            activeCalls := activeCalls - 1;
          }
        case BeginDrain =>
          draining := true;
      }
    }

    method HandleAll(es: seq<Event>)
      modifies this
      ensures State() == ApplyAll(old(State()), es)
    {
      for i := 0 to |es|
        invariant State() == ApplyAll(old(State()), es[..i])
      {
        ApplyAllOneMore(old(State()), es, i);
        Handle(es[i]);
      }
      assert es[..|es|] == es;
    }

    /**
     The shutdown phase. It sleeps while calls are active and the timeout has not passed, and not
     once more: `polls` is the first count at which no call is active or the timeout has passed.
     */
    method DrainAndStop(timeout: int, during: nat -> seq<Event>) returns (waited: nat, polls: nat)
      modifies this
      ensures State() == Then(old(State()), during, polls) && waited == 2 * polls
      ensures SleptOnlyForCalls(old(State()), during, timeout, polls)
      ensures Then(old(State()), during, polls).active <= 0 || timeout <= waited
    {
      ghost var g := State();
      Handle(BeginDrain);
      waited, polls := 0, 0;
      while activeCalls > 0 && waited < timeout
        invariant State() == Then(g, during, polls) && waited == POLL_INTERVAL * polls
        invariant SleptOnlyForCalls(g, during, timeout, polls)
        decreases timeout - waited
      {
        SleptOnceMore(g, during, timeout, polls);
        HandleAll(during(polls));
        polls, waited := polls + 1, waited + POLL_INTERVAL;
      }
    }
  }
}
