/**
 Which calls can still be finalized and which sessions can still be removed, decided from the
 stores and the requests under way; and the runs that leave a call behind.
 */
module CallEndings {
  import opened Callbacks

  predicate Active(w: World, callId: string) {
    callId in w.calls && w.calls[callId].endedAt.None?
  }

  predicate Ended(w: World, callId: string) {
    callId in w.calls && w.calls[callId].endedAt.Some?
  }

  /** Some run of webhooks, sockets and restarts finalizes the call. */
  ghost predicate CanEnd(w: World, callId: string) {
    exists steps :: Ended(Run(w, steps), callId)
  }

  /** Some run removes the call's session although no further socket connects to it. */
  ghost predicate CanLoseSession(w: World, callId: string) {
    exists steps :: Connect(callId) !in steps && callId !in Run(w, steps).sessions
  }

  // ------------------------------------------- what leads to a call

  predicate IsEnding(r: Request, callId: string) {
    r.phase.Ending? && r.phase.callId == callId
  }

  predicate IsFinalized(r: Request, callId: string) {
    r.phase.Finalized? && r.phase.callId == callId
  }

  predicate IsCreated(r: Request, callId: string) {
    r.phase.Created? && r.phase.callId == callId
  }

  predicate MappedTo(w: World, provider: string, callId: string) {
    provider in w.mapping && w.mapping[provider] == callId
  }

  /** A request is about to finalize the call. */
  ghost predicate EndPending(w: World, callId: string) {
    exists k: nat :: At(w, k) && IsEnding(w.requests[k], callId)
  }

  ghost predicate CleanupPending(w: World, callId: string) {
    exists k: nat :: At(w, k) && IsFinalized(w.requests[k], callId)
  }

  ghost predicate SocketOpen(w: World, callId: string) {
    exists s <- w.sockets :: s.open && s.callId == callId
  }

  /** The call is mapped under the provider id, or its start event is about to map it. */
  ghost predicate Linked(w: World, provider: string, callId: string) {
    || MappedTo(w, provider, callId)
    || exists k: nat :: At(w, k) && IsCreated(w.requests[k], callId) && w.requests[k].provider == provider
  }

  /** The event is through the duplicate gate and not yet handled. */
  ghost predicate GatePassed(w: World, key: (string, string)) {
    exists k: nat :: At(w, k) && w.requests[k].phase.Gated? && Key(w.requests[k]) == key
  }

  /** Some end event of the provider id can still be handled. */
  ghost predicate EndEventLeft(w: World, provider: string) {
    exists e <- END_EVENTS :: (provider, e) !in w.recorded || GatePassed(w, (provider, e))
  }

  ghost predicate WithinReach(w: World, callId: string) {
    EndPending(w, callId) || exists p: string :: Linked(w, p, callId) && EndEventLeft(w, p)
  }

  // ------------------------------------- out of reach is out of reach

  /** A request is through the gate now only if it was before, or its event was not on record. */
  lemma GatedBefore(w: World, st: Step, k: nat)
    requires At(Next(w, st), k) && Next(w, st).requests[k].phase.Gated?
    ensures At(w, k) && Key(w.requests[k]) == Key(Next(w, st).requests[k])
    ensures w.requests[k].phase.Gated? || Key(w.requests[k]) !in w.recorded
  {
  }

  lemma RecordedStays(w: World, st: Step)
    ensures w.recorded <= Next(w, st).recorded
  {
  }

  lemma EndEventsRunOut(w: World, st: Step, provider: string)
    ensures EndEventLeft(Next(w, st), provider) ==> EndEventLeft(w, provider)
  {
    var v := Next(w, st);
    RecordedStays(w, st);
    if EndEventLeft(v, provider) {
      var e :| e in END_EVENTS && ((provider, e) !in v.recorded || GatePassed(v, (provider, e)));
      if (provider, e) in w.recorded {
        var k: nat :| At(v, k) && v.requests[k].phase.Gated? && Key(v.requests[k]) == (provider, e);
        GatedBefore(w, st, k);
        assert GatePassed(w, (provider, e));
      }
    }
  }

  lemma LinksRunOut(w: World, st: Step, provider: string, callId: string)
    requires callId in w.calls
    ensures Linked(Next(w, st), provider, callId) ==> Linked(w, provider, callId)
  {
    var v := Next(w, st);
    if k: nat :| At(v, k) && IsCreated(v.requests[k], callId) && v.requests[k].provider == provider {
      assert At(w, k) && IsCreated(w.requests[k], callId) && w.requests[k].provider == provider;
    } else if Linked(v, provider, callId) && !MappedTo(w, provider, callId) {
      assert st.Advance? && st.move.Register? && IsCreated(w.requests[st.i], callId);
    }
  }

  /** A request starts to finalize a call only by an end event that finds it mapped. */
  lemma EndsRunOut(w: World, st: Step, callId: string)
    ensures EndPending(Next(w, st), callId) ==> WithinReach(w, callId)
  {
    var v := Next(w, st);
    if k: nat :| At(v, k) && IsEnding(v.requests[k], callId) {
      assert At(w, k);
      var r := w.requests[k];
      if !IsEnding(r, callId) {
        assert r.phase.Gated? && r.event in END_EVENTS && MappedTo(w, r.provider, callId);
        assert GatePassed(w, Key(r));
        assert EndEventLeft(w, r.provider) && Linked(w, r.provider, callId);
      }
    }
  }

  lemma OutOfReachStep(w: World, st: Step, callId: string)
    requires callId in w.calls && !WithinReach(w, callId)
    ensures callId in Next(w, st).calls && Next(w, st).calls[callId] == w.calls[callId]
    ensures !WithinReach(Next(w, st), callId)
  {
    var v := Next(w, st);
    EndsRunOut(w, st, callId);
    if p: string :| Linked(v, p, callId) && EndEventLeft(v, p) {
      LinksRunOut(w, st, p, callId);
      EndEventsRunOut(w, st, p);
    }
    if Enabled(w, st) && st.Advance? && st.move.CommitFinalize? {
      assert !IsEnding(w.requests[st.i], callId);
    }
  }

  /** A call that nothing leads to keeps its row in every run, whatever sockets connect to it. */
  lemma {:induction false} OrphansStay(w: World, steps: seq<Step>, callId: string)
    requires callId in w.calls && !WithinReach(w, callId)
    ensures callId in Run(w, steps).calls && Run(w, steps).calls[callId] == w.calls[callId]
    decreases |steps|
  {
    if steps != [] {
      OutOfReachStep(w, steps[0], callId);
      OrphansStay(Next(w, steps[0]), steps[1..], callId);
    }
  }

  // ------------------------------------------ within reach can be reached

  ghost predicate CanReachEnding(w: World, callId: string) {
    exists steps :: Connect(callId) !in steps && callId in Run(w, steps).calls && EndPending(Run(w, steps), callId)
  }

  lemma ReachEndingLater(w: World, st: Step, callId: string)
    requires st != Connect(callId) && CanReachEnding(Next(w, st), callId)
    ensures CanReachEnding(w, callId)
  {
    var steps :| Connect(callId) !in steps && callId in Run(Next(w, st), steps).calls && EndPending(Run(Next(w, st), steps), callId);
    var all := [st] + steps;
    assert all[1..] == steps;
    assert Connect(callId) !in all && Run(w, all) == Run(Next(w, st), steps);
  }

  lemma ReachFromGated(w: World, k: nat, callId: string)
    requires callId in w.calls && At(w, k) && w.requests[k].phase.Gated? && w.requests[k].event in END_EVENTS
    requires MappedTo(w, w.requests[k].provider, callId)
    ensures CanReachEnding(w, callId)
  {
    var v := Next(w, Advance(k, Lookup));
    assert IsEnding(v.requests[k], callId);
    assert Run(v, []) == v && EndPending(v, callId);
    ReachEndingLater(w, Advance(k, Lookup), callId);
  }

  lemma {:induction false} LowerFixes(s: string)
    requires forall i :: 0 <= i < |s| ==> !('A' <= s[i] <= 'Z')
    ensures Lower(s) == s
  {
  }

  /** The event names the handler looks for are in lower case. */
  lemma EventsAreLower(e: string)
    requires e in START_EVENTS + END_EVENTS
    ensures Lower(e) == e
  {
    LowerFixes(e);
  }

  function NewRequest(provider: string, event: string, dialed: bool): Request {
    Request(provider, event, dialed, "", Arrived, false)
  }

  lemma Received(w: World, provider: string, event: string, dialed: bool)
    requires event in START_EVENTS + END_EVENTS
    ensures Next(w, Receive(provider, event, dialed, "")) == w.(requests := w.requests + [NewRequest(provider, event, dialed)])
  {
    EventsAreLower(event);
    assert Lower("") == "";
  }

  lemma ReachFromUnrecorded(w: World, provider: string, event: string, callId: string)
    requires callId in w.calls && MappedTo(w, provider, callId)
    requires event in END_EVENTS && (provider, event) !in w.recorded
    ensures CanReachEnding(w, callId)
  {
    var receive, record := Receive(provider, event, false, ""), Advance(|w.requests|, Record(true));
    Received(w, provider, event, false);
    var v := Next(Next(w, receive), record);
    ReachFromGated(v, |w.requests|, callId);
    ReachEndingLater(Next(w, receive), record, callId);
    ReachEndingLater(w, receive, callId);
  }

  lemma ReachFromMapped(w: World, provider: string, callId: string)
    requires callId in w.calls && MappedTo(w, provider, callId) && EndEventLeft(w, provider)
    ensures CanReachEnding(w, callId)
  {
    var e :| e in END_EVENTS && ((provider, e) !in w.recorded || GatePassed(w, (provider, e)));
    if (provider, e) !in w.recorded {
      ReachFromUnrecorded(w, provider, e, callId);
    } else {
      var k: nat :| At(w, k) && w.requests[k].phase.Gated? && Key(w.requests[k]) == (provider, e);
      ReachFromGated(w, k, callId);
    }
  }

  lemma ReachFromCreated(w: World, k: nat, callId: string)
    requires callId in w.calls && At(w, k) && IsCreated(w.requests[k], callId) && EndEventLeft(w, w.requests[k].provider)
    ensures CanReachEnding(w, callId)
  {
    var provider := w.requests[k].provider;
    var v := Next(w, Advance(k, Register));
    var e :| e in END_EVENTS && ((provider, e) !in w.recorded || GatePassed(w, (provider, e)));
    if GatePassed(w, (provider, e)) {
      var g: nat :| At(w, g) && w.requests[g].phase.Gated? && Key(w.requests[g]) == (provider, e);
      assert At(v, g) && v.requests[g] == w.requests[g];
      assert GatePassed(v, (provider, e));
    }
    ReachFromMapped(v, provider, callId);
    ReachEndingLater(w, Advance(k, Register), callId);
  }

  lemma ReachesEnding(w: World, callId: string)
    requires callId in w.calls && WithinReach(w, callId)
    ensures CanReachEnding(w, callId)
  {
    if EndPending(w, callId) {
      assert Run(w, []) == w;
    } else {
      var p: string :| Linked(w, p, callId) && EndEventLeft(w, p);
      if MappedTo(w, p, callId) {
        ReachFromMapped(w, p, callId);
      } else {
        var k: nat :| At(w, k) && IsCreated(w.requests[k], callId) && w.requests[k].provider == p;
        ReachFromCreated(w, k, callId);
      }
    }
  }

  /** From a pending end: finalize, and clean up. */
  lemma FinishEnding(w: World, callId: string) returns (k: nat)
    requires callId in w.calls && EndPending(w, callId)
    ensures Ended(Run(w, [Advance(k, CommitFinalize(0, true))]), callId)
    ensures callId !in Run(w, [Advance(k, CommitFinalize(0, true)), Advance(k, Cleanup)]).sessions
  {
    k :| At(w, k) && IsEnding(w.requests[k], callId);
    var finalize, cleanup := Advance(k, CommitFinalize(0, true)), Advance(k, Cleanup);
    assert [finalize][1..] == [] && [finalize, cleanup][1..] == [cleanup] && [cleanup][1..] == [];
    var v := Next(w, finalize);
    assert Run(w, [finalize]) == v;
    assert Run(w, [finalize, cleanup]) == Run(v, [cleanup]) == Next(v, cleanup);
  }

  // --------------------------------------------------------- main results

  /**
   A call can still be finalized exactly when a request is about to do it, or when the call is
   mapped (or about to be) and some end event of its provider id is not on record or is through
   the gate. Redelivering an event that is on record is not among the ways.
   */
  lemma CanEndExactly(w: World, callId: string)
    requires Active(w, callId)
    ensures CanEnd(w, callId) <==> WithinReach(w, callId)
  {
    if WithinReach(w, callId) {
      ReachesEnding(w, callId);
      var steps :| Connect(callId) !in steps && callId in Run(w, steps).calls && EndPending(Run(w, steps), callId);
      var k := FinishEnding(Run(w, steps), callId);
      RunAppend(w, steps, [Advance(k, CommitFinalize(0, true))]);
    } else if steps :| Ended(Run(w, steps), callId) {
      OrphansStay(w, steps, callId);
    }
  }

  /** What keeps a session from ever being removed while no socket connects to it. */
  ghost predicate Stranded(w: World, callId: string) {
    !WithinReach(w, callId) && !CleanupPending(w, callId) && !SocketOpen(w, callId)
  }

  lemma CleanupsRunOut(w: World, st: Step, callId: string)
    ensures CleanupPending(Next(w, st), callId) ==> CleanupPending(w, callId) || EndPending(w, callId)
  {
    var v := Next(w, st);
    if k: nat :| At(v, k) && IsFinalized(v.requests[k], callId) {
      assert At(w, k) && (IsFinalized(w.requests[k], callId) || IsEnding(w.requests[k], callId));
    }
  }

  lemma SocketsRunOut(w: World, st: Step, callId: string)
    requires st != Connect(callId)
    ensures SocketOpen(Next(w, st), callId) ==> SocketOpen(w, callId)
  {
    var v := Next(w, st);
    if j :| 0 <= j < |v.sockets| && v.sockets[j].open && v.sockets[j].callId == callId {
      assert j < |w.sockets| && w.sockets[j] in w.sockets;
    }
  }

  lemma SessionKept(w: World, st: Step, callId: string)
    requires callId in w.sessions && !CleanupPending(w, callId) && !SocketOpen(w, callId)
    ensures callId in Next(w, st).sessions
  {
    if Enabled(w, st) && st.Advance? && st.move.Cleanup? {
      assert !IsFinalized(w.requests[st.i], callId);
    }
    if Enabled(w, st) && st.Hangup? {
      assert w.sockets[st.j] in w.sockets;
    }
  }

  lemma StrandedStep(w: World, st: Step, callId: string)
    requires callId in w.sessions && callId in w.calls && Stranded(w, callId) && st != Connect(callId)
    ensures var v := Next(w, st); callId in v.sessions && callId in v.calls && Stranded(v, callId)
  {
    OutOfReachStep(w, st, callId);
    CleanupsRunOut(w, st, callId);
    SocketsRunOut(w, st, callId);
    SessionKept(w, st, callId);
  }

  lemma {:induction false} StrandedStays(w: World, steps: seq<Step>, callId: string)
    requires callId in w.sessions && callId in w.calls && Stranded(w, callId) && Connect(callId) !in steps
    ensures callId in Run(w, steps).sessions
    decreases |steps|
  {
    if steps != [] {
      StrandedStep(w, steps[0], callId);
      StrandedStays(Next(w, steps[0]), steps[1..], callId);
    }
  }

  lemma LosesSessionNow(w: World, st: Step, callId: string)
    requires st != Connect(callId) && callId !in Next(w, st).sessions
    ensures CanLoseSession(w, callId)
  {
    assert [st][1..] == [];
    assert Run(w, [st]) == Next(w, st);
  }

  /** A live session can be removed without a further socket exactly when it is not stranded. */
  lemma CanLoseSessionExactly(w: World, callId: string)
    requires callId in w.sessions && callId in w.calls
    ensures CanLoseSession(w, callId) <==> WithinReach(w, callId) || CleanupPending(w, callId) || SocketOpen(w, callId)
  {
    if WithinReach(w, callId) {
      ReachesEnding(w, callId);
      var steps :| Connect(callId) !in steps && callId in Run(w, steps).calls && EndPending(Run(w, steps), callId);
      var k := FinishEnding(Run(w, steps), callId);
      var last := [Advance(k, CommitFinalize(0, true)), Advance(k, Cleanup)];
      RunAppend(w, steps, last);
      assert Connect(callId) !in steps + last;
    } else if k: nat :| At(w, k) && IsFinalized(w.requests[k], callId) {
      LosesSessionNow(w, Advance(k, Cleanup), callId);
    } else if s :| s in w.sockets && s.open && s.callId == callId {
      var j :| 0 <= j < |w.sockets| && w.sockets[j] == s;
      LosesSessionNow(w, Hangup(j), callId);
    } else if steps :| Connect(callId) !in steps && callId !in Run(w, steps).sessions {
      StrandedStays(w, steps, callId);
    }
  }

  // -------------------------------------- a second start, a late cleanup

  lemma CreatedIsUnregistered(w: World, k: nat, callId: string)
    requires Inv(w) && At(w, k) && IsCreated(w.requests[k], callId)
    ensures callId !in w.registered
  {
    assert RequestOk(w, w.requests[k]);
  }

  /** A registered call has one link at most: the mapping of its own provider id. */
  lemma OnlyOwnMapping(w: World, provider: string, callId: string, p: string)
    requires Inv(w) && CallOf(w, callId, provider) && callId in w.registered && Linked(w, p, callId)
    ensures p == provider && MappedTo(w, provider, callId)
  {
    if MappedTo(w, p, callId) {
      assert CallOf(w, w.mapping[p], p);
    } else {
      var k: nat :| At(w, k) && IsCreated(w.requests[k], callId);
      CreatedIsUnregistered(w, k, callId);
    }
  }

  lemma RegisterUnlinks(w: World, i: nat, first: string)
    requires Inv(w) && Enabled(w, Advance(i, Register)) && MappedTo(w, w.requests[i].provider, first)
    ensures var v := Next(w, Advance(i, Register)); forall p: string :: !Linked(v, p, first)
  {
    var v := Next(w, Advance(i, Register));
    var provider := w.requests[i].provider;
    CreatedIsUnregistered(w, i, w.requests[i].phase.callId);
    assert CallOf(w, first, provider) && first in w.registered;
    NextKeepsInv(w, Advance(i, Register));
    if p: string :| Linked(v, p, first) {
      OnlyOwnMapping(v, provider, first, p);
    }
  }

  /** Request i moves from and to other phases; the rest stay. */
  lemma SameEnds(w: World, v: World, i: nat, callId: string)
    requires At(w, i) && |v.requests| == |w.requests| && v.requests == w.requests[i := v.requests[i]]
    requires !w.requests[i].phase.Ending? && !v.requests[i].phase.Ending?
    ensures EndPending(v, callId) <==> EndPending(w, callId)
  {
    if k: nat :| At(w, k) && IsEnding(w.requests[k], callId) {
      assert IsEnding(v.requests[k], callId);
    }
    if k: nat :| At(v, k) && IsEnding(v.requests[k], callId) {
      assert IsEnding(w.requests[k], callId);
    }
  }

  /**
   A second start event under another name takes the mapping over. From then on the first call can
   never be finalized, exactly when no request was already about to; sockets do not matter. Its
   session is never removed, short of a new socket, exactly when besides no cleanup was due and
   no socket was open.
   */
  lemma SecondStartOrphansFirst(w: World, i: nat, first: string)
    requires Inv(w) && Enabled(w, Advance(i, Register)) && MappedTo(w, w.requests[i].provider, first)
    ensures var v := Next(w, Advance(i, Register));
            && (Active(w, first) ==> (!CanEnd(v, first) <==> !EndPending(w, first)))
            && (first in w.sessions ==>
                  (!CanLoseSession(v, first) <==>
                    !EndPending(w, first) && !CleanupPending(w, first) && !SocketOpen(w, first)))
  {
    var v := Next(w, Advance(i, Register));
    RegisterUnlinks(w, i, first);
    SameEnds(w, v, i, first);
    CreatedIsUnregistered(w, i, w.requests[i].phase.callId);
    assert CallOf(w, first, w.requests[i].provider) && first in w.registered;
    if Active(w, first) {
      CanEndExactly(v, first);
    }
    if first in w.sessions {
      CanLoseSessionExactly(v, first);
      SameCleanups(w, v, i, first);
    }
  }

  lemma SameCleanups(w: World, v: World, i: nat, callId: string)
    requires At(w, i) && |v.requests| == |w.requests| && v.requests == w.requests[i := v.requests[i]]
    requires !w.requests[i].phase.Finalized? && !v.requests[i].phase.Finalized?
    ensures CleanupPending(v, callId) <==> CleanupPending(w, callId)
  {
    if k: nat :| At(w, k) && IsFinalized(w.requests[k], callId) {
      assert IsFinalized(v.requests[k], callId);
    }
    if k: nat :| At(v, k) && IsFinalized(v.requests[k], callId) {
      assert IsFinalized(w.requests[k], callId);
    }
  }

  lemma CleanupReach(w: World, i: nat, callId: string)
    requires Inv(w) && Enabled(w, Advance(i, Cleanup)) && callId in w.calls
    ensures var v := Next(w, Advance(i, Cleanup)); var p := w.requests[i].provider;
            WithinReach(w, callId) && !WithinReach(v, callId) <==>
              MappedTo(w, p, callId) && EndEventLeft(w, p) && !EndPending(w, callId)
  {
    var v := Next(w, Advance(i, Cleanup));
    var provider := w.requests[i].provider;
    NextKeepsInv(w, Advance(i, Cleanup));
    CleanupKeepsEvents(w, i, callId);
    if MappedTo(w, provider, callId) {
      assert CallOf(w, callId, provider) && callId in w.registered;
      if p: string :| Linked(v, p, callId) {
        OnlyOwnMapping(v, provider, callId, p);
      }
      assert EndEventLeft(w, provider) ==> Linked(w, provider, callId);
      if p: string :| Linked(w, p, callId) && EndEventLeft(w, p) {
        OnlyOwnMapping(w, provider, callId, p);
      }
    } else if p: string :| Linked(w, p, callId) && EndEventLeft(w, p) {
      CleanupKeepsLink(w, i, p, callId);
      CleanupKeepsEvents(w, i, callId);
      assert EndEventLeft(v, p);
    }
  }

  /** A cleanup moves no other request and records nothing. */
  lemma CleanupKeepsEvents(w: World, i: nat, callId: string)
    requires Enabled(w, Advance(i, Cleanup))
    ensures var v := Next(w, Advance(i, Cleanup));
            && (EndPending(v, callId) <==> EndPending(w, callId))
            && (forall p :: EndEventLeft(w, p) ==> EndEventLeft(v, p))
  {
    var v := Next(w, Advance(i, Cleanup));
    assert forall k: nat :: At(w, k) && k != i ==> v.requests[k] == w.requests[k];
    if k: nat :| At(w, k) && IsEnding(w.requests[k], callId) {
      assert IsEnding(v.requests[k], callId);
    }
    forall p | EndEventLeft(w, p) ensures EndEventLeft(v, p) {
      var e :| e in END_EVENTS && ((p, e) !in w.recorded || GatePassed(w, (p, e)));
      if GatePassed(w, (p, e)) {
        var k: nat :| At(w, k) && w.requests[k].phase.Gated? && Key(w.requests[k]) == (p, e);
        assert At(v, k) && v.requests[k] == w.requests[k];
        assert GatePassed(v, (p, e));
      }
    }
  }

  lemma CleanupKeepsLink(w: World, i: nat, p: string, callId: string)
    requires Enabled(w, Advance(i, Cleanup)) && Linked(w, p, callId) && !MappedTo(w, w.requests[i].provider, callId)
    ensures Linked(Next(w, Advance(i, Cleanup)), p, callId)
  {
    var v := Next(w, Advance(i, Cleanup));
    if k: nat :| At(w, k) && IsCreated(w.requests[k], callId) && w.requests[k].provider == p {
      assert At(v, k) && IsCreated(v.requests[k], callId) && v.requests[k].provider == p;
    }
  }

  /**
   Cleaning up after one call deletes whatever its provider id is mapped to by then. That makes it
   impossible to finalize another call exactly when that call holds the mapping, has an end event
   left and no request is about to finalize it.
   */
  lemma CleanupStrands(w: World, i: nat, callId: string)
    requires Inv(w) && Enabled(w, Advance(i, Cleanup)) && Active(w, callId)
    ensures var v := Next(w, Advance(i, Cleanup)); var p := w.requests[i].provider;
            CanEnd(w, callId) && !CanEnd(v, callId) <==>
              MappedTo(w, p, callId) && EndEventLeft(w, p) && !EndPending(w, callId)
  {
    CanEndExactly(w, callId);
    CanEndExactly(Next(w, Advance(i, Cleanup)), callId);
    CleanupReach(w, i, callId);
  }

  /**
   A cleanup spares all calls but the finalized one, unless its provider id is by then mapped to
   another active call that only a further end event could have finalized.
   */
  lemma CleanupSparesOthers(w: World, i: nat)
    requires Inv(w) && Enabled(w, Advance(i, Cleanup))
    ensures var v := Next(w, Advance(i, Cleanup)); var r := w.requests[i];
            (forall d :: Active(w, d) && d != r.phase.callId && CanEnd(w, d) ==> CanEnd(v, d)) <==>
            !(exists d :: Active(w, d) && d != r.phase.callId && MappedTo(w, r.provider, d) &&
                          EndEventLeft(w, r.provider) && !EndPending(w, d))
  {
    forall d | Active(w, d)
      ensures CanEnd(w, d) && !CanEnd(Next(w, Advance(i, Cleanup)), d) <==>
                MappedTo(w, w.requests[i].provider, d) && EndEventLeft(w, w.requests[i].provider) && !EndPending(w, d)
    {
      CleanupStrands(w, i, d);
    }
  }
}
