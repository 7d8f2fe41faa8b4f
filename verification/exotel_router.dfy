/**
 The webhook handler as it is written: one request from authentication to answer, updating the
 stores in place. Each await is one step of the protocol in `Callbacks`.
 */
module ExotelRouter {
  import opened Options
  import opened Calls
  import opened Callbacks

  /** How the services answer one request, and the uuid drawn for a new call. */
  datatype Fate = Fate(
    recordReached: bool, recordAnswered: bool,
    route: Option<Owner>,
    createReached: bool, createAnswered: bool, freshId: string,
    finalizeReached: bool, finalizeAnswered: bool, at: Time)

  /** The protocol steps that one request takes, and its answer. */
  datatype Plan = Plan(steps: seq<Step>, answer: Answer)

  function First(st: Step, rest: Plan): Plan {
    rest.(steps := [st] + rest.steps)
  }

  function PlacePlan(i: nat, fate: Fate): Plan {
    if !fate.createReached then Plan([Advance(i, CreateFails)], Unavailable)
    else First(Advance(i, CommitCreate(fate.freshId, fate.createAnswered)),
               if fate.createAnswered then Plan([Advance(i, Register)], Started(fate.freshId)) else Plan([], Unavailable))
  }

  function StartPlan(i: nat, dialed: bool, fate: Fate): Plan {
    First(Advance(i, Route(fate.route)), if dialed && fate.route.Some? then PlacePlan(i, fate) else Plan([], Rejected))
  }

  function EndPlan(i: nat, callId: string, fate: Fate): Plan {
    if !fate.finalizeReached then Plan([Advance(i, FinalizeFails)], Unavailable)
    else First(Advance(i, CommitFinalize(fate.at, fate.finalizeAnswered)),
               if fate.finalizeAnswered then Plan([Advance(i, Cleanup)], Cleaned(callId)) else Plan([], Unavailable))
  }

  function FinishPlan(i: nat, mapping: map<string, string>, provider: string, fate: Fate): Plan {
    First(Advance(i, Lookup), if provider in mapping then EndPlan(i, mapping[provider], fate) else Plan([], Ignored))
  }

  function DispatchPlan(i: nat, mapping: map<string, string>, r: Request, fate: Fate): Plan {
    if r.event in START_EVENTS then StartPlan(i, r.dialed, fate)
    else if r.event in END_EVENTS then FinishPlan(i, mapping, r.provider, fate)
    else Plan([Advance(i, Route(None))], Ignored)
  }

  function GatePlan(i: nat, s: Stores, r: Request, fate: Fate): Plan {
    if !fate.recordReached then Plan([Advance(i, RecordFails)], Unavailable)
    else First(Advance(i, Record(fate.recordAnswered)),
               if !fate.recordAnswered then Plan([], Unavailable)
               else if Key(r) in s.recorded then Plan([], Duplicate)
               else DispatchPlan(i, s.mapping, r, fate))
  }

  function Delivered(provider: string, event: string, dialed: bool, callStatus: string): Request {
    Request(provider, Lower(event), dialed, Lower(callStatus), Arrived, false)
  }

  /** Spellings of an event or a status that differ only in case are the same webhook. */
  lemma CaseDoesNotMatter(w: World, provider: string, dialed: bool, a: string, b: string, x: string, y: string)
    requires Lower(a) == Lower(b) && Lower(x) == Lower(y)
    ensures Delivered(provider, a, dialed, x) == Delivered(provider, b, dialed, y)
    ensures Next(w, Receive(provider, a, dialed, x)) == Next(w, Receive(provider, b, dialed, y))
    ensures Next(w, Receive(provider, a, dialed, x)) == w.(requests := w.requests + [Delivered(provider, a, dialed, x)])
  {
  }

  // -------------------------------------------- the stores, told directly

  datatype Stores = Stores(recorded: set<(string, string)>, calls: map<string, CallRow>,
                           mapping: map<string, string>, sessions: map<string, Owner>)

  function PlacedStores(s: Stores, provider: string, owner: Owner, fate: Fate): Stores {
    if !fate.createReached then s
    else
      var s' := s.(calls := s.calls[fate.freshId := NewCall(owner.tenantId, owner.agentId, Some(provider))]);
      if !fate.createAnswered then s'
      else s'.(sessions := s.sessions[fate.freshId := owner], mapping := s.mapping[provider := fate.freshId])
  }

  function EndedStores(s: Stores, provider: string, callId: string, reason: string, fate: Fate): Stores
    requires callId in s.calls
  {
    if !fate.finalizeReached then s
    else
      var s' := s.(calls := s.calls[callId := FinalizeRow(s.calls[callId], fate.at, reason)]);
      if !fate.finalizeAnswered then s'
      else s'.(sessions := s.sessions - {callId}, mapping := s.mapping - {provider})
  }

  predicate MappedCallsExist(s: Stores) {
    forall p <- s.mapping :: s.mapping[p] in s.calls
  }

  function DispatchedStores(s: Stores, r: Request, fate: Fate): Stores
    requires MappedCallsExist(s)
  {
    if r.event in START_EVENTS && r.dialed && fate.route.Some? then PlacedStores(s, r.provider, fate.route.value, fate)
    else if r.event in END_EVENTS && r.provider in s.mapping then
      EndedStores(s, r.provider, s.mapping[r.provider], EndReason(r), fate)
    else s
  }

  /** What one webhook leaves in the stores. */
  function HandledStores(s: Stores, r: Request, fate: Fate): Stores
    requires MappedCallsExist(s)
  {
    if !fate.recordReached then s
    else
      var s' := s.(recorded := s.recorded + {Key(r)});
      if fate.recordAnswered && Key(r) !in s.recorded then DispatchedStores(s', r, fate) else s'
  }

  /**
   Delivering a webhook again never has an effect of its own: whatever became of the delivery that
   was recorded, and whatever the services do the second time, the stores stay as they were.
   */
  lemma RedeliveryHasNoEffect(s: Stores, r: Request, fate: Fate, again: Fate, i: nat)
    requires MappedCallsExist(s) && fate.recordReached
    ensures var s' := HandledStores(s, r, fate);
            && MappedCallsExist(s') && HandledStores(s', r, again) == s'
            && GatePlan(i, s', r, again).answer == if again.recordReached && again.recordAnswered then Duplicate else Unavailable
  {
    var s' := HandledStores(s, r, fate);
    assert Key(r) in s'.recorded;
    assert s'.recorded + {Key(r)} == s'.recorded;
  }

  /** A webhook places a call exactly when it is a new start event and every service it needs answers; */
  lemma StartedExactly(i: nat, s: Stores, r: Request, fate: Fate)
    ensures GatePlan(i, s, r, fate).answer.Started? <==>
              && fate.recordReached && fate.recordAnswered && (r.provider, r.event) !in s.recorded
              && r.event in {"connected", "start", "answered", "started"}
              && r.dialed && fate.route.Some? && fate.createReached && fate.createAnswered
    ensures GatePlan(i, s, r, fate).answer.Started? && MappedCallsExist(s) ==>
              var owner := fate.route.value;
              && GatePlan(i, s, r, fate).answer == Started(fate.freshId)
              && HandledStores(s, r, fate) == Stores(
                   s.recorded + {(r.provider, r.event)},
                   s.calls[fate.freshId := CallRow(owner.tenantId, owner.agentId, Some(r.provider), "active", "connected", None, None)],
                   s.mapping[r.provider := fate.freshId],
                   s.sessions[fate.freshId := owner])
  {
  }

  /** A row still active ends with the reason and the outcome that the event and its status say. */
  lemma EndedRow(row: CallRow, r: Request, at: Time)
    requires row.endedAt.None?
    ensures FinalizeRow(row, at, EndReason(r)) ==
            if r.event == "failed" || r.callStatus in {"failed", "busy", "no-answer"} then
              row.(endedAt := Some(at), endReason := Some("provider_failure"), status := "failed", connectionStatus := "failed_pre_connect")
            else
              row.(endedAt := Some(at), endReason := Some("caller_hangup"), status := "completed", connectionStatus := "connected")
  {
    OutcomeTable(EndReason(r));
  }

  /**
   and it ends one exactly when it is a new end event, the provider id is mapped, and they answer.
   A call that was still active has failed exactly when the event or the reported status says so;
   otherwise the caller hung up.
   */
  lemma CleanedExactly(i: nat, s: Stores, r: Request, fate: Fate)
    ensures GatePlan(i, s, r, fate).answer.Cleaned? <==>
              && fate.recordReached && fate.recordAnswered && (r.provider, r.event) !in s.recorded
              && r.event in {"completed", "failed", "disconnected", "terminal"}
              && r.provider in s.mapping && fate.finalizeReached && fate.finalizeAnswered
    ensures GatePlan(i, s, r, fate).answer.Cleaned? && MappedCallsExist(s) ==>
              var s' := HandledStores(s, r, fate); var id := s.mapping[r.provider];
              && GatePlan(i, s, r, fate).answer == Cleaned(id)
              && id in s'.calls && s'.calls == s.calls[id := s'.calls[id]]
              && s'.sessions == s.sessions - {id} && s'.mapping == s.mapping - {r.provider}
              && s'.recorded == s.recorded + {(r.provider, r.event)}
              && (s.calls[id].endedAt.Some? ==> s'.calls[id] == s.calls[id])
              && (s.calls[id].endedAt.None? ==>
                    s'.calls[id] ==
                    if r.event == "failed" || r.callStatus in {"failed", "busy", "no-answer"} then
                      s.calls[id].(endedAt := Some(fate.at), endReason := Some("provider_failure"),
                                   status := "failed", connectionStatus := "failed_pre_connect")
                    else
                      s.calls[id].(endedAt := Some(fate.at), endReason := Some("caller_hangup"),
                                   status := "completed", connectionStatus := "connected"))
  {
    assert START_EVENTS !! END_EVENTS;
    if r.provider in s.mapping && MappedCallsExist(s) && s.calls[s.mapping[r.provider]].endedAt.None? {
      EndedRow(s.calls[s.mapping[r.provider]], r, fate.at);
    }
  }

  /** Any other answer leaves sessions and mappings alone; a 503 may still leave a row created or ended. */
  lemma OtherAnswersPlaceNothing(i: nat, s: Stores, r: Request, fate: Fate)
    requires MappedCallsExist(s) && !GatePlan(i, s, r, fate).answer.Started? && !GatePlan(i, s, r, fate).answer.Cleaned?
    ensures var s' := HandledStores(s, r, fate);
            && s'.sessions == s.sessions && s'.mapping == s.mapping
            && s'.recorded == (if fate.recordReached then s.recorded + {(r.provider, r.event)} else s.recorded)
            && (s'.calls != s.calls ==> GatePlan(i, s, r, fate).answer == Unavailable)
  {
    assert START_EVENTS !! END_EVENTS;
  }

  /** The answers that are not errors of a service. */
  lemma OtherAnswersExactly(i: nat, s: Stores, r: Request, fate: Fate)
    ensures var answer := GatePlan(i, s, r, fate).answer;
            var heard := fate.recordReached && fate.recordAnswered;
            var first := heard && (r.provider, r.event) !in s.recorded;
            && (answer == Duplicate <==> heard && !first)
            && (answer == Rejected <==>
                  first && r.event in {"connected", "start", "answered", "started"} && (!r.dialed || fate.route.None?))
            && (answer == Ignored <==>
                  && first && r.event !in {"connected", "start", "answered", "started"}
                  && (r.event in {"completed", "failed", "disconnected", "terminal"} ==> r.provider !in s.mapping))
            && answer != Lost
  {
  }

  class Router {
    var recorded: set<(string, string)>       // services/api: the unique index on call_jobs
    var calls: map<string, CallRow>           // services/api: the calls table
    var mapping: map<string, string>          // CallStore
    var sessions: map<string, Owner>          // session manager
    ghost var causes: map<string, string>
    ghost var registered: set<string>
    ghost var requests: seq<Request>
    ghost var sockets: seq<Socket>

    ghost function State(): World
      reads this
    {
      World(recorded, calls, causes, mapping, sessions, registered, requests, sockets)
    }

    ghost function Contents(): Stores
      reads this
    {
      Stores(recorded, calls, mapping, sessions)
    }

    constructor ()
      ensures State() == EMPTY
    {
      recorded, calls, mapping, sessions := {}, map[], map[], map[];
      causes, registered, requests, sockets := map[], {}, [], [];
    }

    /** A move that only the request itself sees. */
    ghost method Move(i: nat, m: Callbacks.Move)
      requires Enabled(State(), Advance(i, m)) && StoresAfter(State(), requests[i], m) == State()
      modifies this`requests
      ensures State() == Next(old(State()), Advance(i, m))
      ensures At(State(), i) && requests[i].(phase := old(requests[i]).phase, passed := old(requests[i]).passed) == old(requests[i])
      ensures requests[i].phase == PhaseAfter(old(State()), old(requests[i]), m)
    {
      requests := Next(State(), Advance(i, m)).requests;
    }

    method RecordEvent(ghost i: nat, provider: string, event: string, answered: bool) returns (duplicate: bool)
      requires At(State(), i) && requests[i].phase.Arrived? && !requests[i].passed && Key(requests[i]) == (provider, event)
      modifies this
      ensures State() == Next(old(State()), Advance(i, Record(answered)))
      ensures duplicate <==> (provider, event) in old(recorded)
      ensures Contents() == old(Contents()).(recorded := old(recorded) + {(provider, event)})
      ensures At(State(), i) && requests[i] == old(requests[i]).(
                phase := if !answered then Done(Unavailable) else if duplicate then Done(Duplicate) else Gated,
                passed := answered && !duplicate)
    {
      duplicate := (provider, event) in recorded;
      requests := Next(State(), Advance(i, Record(answered))).requests;
      recorded := recorded + {(provider, event)};
    }

    method CreateCall(ghost i: nat, callId: string, owner: Owner, provider: string, answered: bool)
      requires At(State(), i) && requests[i].phase == Routed(owner) && requests[i].provider == provider && callId !in calls
      modifies this
      ensures State() == Next(old(State()), Advance(i, CommitCreate(callId, answered)))
      ensures At(State(), i) && requests[i] == old(requests[i]).(phase := if answered then Created(callId, owner) else Done(Unavailable))
      ensures Contents() == old(Contents()).(calls := old(calls)[callId := NewCall(owner.tenantId, owner.agentId, Some(provider))])
    {
      ghost var r := requests[i];
      requests := Next(State(), Advance(i, CommitCreate(callId, answered))).requests;
      causes := causes[callId := r.event];
      calls := calls[callId := NewCall(owner.tenantId, owner.agentId, Some(provider))];
    }

    method RegisterCall(ghost i: nat, callId: string, owner: Owner, provider: string)
      requires At(State(), i) && requests[i].phase == Created(callId, owner) && requests[i].provider == provider
      modifies this
      ensures State() == Next(old(State()), Advance(i, Register))
      ensures At(State(), i) && requests[i].phase == Done(Started(callId))
      ensures Contents() == old(Contents()).(sessions := old(sessions)[callId := owner], mapping := old(mapping)[provider := callId])
    {
      requests := Next(State(), Advance(i, Register)).requests;
      registered := registered + {callId};
      sessions := sessions[callId := owner];
      mapping := mapping[provider := callId];
    }

    method FinalizeCall(ghost i: nat, callId: string, at: Time, reason: string, answered: bool)
      requires At(State(), i) && requests[i].phase == Ending(callId) && reason == EndReason(requests[i]) && callId in calls
      modifies this
      ensures State() == Next(old(State()), Advance(i, CommitFinalize(at, answered)))
      ensures At(State(), i) && requests[i] == old(requests[i]).(phase := if answered then Finalized(callId) else Done(Unavailable))
      ensures Contents() == old(Contents()).(calls := old(calls)[callId := FinalizeRow(old(calls)[callId], at, reason)])
    {
      requests := Next(State(), Advance(i, CommitFinalize(at, answered))).requests;
      calls := calls[callId := FinalizeRow(calls[callId], at, reason)];
    }

    method CleanUp(ghost i: nat, callId: string, provider: string)
      requires At(State(), i) && requests[i].phase == Finalized(callId) && requests[i].provider == provider
      modifies this
      ensures State() == Next(old(State()), Advance(i, Cleanup))
      ensures At(State(), i) && requests[i].phase == Done(Cleaned(callId))
      ensures Contents() == old(Contents()).(sessions := old(sessions) - {callId}, mapping := old(mapping) - {provider})
    {
      requests := Next(State(), Advance(i, Cleanup)).requests;
      if callId in sessions {
        sessions := sessions - {callId};
      } else {
        assert sessions - {callId} == sessions;
      }
      mapping := mapping - {provider};
    }

    /** Create the call, and register it only once that is answered. */
    method PlaceCall(ghost i: nat, provider: string, owner: Owner, fate: Fate) returns (answer: Answer)
      requires At(State(), i) && requests[i].phase == Routed(owner)
      requires requests[i].provider == provider && fate.freshId !in calls
      modifies this
      ensures State() == Run(old(State()), PlacePlan(i, fate).steps) && answer == PlacePlan(i, fate).answer
      ensures Contents() == PlacedStores(old(Contents()), provider, owner, fate)
      ensures At(State(), i) && requests[i].phase == Done(answer)
    {
      ghost var w := State();
      if !fate.createReached {
        Move(i, CreateFails);
        RunOneMore(w, [], Advance(i, CreateFails));
        return Unavailable;
      }
      CreateCall(i, fate.freshId, owner, provider, fate.createAnswered);
      ghost var steps := [Advance(i, CommitCreate(fate.freshId, fate.createAnswered))];
      RunOneMore(w, [], steps[0]);
      if !fate.createAnswered {
        return Unavailable;
      }
      RegisterCall(i, fate.freshId, owner, provider);
      RunOneMore(w, steps, Advance(i, Register));
      return Started(fate.freshId);
    }

    /** The branch for a start event that passed the gate. */
    method Start(ghost i: nat, provider: string, dialed: bool, fate: Fate) returns (answer: Answer)
      requires At(State(), i) && requests[i].phase.Gated? && requests[i].event in START_EVENTS
      requires requests[i].provider == provider && requests[i].dialed == dialed && fate.freshId !in calls
      modifies this
      ensures State() == Run(old(State()), StartPlan(i, dialed, fate).steps) && answer == StartPlan(i, dialed, fate).answer
      ensures Contents() == if dialed && fate.route.Some? then PlacedStores(old(Contents()), provider, fate.route.value, fate) else old(Contents())
      ensures At(State(), i) && requests[i].phase == Done(answer)
    {
      ghost var w := State();
      Move(i, Route(fate.route));
      RunOneMore(w, [], Advance(i, Route(fate.route)));
      if !dialed || fate.route.None? {
        return Rejected;
      }
      answer := PlaceCall(i, provider, fate.route.value, fate);
      RunAppend(w, [Advance(i, Route(fate.route))], PlacePlan(i, fate).steps);
    }

    /** Finalize, and only then clean up. */
    method EndCall(ghost i: nat, provider: string, callId: string, reason: string, fate: Fate) returns (answer: Answer)
      requires At(State(), i) && requests[i].phase == Ending(callId) && reason == EndReason(requests[i])
      requires requests[i].provider == provider && callId in calls
      modifies this
      ensures State() == Run(old(State()), EndPlan(i, callId, fate).steps) && answer == EndPlan(i, callId, fate).answer
      ensures Contents() == EndedStores(old(Contents()), provider, callId, reason, fate)
      ensures At(State(), i) && requests[i].phase == Done(answer)
    {
      ghost var w := State();
      if !fate.finalizeReached {
        Move(i, FinalizeFails);
        RunOneMore(w, [], Advance(i, FinalizeFails));
        return Unavailable;
      }
      FinalizeCall(i, callId, fate.at, reason, fate.finalizeAnswered);
      ghost var steps := [Advance(i, CommitFinalize(fate.at, fate.finalizeAnswered))];
      RunOneMore(w, [], steps[0]);
      if !fate.finalizeAnswered {
        return Unavailable;
      }
      CleanUp(i, callId, provider);
      RunOneMore(w, steps, Advance(i, Cleanup));
      return Cleaned(callId);
    }

    /** The branch for an end event that passed the gate. */
    method Finish(ghost i: nat, provider: string, event: string, callStatus: string, fate: Fate) returns (answer: Answer)
      requires At(State(), i) && requests[i].phase.Gated? && requests[i].event in END_EVENTS
      requires requests[i].provider == provider && requests[i].event == event && requests[i].callStatus == callStatus
      requires provider in mapping ==> mapping[provider] in calls
      modifies this
      ensures State() == Run(old(State()), FinishPlan(i, old(mapping), provider, fate).steps)
      ensures answer == FinishPlan(i, old(mapping), provider, fate).answer
      ensures Contents() == if provider !in old(mapping) then old(Contents())
                       else EndedStores(old(Contents()), provider, old(mapping)[provider], EndReason(old(requests[i])), fate)
      ensures At(State(), i) && requests[i].phase == Done(answer)
    {
      ghost var w := State();
      Move(i, Lookup);
      RunOneMore(w, [], Advance(i, Lookup));
      if provider !in mapping {
        return Ignored;
      }
      var failed := event == "failed" || callStatus in FAILURE_STATUSES;
      ghost var callId := mapping[provider];
      answer := EndCall(i, provider, mapping[provider], if failed then "provider_failure" else "caller_hangup", fate);
      RunAppend(w, [Advance(i, Lookup)], EndPlan(i, callId, fate).steps);
    }

    /** What an event that is not a duplicate does. */
    method Dispatch(ghost i: nat, provider: string, event: string, dialed: bool, callStatus: string, fate: Fate)
      returns (answer: Answer)
      requires MappedCallsExist(Contents()) && fate.freshId !in calls
      requires At(State(), i) && requests[i] == Request(provider, event, dialed, callStatus, Gated, true)
      modifies this
      ensures State() == Run(old(State()), DispatchPlan(i, old(mapping), old(requests[i]), fate).steps)
      ensures answer == DispatchPlan(i, old(mapping), old(requests[i]), fate).answer
      ensures Contents() == DispatchedStores(old(Contents()), old(requests[i]), fate)
      ensures At(State(), i) && requests[i].phase == Done(answer)
    {
      ghost var w := State();
      if event in START_EVENTS {
        answer := Start(i, provider, dialed, fate);
        assert event !in END_EVENTS;
      } else if event in END_EVENTS {
        answer := Finish(i, provider, event, callStatus, fate);
      } else {
        Move(i, Route(None));
        RunOneMore(w, [], Advance(i, Route(None)));
        return Ignored;
      }
    }

    /** The duplicate gate, and what lies behind it. */
    method Gate(ghost i: nat, provider: string, event: string, dialed: bool, callStatus: string, fate: Fate)
      returns (answer: Answer)
      requires MappedCallsExist(Contents()) && fate.freshId !in calls
      requires At(State(), i) && requests[i] == Request(provider, event, dialed, callStatus, Arrived, false)
      modifies this
      ensures State() == Run(old(State()), GatePlan(i, old(Contents()), old(requests[i]), fate).steps)
      ensures answer == GatePlan(i, old(Contents()), old(requests[i]), fate).answer
      ensures Contents() == HandledStores(old(Contents()), old(requests[i]), fate)
      ensures At(State(), i) && requests[i].phase == Done(answer)
    {
      ghost var w := State();
      ghost var r := requests[i];
      if !fate.recordReached {
        Move(i, RecordFails);
        RunOneMore(w, [], Advance(i, RecordFails));
        return Unavailable;
      }
      ghost var record := Advance(i, Record(fate.recordAnswered));
      RunOneMore(w, [], record);
      var duplicate := RecordEvent(i, provider, event, fate.recordAnswered);
      if !fate.recordAnswered {
        return Unavailable;
      }
      if duplicate {
        return Duplicate;
      }
      ghost var gated := requests[i];
      assert DispatchPlan(i, mapping, gated, fate) == DispatchPlan(i, mapping, r, fate);
      assert DispatchedStores(Contents(), gated, fate) == DispatchedStores(Contents(), r, fate);
      answer := Dispatch(i, provider, event, dialed, callStatus, fate);
      RunAppend(w, [record], DispatchPlan(i, old(mapping), r, fate).steps);
    }

    /**
     One webhook, handled without interruption: the steps of the protocol it takes and its answer
     are those of its plan, and the stores are what the services' answers make of them.
     */
    method Callback(provider: string, event: string, dialed: bool, callStatus: string, fate: Fate) returns (answer: Answer)
      requires Inv(State()) && fate.freshId !in calls
      modifies this
      ensures var r := Delivered(provider, event, dialed, callStatus); var i := |old(requests)|;
              && State() == Run(old(State()), [Receive(provider, event, dialed, callStatus)] + GatePlan(i, old(Contents()), r, fate).steps)
              && answer == GatePlan(i, old(Contents()), r, fate).answer
              && MappedCallsExist(old(Contents())) && Contents() == HandledStores(old(Contents()), r, fate)
      ensures Inv(State())
      ensures |requests| > |old(requests)| && requests[|old(requests)|].phase == Done(answer)
      ensures answer.Cleaned? && old(calls)[old(mapping)[provider]].endedAt.None? ==>
                var ended := calls[old(mapping)[provider]];
                && ended.endedAt == Some(fate.at)
                && if Lower(event) == "failed" || Lower(callStatus) in {"failed", "busy", "no-answer"} then
                     ended.endReason == Some("provider_failure") && ended.status == "failed"
                   else
                     ended.endReason == Some("caller_hangup") && ended.status == "completed" && ended.connectionStatus == "connected"
    {
      ghost var w := State();
      ghost var receive := Receive(provider, event, dialed, callStatus);
      RunOneMore(w, [], receive);
      assert MappedCallsExist(Contents()) by {
        assert forall p <- w.mapping :: CallOf(w, w.mapping[p], p);
      }
      var lowered, status := Lower(event), Lower(callStatus);
      ghost var r := Delivered(provider, event, dialed, callStatus);
      requests := requests + [Request(provider, lowered, dialed, status, Arrived, false)];
      answer := Gate(|old(requests)|, provider, lowered, dialed, status, fate);
      ghost var more := GatePlan(|old(requests)|, old(Contents()), r, fate).steps;
      RunAppend(w, [receive], more);
      RunKeepsInv(w, [receive] + more);
      CleanedExactly(|old(requests)|, old(Contents()), r, fate);
    }
  }
}
