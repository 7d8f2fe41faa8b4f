/**
 Exotel webhooks and voice WebSockets against three stores: the recorded events and call rows of
 services/api, the provider-to-call mapping, and the sessions. Every await in the callback
 handler is a point where other requests, lost responses and restarts come in between.
 */
module Callbacks {
  import opened Options
  import opened Calls

  const START_EVENTS: set<string> := {"connected", "start", "answered", "started"}
  const END_EVENTS: set<string> := {"completed", "failed", "disconnected", "terminal"}
  const FAILURE_STATUSES: set<string> := {"failed", "busy", "no-answer"}

  function LowerChar(c: char): char {
    if 'A' <= c <= 'Z' then (c as int + 32) as char else c
  }

  function Lower(s: string): string {
    seq(|s|, i requires 0 <= i < |s| => LowerChar(s[i]))
  }

  /** Lower maps the 26 upper-case letters to their lower-case ones, and nothing else. */
  lemma LowerIs(s: string, i: nat)
    requires i < |s|
    ensures |Lower(s)| == |s|
    ensures 'A' <= s[i] <= 'Z' ==> 'a' <= Lower(s)[i] <= 'z' && Lower(s)[i] as int - 'a' as int == s[i] as int - 'A' as int
    ensures !('A' <= s[i] <= 'Z') ==> Lower(s)[i] == s[i]
  {
  }

  datatype Owner = Owner(tenantId: string, agentId: string)

  datatype Answer = Duplicate | Started(callId: string) | Cleaned(callId: string) | Ignored | Rejected | Unavailable | Lost

  /** Where a webhook request stands, between two awaits. */
  datatype Phase =
    | Arrived
    | Gated                                    // record() said it is not a duplicate
    | Routed(owner: Owner)
    | Created(callId: string, owner: Owner)    // calls.create() returned
    | Ending(callId: string)                   // the mapping gave a call to finalize
    | Finalized(callId: string)                // calls.finalize() returned
    | Done(answer: Answer)

  /** `passed` remembers that the request got through the duplicate gate. */
  datatype Request = Request(provider: string, event: string, dialed: bool, callStatus: string, phase: Phase, passed: bool)

  datatype Socket = Socket(callId: string, open: bool)

  /** `causes` and `registered` are history: which event created a row, and which calls ever had a session. */
  datatype World = World(
    recorded: set<(string, string)>,
    calls: map<string, CallRow>,
    causes: map<string, string>,
    mapping: map<string, string>,
    sessions: map<string, Owner>,
    registered: set<string>,
    requests: seq<Request>,
    sockets: seq<Socket>)

  const EMPTY := World({}, map[], map[], map[], map[], {}, [], [])

  /** What one webhook request can do next. */
  datatype Move =
    | Record(answered: bool)
    | RecordFails
    | Route(route: Option<Owner>)
    | CommitCreate(callId: string, answered: bool)
    | CreateFails
    | Register
    | Lookup
    | CommitFinalize(at: Time, answered: bool)
    | FinalizeFails
    | Cleanup

  datatype Step =
    | Receive(provider: string, event: string, dialed: bool, callStatus: string)
    | Advance(i: nat, move: Move)
    | Connect(callId: string)
    | Hangup(j: nat)           // the call's pipeline ends and cleans up
    | AcceptFails(j: nat)      // accept() raised: nothing is cleaned up
    | Restart

  predicate At(w: World, i: nat) {
    i < |w.requests|
  }

  function To(w: World, i: nat, phase: Phase): World
    requires i < |w.requests|
  {
    w.(requests := w.requests[i := w.requests[i].(phase := phase)])
  }

  function Key(r: Request): (string, string) {
    (r.provider, r.event)
  }

  function EndReason(r: Request): string {
    if r.event == "failed" || r.callStatus in FAILURE_STATUSES then "provider_failure" else "caller_hangup"
  }

  function WithCall(w: World, callId: string, row: CallRow, cause: string): World {
    w.(calls := w.calls[callId := row], causes := w.causes[callId := cause])
  }

  /** No await between these two writes. */
  function WithSession(w: World, callId: string, owner: Owner, provider: string): World {
    w.(sessions := w.sessions[callId := owner],
       registered := w.registered + {callId},
       mapping := w.mapping[provider := callId])
  }

  function WithFinalized(w: World, callId: string, at: Time, reason: string): World
    requires callId in w.calls
  {
    w.(calls := w.calls[callId := FinalizeRow(w.calls[callId], at, reason)])
  }

  function WithoutSession(w: World, callId: string, provider: string): World {
    w.(sessions := w.sessions - {callId}, mapping := w.mapping - {provider})
  }

  function HungUp(w: World, j: nat): World
    requires j < |w.sockets|
  {
    w.(sessions := w.sessions - {w.sockets[j].callId}, sockets := w.sockets[j := w.sockets[j].(open := false)])
  }

  /** The process dies and comes back; the sessions and the mapping are in Redis. */
  function Restarted(w: World): World {
    w.(requests := seq(|w.requests|, i requires 0 <= i < |w.requests| =>
         if w.requests[i].phase.Done? then w.requests[i] else w.requests[i].(phase := Done(Lost))),
       sockets := seq(|w.sockets|, j requires 0 <= j < |w.sockets| => w.sockets[j].(open := false)))
  }

  predicate CanMove(w: World, r: Request, m: Move) {
    match m
    case Record(_) => r.phase.Arrived?
    case RecordFails => r.phase.Arrived?
    case Route(_) => r.phase.Gated? && r.event !in END_EVENTS
    case CommitCreate(callId, _) => r.phase.Routed? && callId !in w.calls
    case CreateFails => r.phase.Routed?
    case Register => r.phase.Created?
    case Lookup => r.phase.Gated? && r.event in END_EVENTS
    case CommitFinalize(_, _) => r.phase.Ending? && r.phase.callId in w.calls
    case FinalizeFails => r.phase.Ending?
    case Cleanup => r.phase.Finalized?
  }

  /** Does the move take the request through the duplicate gate? */
  predicate Passes(w: World, r: Request, m: Move) {
    m.Record? && Key(r) !in w.recorded && m.answered
  }

  function PhaseAfter(w: World, r: Request, m: Move): Phase
    requires CanMove(w, r, m)
  {
    match m
    case Record(answered) =>
      if !answered then Done(Unavailable) else if Key(r) in w.recorded then Done(Duplicate) else Gated
    case RecordFails => Done(Unavailable)
    case Route(route) =>
      if r.event !in START_EVENTS then Done(Ignored)
      else if !r.dialed || route.None? then Done(Rejected)
      else Routed(route.value)
    case CommitCreate(callId, answered) => if answered then Created(callId, r.phase.owner) else Done(Unavailable)
    case CreateFails => Done(Unavailable)
    case Register => Done(Started(r.phase.callId))
    case Lookup => if r.provider in w.mapping then Ending(w.mapping[r.provider]) else Done(Ignored)
    case CommitFinalize(_, answered) => if answered then Finalized(r.phase.callId) else Done(Unavailable)
    case FinalizeFails => Done(Unavailable)
    case Cleanup => Done(Cleaned(r.phase.callId))
  }

  /** The effect of a move on the stores. */
  function StoresAfter(w: World, r: Request, m: Move): World
    requires CanMove(w, r, m)
  {
    match m
    case Record(_) => w.(recorded := w.recorded + {Key(r)})
    case CommitCreate(callId, _) =>
      WithCall(w, callId, NewCall(r.phase.owner.tenantId, r.phase.owner.agentId, Some(r.provider)), r.event)
    case Register => WithSession(w, r.phase.callId, r.phase.owner, r.provider)
    case CommitFinalize(at, _) => WithFinalized(w, r.phase.callId, at, EndReason(r))
    case Cleanup => WithoutSession(w, r.phase.callId, r.provider)
    case _ => w
  }

  /** Is step st enabled? */
  predicate Enabled(w: World, st: Step) {
    match st
    case Receive(_, _, _, _) => true
    case Advance(i, m) => At(w, i) && CanMove(w, w.requests[i], m)
    case Connect(callId) => callId in w.sessions
    case Hangup(j) => j < |w.sockets| && w.sockets[j].open
    case AcceptFails(j) => j < |w.sockets| && w.sockets[j].open
    case Restart => true
  }

  function Taken(w: World, st: Step): World
    requires Enabled(w, st)
  {
    match st
    case Receive(provider, event, dialed, callStatus) =>
      w.(requests := w.requests + [Request(provider, Lower(event), dialed, Lower(callStatus), Arrived, false)])
    case Advance(i, m) =>
      var r := w.requests[i];
      StoresAfter(w, r, m).(requests :=
        w.requests[i := r.(phase := PhaseAfter(w, r, m), passed := r.passed || Passes(w, r, m))])
    case Connect(callId) => w.(sockets := w.sockets + [Socket(callId, true)])
    case Hangup(j) => HungUp(w, j)
    case AcceptFails(j) => w.(sockets := w.sockets[j := w.sockets[j].(open := false)])
    case Restart => Restarted(w)
  }

  /** Steps that are not enabled change nothing. */
  function Next(w: World, st: Step): World {
    if Enabled(w, st) then Taken(w, st) else w
  }

  function Run(w: World, steps: seq<Step>): World
    decreases steps
  {
    if steps == [] then w else Run(Next(w, steps[0]), steps[1..])
  }

  lemma RunOneMore(w: World, steps: seq<Step>, st: Step)
    ensures Run(w, steps + [st]) == Next(Run(w, steps), st)
  {
    RunAppend(w, steps, [st]);
    assert [st][1..] == [];
  }

  lemma {:induction false} RunAppend(w: World, steps: seq<Step>, more: seq<Step>)
    ensures Run(w, steps + more) == Run(Run(w, steps), more)
    decreases |steps|
  {
    if steps == [] {
      assert steps + more == more;
    } else {
      assert (steps + more)[1..] == steps[1..] + more;
      RunAppend(Next(w, steps[0]), steps[1..], more);
    }
  }

  // ----------------------------------------------------------- invariants

  ghost predicate CallOf(w: World, callId: string, provider: string) {
    callId in w.calls && w.calls[callId].providerCallId == Some(provider)
  }

  ghost predicate RequestOk(w: World, r: Request) {
    && (r.passed ==> Key(r) in w.recorded)
    && (r.passed || r.phase.Arrived? || (r.phase.Done? && r.phase.answer in {Duplicate, Unavailable, Lost}))
    && match r.phase
       case Arrived => !r.passed
       case Gated => NotYetCaused(w, r)
       case Routed(_) => r.event in START_EVENTS && NotYetCaused(w, r)
       case Created(c, owner) =>
         && CallOf(w, c, r.provider) && c !in w.registered
         && c in w.causes && w.causes[c] == r.event
         && w.calls[c].tenantId == owner.tenantId && w.calls[c].agentId == owner.agentId
       case Ending(c) => CallOf(w, c, r.provider) && c in w.registered
       case Finalized(c) => CallOf(w, c, r.provider) && c in w.registered
       case Done(_) => true
  }

  /** No row has been created by this very event. */
  ghost predicate NotYetCaused(w: World, r: Request) {
    forall c <- w.calls :: c in w.causes ==> !(w.calls[c].providerCallId == Some(r.provider) && w.causes[c] == r.event)
  }

  ghost predicate RequestsOk(w: World) {
    && (forall i :: 0 <= i < |w.requests| ==> RequestOk(w, w.requests[i]))
    && (forall i, j :: 0 <= i < j < |w.requests| && w.requests[i].passed && w.requests[j].passed ==>
          Key(w.requests[i]) != Key(w.requests[j]))
  }

  /** The row was created by a start event of its provider id that is on record. */
  ghost predicate CauseOk(w: World, c: string)
    requires c in w.calls
  {
    && c in w.causes && w.causes[c] in START_EVENTS
    && w.calls[c].providerCallId.Some?
    && (w.calls[c].providerCallId.value, w.causes[c]) in w.recorded
    && RowConsistent(w.calls[c])
  }

  /** No two rows of one provider id come from the same event. */
  ghost predicate DistinctCauses(w: World) {
    forall c <- w.calls, d <- w.calls ::
      w.calls[c].providerCallId == w.calls[d].providerCallId && c in w.causes && d in w.causes && w.causes[c] == w.causes[d] ==> c == d
  }

  ghost predicate CausesOk(w: World) {
    (forall c <- w.calls :: CauseOk(w, c)) && DistinctCauses(w) && w.causes.Keys == w.calls.Keys
  }

  ghost predicate StoresAgree(w: World) {
    && (forall c <- w.sessions ::
          && c in w.registered && c in w.calls
          && w.sessions[c] == Owner(w.calls[c].tenantId, w.calls[c].agentId))
    && (forall p <- w.mapping :: CallOf(w, w.mapping[p], p) && w.mapping[p] in w.registered)
    && w.registered <= w.calls.Keys
    && (forall j :: 0 <= j < |w.sockets| ==> w.sockets[j].callId in w.registered)
  }

  ghost predicate Inv(w: World) {
    RequestsOk(w) && CausesOk(w) && StoresAgree(w)
  }

  // -------------------------------------------- what every step keeps

  /** Nothing that a request relies on is taken back. */
  ghost predicate Grows(w: World, v: World) {
    && w.recorded <= v.recorded
    && w.registered <= v.registered
    && (forall c <- w.calls ::
          && c in v.calls
          && v.calls[c].providerCallId == w.calls[c].providerCallId
          && v.calls[c].tenantId == w.calls[c].tenantId
          && v.calls[c].agentId == w.calls[c].agentId)
    && (forall c <- w.causes :: c in v.causes && v.causes[c] == w.causes[c])
  }

  ghost predicate Undisturbed(v: World, r: Request) {
    && (r.phase.Created? ==> r.phase.callId !in v.registered)
    && (r.phase.Gated? || r.phase.Routed? ==> NotYetCaused(v, r))
  }

  lemma DataKeepsRequests(w: World, v: World)
    requires RequestsOk(w) && v.requests == w.requests && Grows(w, v)
    requires forall k :: 0 <= k < |w.requests| ==> Undisturbed(v, w.requests[k])
    ensures RequestsOk(v)
  {
    forall k | 0 <= k < |w.requests| ensures RequestOk(v, v.requests[k]) {
      assert RequestOk(w, w.requests[k]) && Undisturbed(v, w.requests[k]);
    }
  }

  /** Stores other than the call rows, seen from growing call rows. */
  lemma GrowthKeepsStores(w: World, v: World)
    requires StoresAgree(w) && Grows(w, v)
    requires v.sessions == w.sessions && v.mapping == w.mapping && v.sockets == w.sockets && v.registered == w.registered
    ensures StoresAgree(v)
  {
  }

  lemma SameRowsKeepCauses(w: World, v: World)
    requires CausesOk(w) && v.calls == w.calls && v.causes == w.causes && w.recorded <= v.recorded
    ensures CausesOk(v)
  {
    forall c <- v.calls ensures CauseOk(v, c) {
      assert CauseOk(w, c);
    }
  }

  lemma ToKeepsRequests(w: World, i: nat, phase: Phase)
    requires RequestsOk(w) && At(w, i) && RequestOk(w, w.requests[i].(phase := phase))
    ensures RequestsOk(To(w, i, phase))
  {
    var v := To(w, i, phase);
    forall k | 0 <= k < |v.requests| ensures RequestOk(v, v.requests[k]) {
      assert k != i ==> RequestOk(w, w.requests[k]);
    }
  }

  lemma ToKeepsInv(w: World, i: nat, phase: Phase)
    requires Inv(w) && At(w, i) && RequestOk(w, w.requests[i].(phase := phase))
    ensures Inv(To(w, i, phase))
  {
    ToKeepsRequests(w, i, phase);
  }

  lemma ToTwice(w: World, i: nat, a: Phase, b: Phase)
    requires At(w, i)
    ensures To(To(w, i, a), i, b) == To(w, i, b)
  {
  }

  lemma WithRecordedKeepsInv(w: World, key: (string, string))
    requires Inv(w)
    ensures Inv(w.(recorded := w.recorded + {key}))
  {
    var v := w.(recorded := w.recorded + {key});
    forall k | 0 <= k < |w.requests| ensures Undisturbed(v, w.requests[k]) {
      assert RequestOk(w, w.requests[k]);
    }
    DataKeepsRequests(w, v);
    SameRowsKeepCauses(w, v);
  }

  /** The one request that got its event recorded goes through the gate. */
  lemma PassingKeepsInv(u: World, i: nat)
    requires Inv(u) && At(u, i) && Key(u.requests[i]) in u.recorded && NotYetCaused(u, u.requests[i])
    requires forall k :: 0 <= k < |u.requests| && u.requests[k].passed ==> Key(u.requests[k]) != Key(u.requests[i])
    ensures Inv(u.(requests := u.requests[i := u.requests[i].(phase := Gated, passed := true)]))
  {
    var v := u.(requests := u.requests[i := u.requests[i].(phase := Gated, passed := true)]);
    forall k | 0 <= k < |v.requests| ensures RequestOk(v, v.requests[k]) {
      assert k != i ==> RequestOk(u, u.requests[k]);
    }
  }

  lemma UnrecordedKey(w: World, i: nat)
    requires Inv(w) && At(w, i) && Key(w.requests[i]) !in w.recorded
    ensures NotYetCaused(w, w.requests[i])
    ensures forall k :: 0 <= k < |w.requests| && w.requests[k].passed ==> Key(w.requests[k]) != Key(w.requests[i])
  {
    forall c <- w.calls ensures CauseOk(w, c) {
    }
    forall k | 0 <= k < |w.requests| ensures RequestOk(w, w.requests[k]) {
    }
  }

  lemma RecordKeepsInv(w: World, i: nat, answered: bool)
    requires Inv(w) && At(w, i) && w.requests[i].phase.Arrived?
    ensures Inv(Next(w, Advance(i, Record(answered))))
  {
    var r := w.requests[i];
    assert RequestOk(w, r);
    var u := w.(recorded := w.recorded + {Key(r)});
    WithRecordedKeepsInv(w, Key(r));
    if Passes(w, r, Record(answered)) {
      UnrecordedKey(w, i);
      PassingKeepsInv(u, i);
    } else {
      ToKeepsInv(u, i, PhaseAfter(w, r, Record(answered)));
      assert Next(w, Advance(i, Record(answered))) == To(u, i, PhaseAfter(w, r, Record(answered)));
    }
  }

  lemma CommitCreateKeepsInv(w: World, i: nat, callId: string, answered: bool)
    requires Inv(w) && Enabled(w, Advance(i, CommitCreate(callId, answered)))
    ensures Inv(Next(w, Advance(i, CommitCreate(callId, answered))))
  {
    var r := w.requests[i];
    assert RequestOk(w, r);
    var row := NewCall(r.phase.owner.tenantId, r.phase.owner.agentId, Some(r.provider));
    var u := To(w, i, Done(Unavailable));
    ToKeepsInv(w, i, Done(Unavailable));
    var v := WithCall(u, callId, row, r.event);
    WithCallKeepsInv(u, i, callId, row);
    if answered {
      ToKeepsInv(v, i, Created(callId, r.phase.owner));
    }
    var last := PhaseAfter(w, r, CommitCreate(callId, answered));
    ToTwice(WithCall(w, callId, row, r.event), i, Done(Unavailable), last);
    assert Next(w, Advance(i, CommitCreate(callId, answered))) == To(WithCall(w, callId, row, r.event), i, last);
  }

  /** A row enters the table on behalf of request i, the only one that got its event through the gate. */
  lemma WithCallKeepsInv(u: World, i: nat, callId: string, row: CallRow)
    requires Inv(u) && At(u, i) && u.requests[i].phase.Done? && u.requests[i].passed && callId !in u.calls
    requires u.requests[i].event in START_EVENTS && NotYetCaused(u, u.requests[i])
    requires row.providerCallId == Some(u.requests[i].provider) && RowConsistent(row)
    ensures Inv(WithCall(u, callId, row, u.requests[i].event))
  {
    var v := WithCall(u, callId, row, u.requests[i].event);
    assert RequestOk(u, u.requests[i]);
    assert Grows(u, v);
    WithCallKeepsRequests(u, i, callId, row);
    WithCallKeepsCauses(u, callId, row, u.requests[i]);
    GrowthKeepsStores(u, v);
  }

  lemma WithCallKeepsRequests(u: World, i: nat, callId: string, row: CallRow)
    requires RequestsOk(u) && At(u, i) && u.requests[i].phase.Done? && u.requests[i].passed && callId !in u.calls
    requires callId !in u.causes && row.providerCallId == Some(u.requests[i].provider)
    ensures RequestsOk(WithCall(u, callId, row, u.requests[i].event))
  {
    var r := u.requests[i];
    var v := WithCall(u, callId, row, r.event);
    forall k | 0 <= k < |u.requests| ensures Undisturbed(v, u.requests[k]) {
      assert RequestOk(u, u.requests[k]);
      if u.requests[k].passed && k != i {
        assert Key(u.requests[k]) != Key(r);
      }
    }
    assert Grows(u, v);
    DataKeepsRequests(u, v);
  }

  lemma WithCallKeepsCauses(u: World, callId: string, row: CallRow, r: Request)
    requires CausesOk(u) && callId !in u.calls && Key(r) in u.recorded && r.event in START_EVENTS && NotYetCaused(u, r)
    requires row.providerCallId == Some(r.provider) && RowConsistent(row)
    ensures CausesOk(WithCall(u, callId, row, r.event))
  {
    var v := WithCall(u, callId, row, r.event);
    forall c <- v.calls ensures CauseOk(v, c) {
      assert c != callId ==> CauseOk(u, c);
    }
  }

  lemma WithSessionKeepsInv(u: World, callId: string, owner: Owner, provider: string)
    requires Inv(u) && CallOf(u, callId, provider)
    requires owner == Owner(u.calls[callId].tenantId, u.calls[callId].agentId)
    requires forall k :: 0 <= k < |u.requests| && u.requests[k].phase.Created? ==> u.requests[k].phase.callId != callId
    ensures Inv(WithSession(u, callId, owner, provider))
  {
    var v := WithSession(u, callId, owner, provider);
    WithSessionKeepsRequests(u, callId, owner, provider);
    SameRowsKeepCauses(u, v);
    WithSessionKeepsStores(u, callId, owner, provider);
  }

  lemma WithSessionKeepsRequests(u: World, callId: string, owner: Owner, provider: string)
    requires RequestsOk(u)
    requires forall k :: 0 <= k < |u.requests| && u.requests[k].phase.Created? ==> u.requests[k].phase.callId != callId
    ensures RequestsOk(WithSession(u, callId, owner, provider))
  {
    var v := WithSession(u, callId, owner, provider);
    forall k | 0 <= k < |u.requests| ensures Undisturbed(v, u.requests[k]) {
      assert RequestOk(u, u.requests[k]);
    }
    DataKeepsRequests(u, v);
  }

  lemma WithSessionKeepsStores(u: World, callId: string, owner: Owner, provider: string)
    requires StoresAgree(u) && CallOf(u, callId, provider)
    requires owner == Owner(u.calls[callId].tenantId, u.calls[callId].agentId)
    ensures StoresAgree(WithSession(u, callId, owner, provider))
  {
  }

  lemma RegisterKeepsInv(w: World, i: nat)
    requires Inv(w) && At(w, i) && w.requests[i].phase.Created?
    ensures Inv(Next(w, Advance(i, Register)))
  {
    var r := w.requests[i];
    var c := r.phase;
    assert RequestOk(w, r);
    var u := To(w, i, Done(Started(c.callId)));
    ToKeepsInv(w, i, Done(Started(c.callId)));
    forall k | 0 <= k < |u.requests| && u.requests[k].phase.Created? ensures u.requests[k].phase.callId != c.callId {
      assert RequestOk(w, w.requests[k]);
      assert Key(w.requests[k]) != Key(r);
    }
    WithSessionKeepsInv(u, c.callId, c.owner, r.provider);
  }

  lemma FinalizeKeepsInv(w: World, callId: string, at: Time, reason: string)
    requires Inv(w) && callId in w.calls
    ensures Inv(WithFinalized(w, callId, at, reason))
  {
    FinalizeKeepsRequests(w, callId, at, reason);
    FinalizeKeepsCauses(w, callId, at, reason);
    assert Grows(w, WithFinalized(w, callId, at, reason));
    GrowthKeepsStores(w, WithFinalized(w, callId, at, reason));
  }

  lemma FinalizeKeepsRequests(w: World, callId: string, at: Time, reason: string)
    requires RequestsOk(w) && callId in w.calls
    ensures RequestsOk(WithFinalized(w, callId, at, reason))
  {
    var v := WithFinalized(w, callId, at, reason);
    forall k | 0 <= k < |w.requests| ensures Undisturbed(v, w.requests[k]) {
      assert RequestOk(w, w.requests[k]);
    }
    assert Grows(w, v);
    DataKeepsRequests(w, v);
  }

  lemma FinalizeKeepsCauses(w: World, callId: string, at: Time, reason: string)
    requires CausesOk(w) && callId in w.calls
    ensures CausesOk(WithFinalized(w, callId, at, reason))
  {
    var v := WithFinalized(w, callId, at, reason);
    FinalizeKeepsConsistent(w.calls[callId], at, reason);
    forall c <- v.calls ensures CauseOk(v, c) {
      assert CauseOk(w, c);
    }
  }

  lemma RestartKeepsInv(w: World)
    requires Inv(w)
    ensures Inv(Restarted(w))
  {
    var v := Restarted(w);
    forall k | 0 <= k < |v.requests| ensures RequestOk(v, v.requests[k]) {
      assert RequestOk(w, w.requests[k]);
    }
    forall j, k | 0 <= j < k < |v.requests| && v.requests[j].passed && v.requests[k].passed
      ensures Key(v.requests[j]) != Key(v.requests[k])
    {
      assert Key(w.requests[j]) != Key(w.requests[k]);
    }
  }

  lemma ReceiveKeepsInv(w: World, r: Request)
    requires Inv(w) && r.phase == Arrived && !r.passed
    ensures Inv(w.(requests := w.requests + [r]))
  {
    var v := w.(requests := w.requests + [r]);
    forall k | 0 <= k < |v.requests| ensures RequestOk(v, v.requests[k]) {
      assert k < |w.requests| ==> RequestOk(w, w.requests[k]);
    }
  }

  /** Sockets come and go, and take sessions with them. */
  lemma SocketsKeepInv(w: World, sessions: map<string, Owner>, sockets: seq<Socket>)
    requires Inv(w) && (forall c <- sessions :: c in w.sessions && sessions[c] == w.sessions[c])
    requires forall j :: 0 <= j < |sockets| ==> sockets[j].callId in w.registered
    ensures Inv(w.(sessions := sessions, sockets := sockets))
  {
    var v := w.(sessions := sessions, sockets := sockets);
    forall k | 0 <= k < |v.requests| ensures RequestOk(v, v.requests[k]) {
      assert RequestOk(w, w.requests[k]);
    }
    SameRowsKeepCauses(w, v);
  }

  lemma WithoutSessionKeepsInv(w: World, callId: string, provider: string)
    requires Inv(w)
    ensures Inv(WithoutSession(w, callId, provider))
  {
    var v := WithoutSession(w, callId, provider);
    WithoutSessionKeepsRequests(w, callId, provider);
    SameRowsKeepCauses(w, v);
  }

  lemma WithoutSessionKeepsRequests(w: World, callId: string, provider: string)
    requires RequestsOk(w)
    ensures RequestsOk(WithoutSession(w, callId, provider))
  {
    var v := WithoutSession(w, callId, provider);
    forall k | 0 <= k < |w.requests| ensures Undisturbed(v, w.requests[k]) {
      assert RequestOk(w, w.requests[k]);
    }
    DataKeepsRequests(w, v);
  }

  /** Moves that leave the stores alone. */
  lemma QuietMoveKeepsInv(w: World, i: nat, m: Move)
    requires Inv(w) && Enabled(w, Advance(i, m))
    requires m.RecordFails? || m.Route? || m.CreateFails? || m.Lookup? || m.FinalizeFails?
    ensures Inv(Next(w, Advance(i, m)))
  {
    var r := w.requests[i];
    assert RequestOk(w, r);
    ToKeepsInv(w, i, PhaseAfter(w, r, m));
    assert Next(w, Advance(i, m)) == To(w, i, PhaseAfter(w, r, m));
  }

  lemma CommitFinalizeKeepsInv(w: World, i: nat, at: Time, answered: bool)
    requires Inv(w) && Enabled(w, Advance(i, CommitFinalize(at, answered)))
    ensures Inv(Next(w, Advance(i, CommitFinalize(at, answered))))
  {
    var r := w.requests[i];
    assert RequestOk(w, r);
    var v := WithFinalized(w, r.phase.callId, at, EndReason(r));
    FinalizeKeepsInv(w, r.phase.callId, at, EndReason(r));
    ToKeepsInv(v, i, PhaseAfter(w, r, CommitFinalize(at, answered)));
  }

  lemma CleanupKeepsInv(w: World, i: nat)
    requires Inv(w) && Enabled(w, Advance(i, Cleanup))
    ensures Inv(Next(w, Advance(i, Cleanup)))
  {
    var r := w.requests[i];
    assert RequestOk(w, r);
    ToKeepsInv(w, i, Done(Cleaned(r.phase.callId)));
    WithoutSessionKeepsInv(To(w, i, Done(Cleaned(r.phase.callId))), r.phase.callId, r.provider);
  }

  lemma AdvanceKeepsInv(w: World, i: nat, m: Move)
    requires Inv(w) && Enabled(w, Advance(i, m))
    ensures Inv(Next(w, Advance(i, m)))
  {
    match m
    case Record(answered) => RecordKeepsInv(w, i, answered);
    case CommitCreate(callId, answered) => CommitCreateKeepsInv(w, i, callId, answered);
    case Register => RegisterKeepsInv(w, i);
    case CommitFinalize(at, answered) => CommitFinalizeKeepsInv(w, i, at, answered);
    case Cleanup => CleanupKeepsInv(w, i);
    case _ => QuietMoveKeepsInv(w, i, m);
  }

  lemma SocketStepKeepsInv(w: World, st: Step)
    requires Inv(w) && Enabled(w, st) && (st.Connect? || st.Hangup? || st.AcceptFails?)
    ensures Inv(Next(w, st))
  {
    var v := Taken(w, st);
    SocketsKeepInv(w, v.sessions, v.sockets);
    assert v == w.(sessions := v.sessions, sockets := v.sockets);
  }

  lemma NextKeepsInv(w: World, st: Step)
    requires Inv(w)
    ensures Inv(Next(w, st))
  {
    if Enabled(w, st) {
      match st
      case Advance(i, m) => AdvanceKeepsInv(w, i, m);
      case Restart => RestartKeepsInv(w);
      case Receive(provider, event, dialed, callStatus) =>
        ReceiveKeepsInv(w, Request(provider, Lower(event), dialed, Lower(callStatus), Arrived, false));
      case _ => SocketStepKeepsInv(w, st);
    }
  }

  lemma {:induction false} RunKeepsInv(w: World, steps: seq<Step>)
    requires Inv(w)
    ensures Inv(Run(w, steps))
    decreases |steps|
  {
    if steps != [] {
      NextKeepsInv(w, steps[0]);
      RunKeepsInv(Next(w, steps[0]), steps[1..]);
    }
  }

  // --------------------------------------------------------- main results

  lemma {:induction false} InjectionSize(ids: set<string>, tag: map<string, string>, tags: set<string>)
    requires forall c <- ids :: c in tag && tag[c] in tags
    requires forall c <- ids, d <- ids :: tag[c] == tag[d] ==> c == d
    ensures |ids| <= |tags|
    decreases |ids|
  {
    if ids != {} {
      var c :| c in ids;
      InjectionSize(ids - {c}, tag, tags - {tag[c]});
    }
  }

  /**
   In every reachable state: of all webhooks with one provider id and one lower-cased event, at
   most one ever got through the duplicate gate; a provider id has at most four calls; every live
   session has a call row with the same tenant and agent; every mapping leads to a row that
   carries its provider id; and every row's status agrees with how it ended.
   */
  lemma ReachableStatesAgree(steps: seq<Step>)
    ensures var w := Run(EMPTY, steps);
            && (forall i, j | 0 <= i < |w.requests| && 0 <= j < |w.requests| && w.requests[i].passed && w.requests[j].passed ::
                  Key(w.requests[i]) == Key(w.requests[j]) ==> i == j)
            && (forall provider: string :: |set c <- w.calls | w.calls[c].providerCallId == Some(provider)| <= 4)
            && (forall c <- w.sessions :: c in w.calls && w.sessions[c] == Owner(w.calls[c].tenantId, w.calls[c].agentId))
            && (forall p <- w.mapping :: CallOf(w, w.mapping[p], p))
            && (forall c <- w.calls :: RowConsistent(w.calls[c]))
  {
    RunKeepsInv(EMPTY, steps);
    var w := Run(EMPTY, steps);
    forall provider: string ensures |set c <- w.calls | w.calls[c].providerCallId == Some(provider)| <= 4 {
      CallsPerProvider(w, provider);
    }
    forall c <- w.calls ensures RowConsistent(w.calls[c]) {
      assert CauseOk(w, c);
    }
  }

  lemma CallsPerProvider(w: World, provider: string)
    requires Inv(w)
    ensures |set c <- w.calls | w.calls[c].providerCallId == Some(provider)| <= 4
  {
    var ids := set c <- w.calls | w.calls[c].providerCallId == Some(provider);
    forall c <- ids ensures c in w.causes && w.causes[c] in START_EVENTS {
      assert CauseOk(w, c);
    }
    InjectionSize(ids, w.causes, START_EVENTS);
    assert |START_EVENTS| == 4;
  }

  /** Sockets and restarts: what they take away, and that they leave call rows, mappings and recorded events alone. */
  lemma SocketsAndRestarts(w: World, st: Step)
    requires st.Connect? || st.Hangup? || st.AcceptFails? || st.Restart?
    ensures var v := Next(w, st);
            && v.calls == w.calls && v.mapping == w.mapping && v.recorded == w.recorded
            && (st.Connect? ==> v.sessions == w.sessions && (v != w <==> st.callId in w.sessions))
            && (st.Hangup? && st.j < |w.sockets| && w.sockets[st.j].open ==>
                  v.sessions == w.sessions - {w.sockets[st.j].callId} && !v.sockets[st.j].open)
            && (st.Connect? && st.callId in w.sessions ==> v.sockets == w.sockets + [Socket(st.callId, true)])
            && (st.AcceptFails? && st.j < |w.sockets| ==> v.sockets == w.sockets[st.j := Socket(w.sockets[st.j].callId, false)])
            && (st.AcceptFails? || st.Restart? ==> v.sessions == w.sessions)
            && (st.Restart? ==> (forall s <- v.sockets :: !s.open) && (forall r <- v.requests :: r.phase.Done?))
  {
    if st.Connect? && st.callId in w.sessions {
      assert |Next(w, st).sockets| == |w.sockets| + 1;
    }
  }

  lemma SessionStep(w: World, st: Step, callId: string)
    requires RequestsOk(w) && callId in w.registered && callId !in w.sessions
    ensures callId in Next(w, st).registered && callId !in Next(w, st).sessions
  {
    if Enabled(w, st) && st.Advance? {
      assert RequestOk(w, w.requests[st.i]);
    }
  }

  lemma {:induction false} RemovedSessionsStayRemoved(w: World, steps: seq<Step>, callId: string)
    requires Inv(w) && callId in w.registered && callId !in w.sessions
    ensures callId in Run(w, steps).registered && callId !in Run(w, steps).sessions
    decreases |steps|
  {
    if steps != [] {
      NextKeepsInv(w, steps[0]);
      SessionStep(w, steps[0], callId);
      RemovedSessionsStayRemoved(Next(w, steps[0]), steps[1..], callId);
    }
  }

  lemma {:induction false} FirstOutcomeWins(w: World, steps: seq<Step>, callId: string)
    requires callId in w.calls && w.calls[callId].endedAt.Some?
    ensures callId in Run(w, steps).calls && Run(w, steps).calls[callId] == w.calls[callId]
    decreases |steps|
  {
    if steps != [] {
      FirstOutcomeWins(Next(w, steps[0]), steps[1..], callId);
    }
  }

  // ------------------------------------------------- what is not promised

  /** How one request can change in one step: its key and a finished answer stay, */
  lemma RequestKept(w: World, st: Step, k: nat)
    requires At(w, k)
    ensures At(Next(w, st), k) && Key(Next(w, st).requests[k]) == Key(w.requests[k])
    ensures w.requests[k].phase.Done? ==> Next(w, st).requests[k] == w.requests[k]
  {
  }

  /** the gate lets it through only while its event is not on record, */
  lemma RequestPasses(w: World, st: Step, k: nat)
    requires At(w, k)
    ensures At(Next(w, st), k)
    ensures Next(w, st).requests[k].passed ==> w.requests[k].passed || Key(w.requests[k]) !in w.recorded
  {
  }

  lemma NewRequestStep(w: World, st: Step, k: nat)
    requires !At(w, k) && At(Next(w, st), k)
    ensures Next(w, st).requests[k].phase.Arrived? && !Next(w, st).requests[k].passed
  {
  }

  /** The requests for one event that ever got through the gate. */
  ghost function Passed(w: World, key: (string, string)): set<nat> {
    set i: nat | i < |w.requests| && w.requests[i].passed && Key(w.requests[i]) == key
  }

  /** The event is on record and its handler, if any, is over. */
  ghost predicate Spent(w: World, key: (string, string)) {
    key in w.recorded && forall i <- Passed(w, key) :: w.requests[i].phase.Done?
  }

  lemma SpentStep(w: World, st: Step, key: (string, string))
    requires Spent(w, key)
    ensures Spent(Next(w, st), key) && Passed(Next(w, st), key) <= Passed(w, key)
  {
    var v := Next(w, st);
    forall i <- Passed(v, key) ensures i in Passed(w, key) && v.requests[i].phase.Done? {
      if At(w, i) {
        RequestKept(w, st, i);
        RequestPasses(w, st, i);
      } else {
        NewRequestStep(w, st, i);
      }
    }
  }

  /**
   At most once, not exactly once. When a recorded event's handler is over (its create or
   finalize failed with 503, or the process died), no later delivery of that event under any
   capitalisation gets through the gate: it can have no effect any more.
   */
  lemma {:induction false} RecordedEventIsSpent(w: World, steps: seq<Step>, key: (string, string))
    requires Spent(w, key)
    ensures Spent(Run(w, steps), key) && Passed(Run(w, steps), key) <= Passed(w, key)
    decreases |steps|
  {
    if steps != [] {
      SpentStep(w, steps[0], key);
      RecordedEventIsSpent(Next(w, steps[0]), steps[1..], key);
    }
  }
}
