/** Call rows as routers/internal.py creates and finalizes them. */
module Calls {
  import opened Options

  type Time = int

  datatype CallRow = CallRow(
    tenantId: string,
    agentId: string,
    providerCallId: Option<string>,
    status: string,
    connectionStatus: string,
    endedAt: Option<Time>,
    endReason: Option<string>)

  /** What each end_reason means for (status, connection_status). */
  const END_REASONS: map<string, (string, string)> :=
    map["caller_hangup" := ("completed", "connected"),
        "agent_finished" := ("completed", "connected"),
        "no_answer" := ("no_answer", "attempted"),
        "voicemail" := ("voicemail", "attempted"),
        "invalid_number" := ("failed", "failed_pre_connect"),
        "network_error" := ("failed", "failed_pre_connect"),
        "provider_failure" := ("failed", "failed_pre_connect"),
        "cancelled" := ("cancelled", "not_attempted"),
        "simulation_complete" := ("completed", "connected"),
        "simulation_cancelled" := ("cancelled", "not_attempted"),
        "simulation_no_answer" := ("no_answer", "attempted")]

  function Outcome(reason: string): (string, string) {
    if reason in END_REASONS then END_REASONS[reason] else ("failed", "failed_pre_connect")
  }

  /** The outcome of every reason; one that is not known counts as a failure to connect. */
  lemma OutcomeTable(reason: string)
    ensures Outcome(reason) ==
            if reason in {"caller_hangup", "agent_finished", "simulation_complete"} then ("completed", "connected")
            else if reason in {"no_answer", "simulation_no_answer"} then ("no_answer", "attempted")
            else if reason == "voicemail" then ("voicemail", "attempted")
            else if reason in {"cancelled", "simulation_cancelled"} then ("cancelled", "not_attempted")
            else ("failed", "failed_pre_connect")
  {
  }

  function NewCall(tenantId: string, agentId: string, providerCallId: Option<string>): CallRow {
    CallRow(tenantId, agentId, providerCallId, "active", "connected", None, None)
  }

  /** The first outcome wins: a row that has ended is returned as it is. */
  function FinalizeRow(r: CallRow, at: Time, reason: string): CallRow {
    if r.endedAt.Some? then r
    else r.(endedAt := Some(at), endReason := Some(reason), status := Outcome(reason).0, connectionStatus := Outcome(reason).1)
  }

  /** A row is active until it ends, and then says what its end_reason means. */
  ghost predicate RowConsistent(r: CallRow) {
    && (r.endedAt.Some? <==> r.endReason.Some?)
    && (r.endedAt.None? <==> r.status == "active")
    && (r.endReason.Some? ==> (r.status, r.connectionStatus) == Outcome(r.endReason.value))
  }

  lemma FinalizeKeepsConsistent(r: CallRow, at: Time, reason: string)
    requires RowConsistent(r)
    ensures RowConsistent(FinalizeRow(r, at, reason))
    ensures r.endedAt.None? ==>
              FinalizeRow(r, at, reason) ==
              r.(endedAt := Some(at), endReason := Some(reason), status := Outcome(reason).0, connectionStatus := Outcome(reason).1)
    ensures r.endedAt.Some? ==> FinalizeRow(r, at, reason) == r
  {
  }

  class CallTable {
    var calls: map<string, CallRow>

    constructor ()
      ensures calls == map[]
    {
      calls := map[];
    }

    method CreateCall(id: string, tenantId: string, agentId: string, providerCallId: Option<string>) returns (r: Reply<CallRow>)
      modifies this
      ensures id in old(calls) ==> r == Conflict && calls == old(calls)
      ensures id !in old(calls) ==>
                && r == Answer(CallRow(tenantId, agentId, providerCallId, "active", "connected", None, None))
                && calls == old(calls)[id := r.value]
    {
      if id in calls {
        return Conflict;
      }
      calls := calls[id := NewCall(tenantId, agentId, providerCallId)];
      r := Answer(calls[id]);
    }

    method FinalizeCall(id: string, at: Time, reason: string) returns (r: Reply<CallRow>)
      modifies this
      ensures id !in old(calls) ==> r == NotFound && calls == old(calls)
      ensures id in old(calls) ==>
                && calls == old(calls)[id := FinalizeRow(old(calls)[id], at, reason)]
                && r == Answer(calls[id])
    {
      if id !in calls {
        return NotFound;
      }
      var call := calls[id];
      if call.endedAt.Some? {
        assert calls == calls[id := call];
        return Answer(call);
      }
      var (status, connection) := if reason in END_REASONS then END_REASONS[reason] else ("failed", "failed_pre_connect");
      calls := calls[id := call.(endedAt := Some(at), endReason := Some(reason), status := status, connectionStatus := connection)];
      r := Answer(calls[id]);
    }
  }
}
