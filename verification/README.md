# A verified model of the StayKaro calling services

This Dafny project models the stateful core of the repository and proves what it promises, for
every input, every interleaving and every run. `dafny verify dfyconfig.toml` checks all of it.

| file | what it models |
|---|---|
| `job_rows.dfy` | one `call_jobs` row: the guarded updates, backoff, error truncation |
| `job_lifecycle.dfy` | the life of a row when each handler is one atomic step |
| `job_protocol.dfy` | one job shared by any number of workers, with the read and the UPDATE of `complete_event` and `fail_event` as separate steps, lost responses, stalls, crashes and the reaper |
| `job_queue.dfy` | the whole table: many jobs, one clock, the unique index |
| `job_api.dfy` | the handlers of `routers/jobs.py`, updating the table in place |
| `worker.dfy` | `process_one` and the poll |
| `worker_loop.dfy` | the worker's main loop, cycle by cycle |
| `loop_resolution.dfy` | the loop itself resolves every job |
| `resolution.dfy` | every job is resolved within a bounded number of rounds; the worker obeys the protocol |
| `segmentation.dfy` | `STTProcessor`: caller audio cut into turns |
| `metrics.dfy` | the rolling metrics window, percentiles and alerts |
| `sessions.dfy` | the gateway's session manager: memory in front of Redis |
| `drain.dfy` | connection admission, the active-call counter, the shutdown wait loop |
| `calls.dfy` | call rows: creation and finalization |
| `callbacks.dfy` | webhooks and WebSockets interleaving over recorded events, call rows, mappings and sessions |
| `call_endings.dfy` | exactly which calls can still be finalized, and which sessions still removed |
| `stranded_runs.dfy` | runs from the empty system that leave a call behind |
| `exotel_router.dfy` | the webhook handler itself, shown to be a run of `callbacks.dfy` |

## Where the code and its own documentation disagree

- `fail_event` documents that a job that has used its attempts always lands in 'failed'
  (services/api/src/routers/jobs.py:346-350). It decides from the row it read and its UPDATE checks
  only the status again, so a stalled report can send an exhausted job back to 'retrying'. The exact
  account is `JobProtocol.AttemptsBounded`: every such overrun buys exactly one extra attempt, there
  are at most max_attempts - 1 of them, and attempts exceed max_attempts exactly when there are two
  overruns, or one that has been claimed again. `JobProtocol.AttemptBoundReached` reaches
  2 * max_attempts - 1 for every budget. With reports on time (`JobProtocol.LeaseSafety`) there are none.
- A comment says that after a failed `finalize()` the end event can be retried
  (services/voice-gateway/exotel_routes.py:289-290). The event was recorded first, so every
  redelivery is answered "duplicate": `StrandedRuns.FailedFinalizeIsNotRetried` is the run, for every
  start and end event. `CallEndings.CanEndExactly` says when an active call can still be finalized:
  exactly when a request is about to do it, or when the call is mapped (or its start event is about
  to map it) and some end event of its provider id is unrecorded or through the gate but unhandled.
  After one failure another end event name can still do it; after all four have failed nothing can
  (`StrandedRuns.AllFailuresAreFinal`). Nor can anything finalize a row whose creation was committed
  but not answered (`StrandedRuns.LostCreateStrands`).
- The drain loop logs that no active calls remain when its counter is zero
  (services/voice-gateway/src/main.py:102-103). A connection still inside `accept()` is not counted and
  starts afterwards: `Drain.IdleIsNotDrained` is a run, and `Drain.NoMoreStarts` says exactly when it
  is excluded.
- The worker's loop says that a lost RPUSH does not lose a job (services/worker/src/main.py:222-224). A
  cycle with a wake-up skips the poll (services/worker/src/main.py:219), so while Redis keeps handing
  out other ids the job keeps its row: `WorkerLoop.WakeUpsStarve`. `WorkerLoop.KeptExactly` says when a
  job is left alone, `WorkerLoop.PollServes` when a poll claims it.
- Two start events with different names for one provider id create two calls, and the second takes the
  mapping over (`StrandedRuns.TwoStartsStrandFirst`). The first can never be finalized, exactly when no
  end event had already looked it up: `CallEndings.SecondStartOrphansFirst`. Sockets do not finalize
  rows and make no difference to that; they do remove sessions.
- Cleanup after an end event deletes the provider's mapping (services/voice-gateway/exotel_routes.py:291)
  without looking whether it still holds the call it finalized. When a second start came in between,
  the second call is lost: `StrandedRuns.LateCleanupStrandsSecond` is a run, and
  `CallEndings.CleanupStrands` gives the exact condition for a call, `CallEndings.CleanupSparesOthers`
  for all of them.

## Reading the model

Time is an integer number of microseconds in the job queue and unconstrained elsewhere; all services
read one clock. A single-statement UPDATE is atomic and the unique index holds. Runs are sequences of
steps, and a step that is not enabled changes nothing, so "for all sequences" means "in every run".
The history of a state (claims, integration runs, causes of call rows) is kept only to state properties.
A uuid drawn for a new row is one that is not in use. The energy test of an audio frame is an arbitrary
predicate that holds of the empty frame. Percentiles and error rates use exact rationals.

## Model

| member | source | states |
|---|---|---|
| JobRows.BackoffShape | services/api/src/routers/jobs.py:101-107 | the delay never shrinks, doubles from 5 s, and is the 300 s cap exactly from the seventh attempt on |
| JobRows.TruncateErrorBounds | services/api/src/routers/jobs.py:91-113 | a stored error is at most 2014 characters, keeps the first 2000, and truncating again changes nothing |
| JobRows.PlanFailOk | services/api/src/routers/jobs.py:365-377 | a failure is retried exactly when asked for and attempts remain in the row that was read; the schedule is at most 300 s ahead |
| JobRows.FailExactly | services/api/src/routers/jobs.py:352-394 | what a failure writes: retried after 5, 10, 20, 40, 80, 160 s for the first six attempts and 300 s from the seventh, or failed; the text cut at 2000 characters |
| JobRows.ReapResolves | services/api/src/routers/jobs.py:428-459 | a reaped job is claimable at once if attempts remain and failed if not, is no longer stale, and keeps an earlier error |
| JobRows.UpdatesKeepRowOk | services/api/src/routers/jobs.py:258-459 | every guarded update keeps processed_at, available_at, updated_at and last_error consistent with the status |
| JobLifecycle.ServeStep | services/api/src/routers/jobs.py:258-467 | with atomic handlers a request that changes a row changes its status and lowers its rank; a patient one lowers it by exactly one; terminal rows never change |
| JobLifecycle.StatusChangesPayRank | services/api/src/routers/jobs.py:258-467 | over any run, status changes plus the remaining rank never exceed the initial rank, with equality for patient runs |
| JobLifecycle.StatusChangesBounded | services/api/src/models.py:415-420 | a job changes status at most 2 * max_attempts times, and exactly that often when it exhausts its attempts |
| JobLifecycle.BackoffSumClosedForm | services/api/src/routers/jobs.py:101-107 | the first k delays sum to 5 * (2^k - 1) up to six and grow by 300 s each beyond |
| JobLifecycle.TotalDelayWithinRoom | services/api/src/routers/jobs.py:352-394 | from any budgeted row, all delays still to be written to available_at fit in the backoff of the attempts still to come |
| JobLifecycle.TotalDelayExact | services/api/src/routers/jobs.py:352-394 | a run of claims and retried failures writes exactly the backoff of the attempts it uses up |
| JobLifecycle.ExhaustedDelay | services/api/src/routers/jobs.py:101-107 | a job that such a run has failed has been delayed by exactly 5 * (2^(n-1) - 1) s in n attempts up to seven, 75 s by default, and 300 s for each beyond |
| JobLifecycle.TotalDelayBounded | services/api/src/routers/jobs.py:125-125 | a job accumulates at most 75 s of backoff at the default budget and 4215 s at the maximum |
| JobProtocol.NextKeepsInv | services/api/src/routers/jobs.py:258-467 | every step of every worker, at every point between read and update, keeps the job's invariants |
| JobProtocol.ClaimsAreNumbered | services/api/src/routers/jobs.py:269-292 | over any interleaving the claims of a job are answered 1, 2, 3, ... without gap or repeat |
| JobProtocol.NoPrematureAck | services/worker/src/main.py:81-135 | a completed job had a successful integration run, and integration runs never outnumber attempts |
| JobProtocol.OverrunIsStale | services/api/src/routers/jobs.py:352-394 | a report landing on an exhausted job fails it, as fail_event documents, if and only if the row it read was exhausted too; otherwise the job is retried from a stale read |
| JobProtocol.OverrunsBounded | services/api/src/routers/jobs.py:352-394 | at most max_attempts - 1 reports of a job can ever overrun |
| JobProtocol.AttemptsBounded | services/api/src/routers/jobs.py:269-292 | attempts never exceed max_attempts plus the overruns, hence 2 * max_attempts - 1; the exact attempts once there is an overrun; exactly when max_attempts is exceeded |
| JobProtocol.AttemptBoundReached | services/api/src/routers/jobs.py:352-394 | for every budget a run claims the job 2 * max_attempts - 1 times |
| JobProtocol.TerminalForever | services/api/src/routers/jobs.py:307-392 | once completed or failed, no later step of any kind changes the row |
| JobProtocol.ReachableRowOk | services/api/src/routers/jobs.py:307-459 | in every reachable state processed_at is set exactly in terminal states, errors are bounded and present after a failure, available_at is at most 300 s ahead |
| JobProtocol.HandedBackBetweenClaims | services/api/src/routers/jobs.py:269-292 | a job being processed is claimed again only after a retrying failure or a reap of it |
| JobProtocol.LeaseSafety | services/api/src/routers/jobs.py:93-96 | if reads and updates of reports land within 120 s of their claim, a leased pass owns the row exclusively under its own attempt number, the budget is never exceeded, and a processing row is moved only by its latest claim's report or, once no lease is left, by the reaper |
| JobQueue.JobsAreIndependent | services/api/src/routers/jobs.py:428-463 | a run of the whole table, bulk reaper included, looks to each job like a run of that job alone |
| JobQueue.EveryReachableJob | services/api/src/routers/jobs.py:258-467 | every job of every reachable table satisfies the row invariants, the attempt bound (at most 39) and the acknowledgement rule |
| JobQueue.BudgetCanBeOvershot | services/api/src/routers/jobs.py:352-394 | any event the API records, with a budget of its own or the default one, can be claimed 2 * max_attempts - 1 times in a run of the table |
| JobQueue.KeysStayUnique | services/api/src/models.py:438-445 | no run ever holds two rows with one provider id and event type |
| JobQueue.RecordedOnce | services/api/src/routers/jobs.py:181-220 | whatever happens in between, every later recording of a key answers the first one's job id as a duplicate and inserts nothing |
| JobQueue.DuplicateExactly | services/api/src/routers/jobs.py:181-213 | in every run an event is a duplicate exactly when it has a provider id and its key was recorded before |
| Resolution.RecordEvent | services/api/src/routers/jobs.py:167-220 | create_event on the table is one recording step of the queue, and answers as that step says |
| JobApi.JobTable.CreateEvent | services/api/src/routers/jobs.py:167-220 | 422 exactly outside the field limits; a database error exactly on a provider id over 255 characters, or an unknown call under an unrecorded key; duplicate exactly when a row has the key; otherwise one queued row with the given budget or 5 and, if Redis is up, one hint |
| JobApi.JobTable.ListEligible | services/api/src/routers/jobs.py:223-240 | a limit outside 1 to 200 is refused; otherwise the earliest available matching jobs, in order, up to the limit, none left out that is earlier |
| JobApi.JobTable.ClaimEvent | services/api/src/routers/jobs.py:258-292 | succeeds exactly on a queued or retrying job whose time has come, and takes one attempt; 404, 409 and the unchanged table otherwise |
| JobApi.JobTable.ReadForComplete | services/api/src/routers/jobs.py:304-313 | which states end complete_event before its UPDATE, and with which answer |
| JobApi.JobTable.WriteComplete | services/api/src/routers/jobs.py:314-337 | the guarded UPDATE and the re-read when it matched nothing |
| JobApi.JobTable.CompleteEvent | services/api/src/routers/jobs.py:295-337 | answers success exactly when the job ends up completed; stamps processed_at the first time; repeating it is harmless |
| JobApi.JobTable.ReadForFail | services/api/src/routers/jobs.py:352-377 | which states end fail_event before its UPDATE, and the values chosen from the row that was read |
| JobApi.JobTable.WriteFail | services/api/src/routers/jobs.py:382-403 | the UPDATE guarded by status alone, applied to whatever row it meets |
| JobApi.JobTable.FailEvent | services/api/src/routers/jobs.py:340-413 | the row it writes, with its backoff in seconds and its error text; 404, 409 and 422; terminal jobs are answered as they are |
| JobApi.JobTable.ReapStaleJobs | services/api/src/routers/jobs.py:416-467 | exactly the jobs processing for over 120 s are handed back or failed, with the row this leaves; no other row moves |
| Worker.ProcessedLeavesEligible | services/worker/src/main.py:226-229 | a processed job is no longer eligible at the same clock reading, whatever its outcome |
| Worker.PassOutcome | services/worker/src/main.py:85-135 | the status, attempt number and schedule that a pass leaves, from the integration's outcome and the fate of the report |
| Worker.LogPerJob | services/worker/src/main.py:201-232 | whatever ids Redis hands out, each job sees an ordinary run of requests |
| Worker.ProcessOne | services/worker/src/main.py:81-135 | the effect of one pass on the table, which error escapes it, and that it reports success only after a successful integration |
| Worker.PollSize | services/worker/src/main.py:226-229 | a poll takes ten eligible jobs, or all when there are fewer |
| Worker.Poll | services/worker/src/main.py:225-232 | which of the listed jobs a poll passes over, in order, until an error escapes or a signal comes; exactly those rows take a pass |
| Worker.PollUntilEmpty | services/worker/src/main.py:201-232 | n eligible jobs are emptied in exactly ceil(n / 10) polls |
| WorkerLoop.RunLoop | services/worker/src/main.py:188-232 | for every list of cycles up to the signal, each cycle's exact effect on the table: the reaper exactly when a minute of loop time has passed since its last turn, then a pass over the popped id, or over the head of the list |
| WorkerLoop.RunCycle | services/worker/src/main.py:190-232 | one turn of the loop extends the run by one cycle and moves last_reap |
| WorkerLoop.ReaperEveryMinute | services/worker/src/main.py:190-199 | the reaper's turns are at least a minute apart, and after the first minute every cycle has one less than a minute back |
| WorkerLoop.RunIsLog | services/worker/src/main.py:188-232 | the whole effect of a run is a log of ordinary requests in which reports follow their own claims |
| WorkerLoop.KeptExactly | services/worker/src/main.py:201-232 | a waiting job keeps its row through a run exactly when no cycle passes over it with its claim sent while it is available |
| WorkerLoop.WakeUpsStarve | services/worker/src/main.py:211-219 | while every cycle is woken with another id, a waiting job keeps its row |
| WorkerLoop.PollServes | services/worker/src/main.py:221-229 | an undisturbed poll claims an available job exactly when it lists it, which it does when at most ten are eligible |
| Worker.LogKeepsBudgets | services/worker/src/main.py:188-232 | no log of the loop drives a job past its budget or changes its status more than twice per attempt |
| Resolution.RunRound | services/worker/src/main.py:188-232 | the handlers and the poll loop carry out one round on the whole table |
| Resolution.RunRounds | services/worker/src/main.py:188-232 | and any number of rounds, one after the other |
| Resolution.ResolveAll | services/worker/src/main.py:188-232 | from every reachable table, 21 rounds of the reaper and the poll loop leave every job completed or failed |
| LoopResolution.StretchProgress | services/worker/src/main.py:188-232 | a stretch of loop cycles in which the reaper gets through after 120 s and a poll after 300 s lists nothing uses up some of what a job needs |
| LoopResolution.LoopResolves | services/worker/src/main.py:188-232 | from every reachable table, a run of the loop with max_attempts + 1 such stretches leaves the job completed or failed, whatever Redis hands out and whatever reports get lost |
| Resolution.RoundProgress | services/api/src/routers/jobs.py:428-459 | a round lowers what a job still needs, or finishes it |
| Resolution.RoundsResolve | services/worker/src/main.py:188-232 | enough well-spaced rounds make a job terminal from any consistent row |
| Resolution.BoundedResolution | services/api/src/routers/jobs.py:96-107 | from any state any interleaving can reach, max_attempts + 1 rounds complete or fail the job, whatever fails or gets lost |
| Resolution.LostReportsNeedEveryRound | services/worker/src/main.py:107-134 | when every report is lost, max_attempts rounds are not enough |
| Resolution.PassIsProtocolRun | services/worker/src/main.py:81-135 | what process_one does to a row is a run of the interleaving protocol |
| Resolution.AtomicReports | services/api/src/routers/jobs.py:295-413 | a read followed at once by its guarded update is the atomic handler |
| Segmentation.SegmentationIsExact | services/voice-gateway/conversation.py:80-108 | the frame-by-frame rule computes the only reading of the audio as quiet gaps, turns cut at their first completing frame, and an unfinished rest |
| Segmentation.ParseIsUnique | services/voice-gateway/conversation.py:80-108 | two such readings of the same frames are equal |
| Segmentation.LoudFramesKept | services/voice-gateway/conversation.py:87-96 | every loud frame is in exactly one turn or the buffer, in order |
| Segmentation.SilenceEndsTurn | services/voice-gateway/conversation.py:91-96 | a turn under 640000 bytes ends in exactly 15 silent frames after a loud one |
| Segmentation.TurnExactly | services/voice-gateway/conversation.py:54-100 | a turn starts loud and ends with the first frame that makes 15 silent ones in a row or 640000 bytes |
| Segmentation.NothingSentTooEarly | services/voice-gateway/conversation.py:80-100 | speech without 15 silent frames in a row and below 640000 bytes is all still in the buffer |
| Segmentation.BytesInOrder | services/voice-gateway/conversation.py:87-93 | the bytes of a turn are its frames' bytes one after the other, in the order of arrival |
| Segmentation.TurnSize | services/voice-gateway/stt_provider.py:94-98 | with frames of at most 320000 bytes no turn is long enough for transcribe() to cut |
| Segmentation.BufferBounds | services/voice-gateway/conversation.py:98-100 | between frames the buffer is below 640000 bytes and the silence run below 15 |
| Segmentation.FieldsFollowFeed | services/voice-gateway/conversation.py:80-108 | the processor's fields represent the segmentation after every frame |
| Segmentation.EndIsCleanBetweenTurns | services/voice-gateway/conversation.py:75-76 | after an end frame the same audio is sent as by a fresh processor, for all frames to come, if and only if it fell between turns |
| Segmentation.NextTurnAfterEnd | services/voice-gateway/conversation.py:75-96 | after an end frame in mid-turn the next turn holds every following frame, silent ones first if so, up to the first that completes the silence run begun earlier or fills the buffer |
| Segmentation.STTProcessor.HandleAudio | services/voice-gateway/conversation.py:80-100 | the fields and the audio sent after one frame, from any field values, with both limits |
| Segmentation.STTProcessor.FlushTurn | services/voice-gateway/conversation.py:102-108 | the fields are reset and a non-empty buffer is handed over whole |
| Segmentation.STTProcessor.EndOrCancel | services/voice-gateway/conversation.py:75-76 | only the buffer is cleared |
| Segmentation.Listen | services/voice-gateway/conversation.py:68-108 | over a whole call transcribe() receives exactly the turns of the segmentation, each frame behind the earlier ones |
| Metrics.RecordKeepsWindow | services/api/src/monitoring.py:60-67 | appending to the trimmed, bounded deque keeps it the window of the whole bounded history |
| Metrics.DropOlder | services/api/src/monitoring.py:74-76 | trimming ordered samples from the left is the whole window filter |
| Metrics.MetricsRegistry.Record | services/api/src/monitoring.py:64-67 | one sample joins the history and the window stays exact |
| Metrics.MetricsRegistry.Recent | services/api/src/monitoring.py:69-76 | a reading is the in-window part of the last max_samples of the full history, whatever was trimmed before |
| Metrics.RecentExactly | services/api/src/monitoring.py:69-76 | a reading is the longest suffix of the history with at most max_samples samples and none older than the window |
| Metrics.MetricsRegistry.TakeSnapshot | services/api/src/monitoring.py:78-90 | a snapshot depends only on the history and the clock, and changes no later one; its errors are the answers from 500 on |
| Metrics.SortedAscending | services/api/src/monitoring.py:82-82 | the latencies are sorted and none is lost |
| Metrics.P95Exact | services/api/src/monitoring.py:93-97 | p95 exceeds a limit exactly when at least one sample in twenty does |
| Metrics.P50Exact | services/api/src/monitoring.py:93-97 | p50 exceeds a limit exactly when at least half of the samples do |
| Metrics.ErrorRateExact | services/api/src/monitoring.py:202-205 | the error count is the number of answers from 500 on, and the condition holds exactly for at least 20 requests with more than one in twenty of these |
| Metrics.CheckAlerts | services/api/src/monitoring.py:169-240 | which alerts a snapshot raises, in which order |
| Metrics.MetricsRegistry.CheckNow | services/api/src/main.py:69-70 | the latency alert is raised exactly when one windowed sample in twenty is over 1500 ms, the error alert exactly when of at least 20 more than one in twenty was answered 500 or above, whatever was trimmed before |
| Sessions.HealthyRefinesPlain | services/voice-gateway/src/main.py:216-284 | with Redis healthy the two levels answer like one plain map after any history |
| Sessions.RestartsAreUnobservable | services/voice-gateway/src/main.py:188-244 | with Redis healthy, losing the memory level at any point is unobservable |
| Sessions.LiveCallIsExact | services/voice-gateway/src/main.py:216-284 | under arbitrary Redis faults a call's state is exact between its create and its remove within one process |
| Sessions.LiveCallAnswers | services/voice-gateway/src/main.py:216-284 | from create to remove in one process, under any Redis faults, get() answers the tenant, agent and start of the create, ended exactly when an end came, and every turn added, in order |
| Sessions.HealthyCallAnswers | services/voice-gateway/src/main.py:216-284 | the same with Redis healthy, over any number of restarts |
| Sessions.FoundCallAnswers | services/voice-gateway/src/main.py:232-244 | after a get() that found the call, the same holds for the rest of the process under any Redis faults |
| Sessions.RedisAfter | services/voice-gateway/src/main.py:216-284 | what each operation writes to Redis when its calls get through, and that failed calls write nothing |
| Sessions.RemovedForGood | services/voice-gateway/src/main.py:259-263 | a removed session stays removed exactly when the Redis delete went through or there was nothing to delete |
| Sessions.GatewaySessionManager.Create | services/voice-gateway/src/main.py:216-230 | both levels after create |
| Sessions.GatewaySessionManager.Get | services/voice-gateway/src/main.py:232-244 | the answer and the memory fill after get |
| Sessions.GatewaySessionManager.End | services/voice-gateway/src/main.py:246-257 | both levels after end |
| Sessions.GatewaySessionManager.Remove | services/voice-gateway/src/main.py:259-263 | both levels after remove |
| Sessions.GatewaySessionManager.AddTurn | services/voice-gateway/src/main.py:265-284 | both levels after add_turn |
| Drain.ApplyCounts | services/voice-gateway/voice_pipeline.py:96-135 | every event keeps the counter equal to the calls between start and end |
| Drain.DrainingOnlyShrinks | services/voice-gateway/voice_pipeline.py:96-135 | while draining, running plus accepting connections never grow and later starts are bounded by those already accepting |
| Drain.NoMoreStarts | services/voice-gateway/voice_pipeline.py:97-119 | draining has stopped new calls exactly when no connection is still accepting |
| Drain.IdleIsNotDrained | services/voice-gateway/src/main.py:80-103 | a run reaches draining with no active call and a call still to start |
| Drain.VoiceGateway.Handle | services/voice-gateway/voice_pipeline.py:96-135 | admission, start and end of a call on the gateway's fields |
| Drain.VoiceGateway.DrainAndStop | services/voice-gateway/src/main.py:80-103 | the number of polls is the first at which no call is active or the timeout has passed; the state is that of the events seen while those polls slept |
| Drain.DrainingPolls | services/voice-gateway/src/main.py:80-103 | from poll to poll of a shutdown, running plus accepting connections never grow and the counter stays exact |
| Calls.FinalizeKeepsConsistent | services/api/src/routers/internal.py:209-239 | finalizing ends a row with the outcome its reason means, and a second outcome changes nothing |
| Calls.OutcomeTable | services/api/src/routers/internal.py:34-57 | the status and connection status that every end_reason means, known or not |
| Calls.CallTable.CreateCall | services/api/src/routers/internal.py:153-185 | 409 on an existing id, otherwise one active row |
| Calls.CallTable.FinalizeCall | services/api/src/routers/internal.py:199-257 | 404 on an unknown id, otherwise the idempotent finalization |
| Callbacks.NextKeepsInv | services/voice-gateway/exotel_routes.py:201-292 | every step of every webhook, socket and restart keeps the stores in agreement |
| Callbacks.ReachableStatesAgree | services/voice-gateway/exotel_routes.py:201-292 | at most one delivery per provider id and event passes the gate; sessions, mappings and call rows agree; statuses agree with end reasons |
| Callbacks.CallsPerProvider | services/voice-gateway/exotel_routes.py:220-254 | a provider id never has more than four calls |
| Callbacks.LowerIs | services/voice-gateway/exotel_routes.py:204-204 | lower-casing maps exactly the 26 upper-case letters to theirs |
| Callbacks.SocketsAndRestarts | services/voice-gateway/voice_pipeline.py:106-217 | what a connect, a hangup, a failed accept and a restart do to sessions, sockets and requests; none touches call rows, mappings or recorded events |
| Callbacks.RemovedSessionsStayRemoved | services/voice-gateway/voice_pipeline.py:212-217 | a session that has been removed never reappears |
| Callbacks.FirstOutcomeWins | services/api/src/routers/internal.py:209-218 | once a call has ended, no run changes its row |
| Callbacks.RecordedEventIsSpent | services/voice-gateway/exotel_routes.py:201-218 | once an event is recorded and its handler is over, no redelivery ever passes the gate |
| CallEndings.CanEndExactly | services/voice-gateway/exotel_routes.py:265-291 | an active call can still be finalized by some run exactly when an end is pending, or it is linked to its provider id and an end event of that id is left |
| CallEndings.OrphansStay | services/voice-gateway/exotel_routes.py:261-292 | a call that no pending end event and no mapping leads to keeps its row in every run, whatever sockets connect to it |
| CallEndings.CanLoseSessionExactly | services/voice-gateway/voice_pipeline.py:158-217 | with no further socket, a live session can be removed exactly when the call is within reach of an end event, a cleanup is due, or a socket is open |
| CallEndings.SecondStartOrphansFirst | services/voice-gateway/exotel_routes.py:220-254 | after a second start the first call can never be finalized exactly when no end was pending for it; its session can never be removed without a new socket exactly when besides no cleanup was due and no socket open |
| CallEndings.CleanupStrands | services/voice-gateway/exotel_routes.py:285-291 | a cleanup takes from a call the possibility to be finalized exactly when that call holds the mapping, has an end event left and no end pending |
| CallEndings.CleanupSparesOthers | services/voice-gateway/exotel_routes.py:285-291 | a cleanup leaves every other active call the possibility to be finalized, unless the provider id is by then mapped to one that only a further end event could have finalized |
| StrandedRuns.FailedFinalizeIsNotRetried | services/voice-gateway/exotel_routes.py:201-290 | the run in which finalize() fails, the redelivery is a duplicate, and the call is still active and mapped |
| StrandedRuns.AllFailuresAreFinal | services/voice-gateway/exotel_routes.py:261-290 | once all end events have failed, in any order, a mapped call can never be finalized |
| StrandedRuns.LostCreateStrands | services/voice-gateway/exotel_routes.py:236-254 | a call row whose creation was not answered can never be finalized |
| StrandedRuns.TwoStartsStrandFirst | services/voice-gateway/exotel_routes.py:220-254 | two start events leave two active calls, the first beyond finalization and removal |
| StrandedRuns.LateCleanupStrandsSecond | services/voice-gateway/exotel_routes.py:261-291 | an end event that overlaps a second start leaves the second call unmapped, active and beyond finalization |
| ExotelRouter.Router.RecordEvent | services/voice-gateway/exotel_routes.py:201-214 | the duplicate gate as the handler sees it, and what it leaves of the request and the stores |
| ExotelRouter.Router.Start | services/voice-gateway/exotel_routes.py:220-254 | the start branch: its protocol steps, its answer and the stores, for every fate of its requests |
| ExotelRouter.Router.PlaceCall | services/voice-gateway/exotel_routes.py:236-254 | 503 unless the creation is answered; session and mapping are written exactly then |
| ExotelRouter.Router.EndCall | services/voice-gateway/exotel_routes.py:265-292 | 503 unless the finalization is answered; session and mapping are removed exactly then |
| ExotelRouter.Router.Finish | services/voice-gateway/exotel_routes.py:261-292 | the end branch: ignored without a mapping, otherwise its protocol steps, its answer and the stores |
| ExotelRouter.Router.Callback | services/voice-gateway/exotel_routes.py:152-294 | a handled webhook takes exactly the protocol steps, gives the answer and leaves the stores that follow from what it met, keeps the invariants, and ends a call with the reason its event and status say |
| ExotelRouter.CaseDoesNotMatter | services/voice-gateway/exotel_routes.py:204-270 | spellings of the event and the status that differ only in case are one webhook |
| ExotelRouter.RedeliveryHasNoEffect | services/voice-gateway/exotel_routes.py:192-218 | once a delivery is recorded, however its handling went, delivering it again leaves all stores as they are and is answered as a duplicate, or 503 |
| ExotelRouter.StartedExactly | services/voice-gateway/exotel_routes.py:220-254 | a webhook is answered "session_started" exactly when it is a new, routable start event and all services answer; the stores gain the active row, the mapping and the session, and nothing else changes |
| ExotelRouter.CleanedExactly | services/voice-gateway/exotel_routes.py:261-292 | a webhook is answered "session_cleaned" exactly when it is a new end event of a mapped provider id and all services answer; an active call then ends at that time as a provider failure exactly when the event is "failed" or the status "failed", "busy" or "no-answer", as a completed caller hang-up otherwise |
| ExotelRouter.OtherAnswersPlaceNothing | services/voice-gateway/exotel_routes.py:201-294 | any other answer leaves sessions and mappings alone, and only a 503 may have touched a call row |
| ExotelRouter.OtherAnswersExactly | services/voice-gateway/exotel_routes.py:201-294 | exactly which webhooks are answered as duplicates, rejected and ignored |

## Left out

- Transport, validation of tokens, logging and health endpoints: a request is a step that may succeed, fail, or commit with its response lost.
- Reporters other than workers: the job protocol allows one report per committed claim, as `process_one` sends; further clients of the internal API could send more.
- CallEndings.CanEndExactly: a creation or finalization that was sent before a restart, or before the gateway's client timed out, is not committed later; it commits before the request ends, or never.
- The transaction start time behind `func.now()` and clock skew between services: one shared clock is used.
- PostgreSQL itself, row-level security and tenant sessions: single-statement atomicity and the unique index are taken as given.
- JobQueue.RecordedOnce: events whose call_id names no call row, which the database refuses unless the key is taken, are no steps of the table model; `JobApi.JobTable.CreateEvent` has them.
- Columns nothing here reads (tenant, with its length limit, and payload of a job; started_at and is_simulation of a call).
- Redis expiry times, and two gateway processes with separate memory sharing one Redis.
- Redis failures of the call store: the mapping in `callbacks.dfy` is always written and read successfully.
- The connection a webhook arrives on: authentication and field translation happen before `Callbacks.Receive`; the call id echoed with a "duplicate" answer is not modelled.
- Lower-casing outside ASCII.
- Worker.ProcessOne: uses one clock reading for the claim and the report of a pass; passes that take time are covered by `job_protocol.dfy`.
- Concurrent `finalize_call` requests for one row: the handler is one step.
- Unresolved WebSocket sessions (the development flag): a socket needs an existing session.
- Speech recognition, synthesis, response generation, greeting and turn text: outside services or simple forwarding.
- Dashboards, admin and client routes, migrations, seeding: user interface and plain data access.
