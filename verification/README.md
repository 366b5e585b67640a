# AtlasOps control plane, verified

A Dafny model of the control plane that AtlasOps puts around its agents: durable admission and
dispatch of incidents, the approval gate, the remediation tool loop, compare-and-swap execution,
the circuit breaker, the audit log and the execution journal, and of three smaller pieces that must
agree with something else: the brace scanner that reads model output, the two resolvers of an
alert's workload, and the names of stored records. The measurement and replay arithmetic of the
benchmark is modelled as well.

Model output, tools, the cluster, other clients, the clock and faults are inputs: every statement is
for all of them. A component that changes state in place is a class whose methods are proved equal to
steps on values; what the component promises is then proved of those steps, over every run.

## How it is organised

| files | component | form |
|---|---|---|
| Admission, Correlator, Dispatch, DispatchInvariant, DispatchSteps, DispatchSafety, DispatchReplies, DispatchProgress, DispatchOrder, DispatchFifo, DispatchDraining, DispatchOvertaking, Dispatcher | admission and dispatch | a step system of dispatchers that share one table, with crashes; classes that refine it |
| Approval, ApprovalRequests, ApprovalGrants, Remediation, RemediationSafety, RemediationEnds, RemediationCalls | approval gate and remediation loop | event runs of the gate; the nested loop over scripts of responses; classes that refine both |
| CircuitBreaker, BreakerDecisions | circuit breaker | event runs; a class that refines them |
| Evidence, Audit, Journal, JournalSafety, JournalAnswers, JournalAudit, JournalHonesty, JournalRestart, JournalVerdicts | the two hash-chained logs and their use | event runs with failures and crashes; classes that refine them |
| Actions | prepare and execute against an API server | server steps, JSON patch |
| RemediationJournal | the remediation loop with its journal notes | joint runs of the two |
| BraceScanner, PrintedObjects | `_try_parse_json` | the loops, against a printer of RFC 8259 objects |
| Workload | the two workload resolvers | the loops, each against its own condition |
| RecordIdentity | incident record names | names, readers, exclusive-create writers |
| Measurement, MeasurementReading, MeasurementAcceptance, MeasurementAgreement, MeasurementReasons, Replay | episode measurement, replay arithmetic | functions over event lists, loops proved against them |

Five results say that the code does not always do what one may expect of it, each with its exact
condition and with an input at which it fails:

- Handler calls of one incident need not come in admission order. Every queue is in order within its
  pending and within its deferred jobs (`DispatchFifo.EachQueueIsFifo`), but the two together are in
  order all along a run if and only if every submit finds nothing deferred for its incident, or a
  stopping worker (`DispatchOrder.QueuesOrderedIffGuarded`). The same guard is exact for the handler
  calls: after a submit that breaks it, the run can go on without any further submit to calls out of
  order (`DispatchDraining.CallsOrderedIffGuarded`). `DispatchOvertaking.HandlersOutOfOrder` is a run
  of ten events from the start in which the third job overtakes the second.
- `_try_parse_json` is documented to find outermost objects. Its loop advances by one character, so
  nested objects are candidates too. An outermost object is picked if and only if some outermost
  candidate beats every nested one (`BraceScanner.OutermostPickedIff`); for an object by itself this is
  told from the object: it is returned if and only if no object nested in it has more keys or makes
  the call raise (`PrintedObjects.PrintedObjectPickedIff`). For `{"a":{"b":1,"c":2}}` the nested object
  is returned (`BraceScanner.NestedObjectIsReturned`). An object whose `name` is a list or an object
  makes the call raise (`BraceScanner.UnhashableNameRaises`).
- A record can be written that no reader accepts: the writer has no bound on the size and lets
  non-finite numbers through. A persisted record stays readable if and only if it fits
  (`RecordIdentity.PersistedReadableIffFits`); one of two mebibytes is lost and makes its listing
  page fail (`RecordIdentity.OversizedRecordIsLost`).
- Records of different identities share names. When a record is refused is stated over the ids of the
  earlier writes (`RecordIdentity.PersistRefusedIff`); `RecordIdentity.DistinctRecordsCanClash` is a run
  in which it is refused although none with its identity exists.
- A restart closes the executions left running in one loop that ends at the first failure. A row is
  closed if and only if it and every row before it can be closed (`JournalRestart.RestartClosesIff`);
  a closing note that fails leaves the executions behind it running
  (`JournalRestart.FailedNoteBlocksTheRest`), and so does a history over the limit
  (`JournalRestart.LongHistoryBlocksTheRest`).

The model follows the code in all of them.

Digests are arbitrary functions to 64 hexadecimal digits. Nothing assumes that they have no
collisions: each binding result asks that the texts hashed in the logs at hand do not collide.

## Model

| member | source | states |
|---|---|---|
| Admission.IncidentAdmissionStore.AdmitKeys | agents/incident_admission.py:42-80 | fresh keys become queued rows under the token, in order and once; the others are reported with the incident that holds them |
| Admission.IncidentAdmissionStore.MarkAttempted | agents/incident_admission.py:82-102 | all keys go from queued to attempted under their token, or the transaction leaves the table as it was |
| Admission.IncidentAdmissionStore.RollbackQueued | agents/incident_admission.py:104-114 | exactly the queued rows of the token go |
| Admission.MarkNeedsOwnRows | agents/incident_admission.py:82-102 | keys can be marked exactly if each has a row that is queued under the token |
| Admission.TransactionsKeepAttempted | agents/incident_admission.py:42-114 | no transaction changes an attempted row, and each touches rows of one token only |
| Admission.RollbackUndoesAdmit | agents/incident_admission.py:104-114 | rolling back a token right after admitting it restores the table |
| Admission.AdmitThenMark | agents/incident_admission.py:82-102 | what was just admitted can be marked attempted |
| Correlator.ComputeOccurrenceRefs | agents/correlator.py:170-185 | the loop over alerts yields each key once with its first position, or the payload's own key |
| Correlator.OccurrencesTold | agents/correlator.py:170-185 | the occurrences of a payload are the first object of each key, in order, or the payload itself when it lists no object at all |
| Correlator.DeliveredKeysAreAdmittedKeys | agents/incident_dispatch.py:220-240 | the occurrences of the filtered payload are the admitted occurrences of the original, in order |
| Correlator.IncidentCorrelator.MarkProcessing | agents/correlator.py:141-145 | sets the flag of a known incident and nothing else |
| Correlator.IncidentCorrelator.ExpireOld | agents/correlator.py:241-248 | drops exactly the incidents that are old and not being processed |
| Dispatcher.IncidentDispatcher.Submit | agents/incident_dispatch.py:80-209 | the method takes the dispatcher to the state and reply of the submit step, on every path and fault; `DispatchReplies.SubmitIsAnswered` says what they are |
| DispatchReplies.SubmitIsAnswered | agents/incident_dispatch.py:80-209 | in every reachable state, on whatever faults: a batch of known occurrences is a duplicate that names the one incident holding them all, or none if they are held apart; a new, unfaulted one is started or queued behind exactly as its incident is served or not, under a new token that is undecided afterwards; a refused one leaves no trace unless its rollback fails |
| Dispatcher.IncidentDispatcher.FinishWorker | agents/incident_dispatch.py:323-387 | the same for ending a worker, with its two early returns, the restart for deferred work, and the failure to restart |
| Dispatcher.IncidentDispatcher.Drain | agents/incident_dispatch.py:267-321 | the loop runs on to the next handler call or the end of the task, skipping jobs that cannot be marked |
| Dispatcher.IncidentDispatcher.DoneCallback | agents/incident_dispatch.py:258-265 | the done callback finishes a worker that was cancelled before its first step |
| DispatchProgress.NextCallIsTold | agents/incident_dispatch.py:267-314 | in every reachable state, when a task starts or its handler returns, the next handler call is that of its first pending job whose rows the store can mark, and those before it are decided; without one the task ends |
| DispatchProgress.CompletionsAreDecidedBy | agents/incident_dispatch.py:267-387 | the exact completions that each event decides: of the call that ended, of jobs that cannot be marked, of a cancelled task, of a failed restart, and of a caller that gives up; no other waiting completion is decided |
| DispatchProgress.FailedRestartTakesBack | agents/incident_dispatch.py:344-371 | if the task for deferred jobs cannot be created, exactly their queued rows go (where the store works), nothing else of the table changes, no handler is called and the incident is free |
| DispatchSafety.RunInv | agents/incident_dispatch.py:80-387 | the dispatch invariant holds in every state of every interleaving, with any number of dispatchers and crashes |
| DispatchSafety.HandlerCallsAreDisjoint | agents/incident_dispatch.py:267-314 | two handler calls never share an admitted key |
| DispatchSafety.DeliveredAtMostOnce | agents/incident_dispatch.py:220-314 | each occurrence is in the payload of at most one handler call, over all dispatchers, runs and crashes |
| DispatchSafety.AttemptedIsFinal | agents/incident_admission.py:82-114 | a row once attempted is the same in every later state |
| DispatchSafety.UndecidedIsInOnePlace | agents/incident_dispatch.py:154-209 | an undecided completion is the job its live worker holds or one position of pending or deferred, in one registered queue only |
| DispatchSafety.RegisteredQueuesAreServed | agents/incident_dispatch.py:315-387 | every registered queue has a worker, and a known incident is marked processing exactly while its queue is registered |
| DispatchSafety.ExpiryKeepsBusyIncidents | agents/correlator.py:241-248 | an incident with undecided work is never expired |
| DispatchSafety.QuietMeansDone | agents/incident_dispatch.py:315-387 | when all tasks have ended, every completion is decided and no queue is left |
| DispatchSafety.OneHandlerPerIncident | agents/incident_dispatch.py:170-185 | within one dispatcher, at most one handler runs per incident |
| DispatchSafety.OnlyStoreFailuresSkipJobs | agents/incident_dispatch.py:278-297 | a waiting job can always be marked, so only a failing store makes it be skipped |
| DispatchOrder.HandlerCallsInAdmissionOrder | agents/incident_dispatch.py:170-314 | while every submit finds nothing deferred or a stopping worker, the handler calls of an incident and its waiting jobs are in admission order, over every interleaving and crash |
| DispatchOrder.QueuesOrderedIffGuarded | agents/incident_dispatch.py:170-185 | the queues are in admission order all along a run exactly when every submit of the run meets that guard |
| DispatchDraining.CallsOrderedIffGuarded | agents/incident_dispatch.py:170-387 | handler calls are in admission order from every point of a run on, however it goes on without further submits, exactly when every submit of the run meets the guard |
| DispatchOrder.NoUncancelIsGuarded | agents/incident_dispatch.py:170-185 | every run in which no cancellation is taken back meets the guard |
| DispatchFifo.EachQueueIsFifo | agents/incident_dispatch.py:170-387 | in every run, also with cancellations taken back, pending and deferred are each in admission order |
| DispatchOrder.SubmitKeepsOrderIff | agents/incident_dispatch.py:170-185 | a submit keeps the order exactly when nothing is deferred or the worker is stopping |
| DispatchOvertaking.DeferringDefers | agents/incident_dispatch.py:170-177 | from any state of the invariant in which a handler runs with nothing pending, cancel, submit and take back leaves the job deferred behind a live worker |
| DispatchOvertaking.LaterSubmitOvertakes | agents/incident_dispatch.py:170-185 | from any such state, a later job's handler is called while the earlier job still waits |
| DispatchOvertaking.HandlersOutOfOrder | agents/incident_dispatch.py:170-309 | a run from the start, for any incident, payload and keys: the handlers of three jobs are called first, third, second, and the sixth event is the submit that breaks the guard |
| Approval.DecisionsAreFinal | agents/approval.py:187-293 | decision, approver and approval record never change once recorded, over every race of callback, timeout and cancellation |
| Approval.UsesAreAuthorised | agents/approval.py:187-293 | each successful consumption has its own accepted approval: same incident, same digest, named approver, both within the time limit |
| Approval.PermitsAreSpentOnce | agents/approval.py:217-236 | after one attempt to consume a permit, whatever its answer, every later attempt is refused |
| ApprovalGrants.PermitIffApproved | agents/approval.py:187-215 | after any events, a waiter that resumes and is not cancelled gets a permit exactly if an approval of its action request was accepted; the permit carries the request's incident, digest and expiry and the approver's name |
| ApprovalGrants.FirstUseIff | agents/approval.py:217-236 | whatever unrelated events lie between, the first attempt with an issued permit is allowed exactly for its incident and digest, within the timeout and before expiry |
| ApprovalGrants.CallbackDecidesIff | agents/approval.py:264-293 | a callback decides a pending request exactly if it is in time, quotes the digest where it must, says yes or no, and is signed |
| ApprovalGrants.ApprovedActionIsAllowed | agents/approval.py:134-293 | from any state in which the incident has no pending request: request, wait, approval in time, resume and first use of the permit end in an allowed action, with or without a target |
| ApprovalGrants.ResumedIsCleared | agents/approval.py:187-262 | a waiter that is over leaves its incident free, keeps a recorded decision, and times out only a pending one |
| ApprovalRequests.ActionRequestAnswered | agents/approval.py:134-179 | after any events, an action request is refused exactly while the incident's newest request is still open, or else for a bad digest or scope; otherwise it is on record undecided with its time limit, and nothing else changes |
| ApprovalRequests.WaitAnswered | agents/approval.py:187-203 | a wait begins exactly for the incident's newest, open request with an action on which nobody waits yet |
| ApprovalRequests.PlainWaitAnswered | agents/approval.py:181-185 | the same for a request without an action |
| ApprovalRequests.CallbackAnswered | agents/approval.py:264-293 | after any events, the exact answer to a callback, told from the requests on record |
| Approval.ApprovalGate.RequestAction | agents/approval.py:134-179 | the method is the request step: refused while one is pending, else registered with its digest and time limit |
| Approval.ApprovalGate.EndWait | agents/approval.py:187-262 | the method is the resume step: times out only a pending request, clears it, and issues the permit of a named approval; `ApprovalGrants.PermitIffApproved` says exactly when |
| Approval.ApprovalGate.Callback | agents/approval.py:264-293 | the method is the callback step, with each refusal in its order |
| Approval.ApprovalGate.ConsumePermit | agents/approval.py:217-236 | the method is the consume step: the permit is gone before any check of it |
| Remediation.RemediationLoop.ScreenCall | agents/coordinator.py:1548-1746 | the checks before a call, in their order, with what each one records |
| Remediation.RemediationLoop.AuthoriseCall | agents/coordinator.py:1751-1828 | mode, preparation, and the one use of the gate |
| Remediation.RemediationLoop.ExecuteCall | agents/coordinator.py:1829-2020 | the method is the execution step; `RemediationEnds.EndingToldByLastEntry` and `RemediationCalls.CallIsAnswered` say what the loop returns and when a call is made |
| Remediation.RemediationLoop.CallAgent | agents/coordinator.py:1326-1500 | the nested loops end within the turn limit in the state that the run over the responses gives |
| RemediationSafety.MutationsAreSeparated | agents/coordinator.py:1563-1579 | between two executed mutations lie a later response and an observation of exactly failed and unresolved; so at most one per response |
| RemediationSafety.TerminalActionsStayStopped | agents/coordinator.py:1580-1626 | no mutation is executed after its action identity was blocked on evidence or policy, or had a terminal error |
| RemediationSafety.ExecutionsAreCapped | agents/coordinator.py:1712-1746 | executions stay within three of one exact call and within each tool's cap |
| RemediationSafety.MutationsAreApproved | agents/coordinator.py:1751-1828 | operational mutations happen only by approval, manual ones never; executed mutations map injectively to accepted approvals of exactly the executed action |
| RemediationEnds.EndingToldByLastEntry | agents/coordinator.py:1985-1995 | for every script: the loop returns `resolved` exactly if its last entry is a mutation observed as resolved and passed, and `escalated` exactly if it returns at a mutation observed as neither that nor unresolved and failed |
| RemediationEnds.ApprovedMutationRuns | agents/coordinator.py:1548-2020 | at every point of every operational run, a mutation to which nothing objects, which the history allows and for which the gate holds a covering permit is executed exactly as prepared |
| RemediationEnds.HistoryForbids | agents/coordinator.py:1563-1626 | a mutation that the history speaks against (one in this response already, its identity stopped, its cap reached) is not executed |
| RemediationCalls.CallIsAnswered | agents/coordinator.py:1548-2020 | at every point of every run, in every mode, the exact outcome of a call: refused by a check (which stops its identity exactly if evidence or policy objects to a mutation), denied for want of preparation, permit or mode, or given to the tool with one entry that decides how the loop goes on |
| RemediationCalls.EmptyResponseAnswered | agents/coordinator.py:1392-1440 | a response without a call concludes the run unless it is the first such, no mutation succeeded and no identity was stopped |
| RemediationCalls.WhatMutates | agents/coordinator.py:414-425 | mutations are four tools by name and a rollout whose action is undo |
| RemediationCalls.HopelessIsTerminal | agents/coordinator.py:762-777 | an answer stops its action exactly if it is no success and its class or the text of its error says that a repeat is pointless |
| RemediationCalls.IdentityIsTarget | agents/coordinator.py:747-760 | actions of one tool on one target have one identity whatever else they say, and actions of different tools never share one |
| CircuitBreaker.CircuitBreaker.CheckBeforeToolCall | agents/circuit_breaker.py:57-86 | the method is the check step: roll, open breaker, per-incident count, then the hourly quota |
| CircuitBreaker.CircuitBreaker.FinishIncident | agents/circuit_breaker.py:45-55 | the method is the finish step with its three outcomes |
| BreakerDecisions.CallAnswered | agents/circuit_breaker.py:57-86 | after any events and on any clock, a tool call is refused by the first of three rules that it breaks (breaker open, incident's calls used up, window's mutating quota used up) and passes if and only if it breaks none, all told from the events |
| BreakerDecisions.StartAnswered | agents/circuit_breaker.py:38-43 | an incident is let in if and only if the breaker is closed and fewer than the limit are active, told from the events |
| CircuitBreaker.HourlyRateBound | agents/circuit_breaker.py:80-86 | with a nondecreasing clock, accepted mutating calls in any half-open hour are at most twice the limit |
| CircuitBreaker.TotalRateBound | agents/circuit_breaker.py:117-120 | up to any time, accepted calls are at most the limit times the hours begun |
| CircuitBreaker.TripsExactlyWhen | agents/circuit_breaker.py:45-55 | open exactly when paused or when the reported outcomes hold a threshold run of counted failures with no resolution in between |
| CircuitBreaker.OpenStaysOpen | agents/circuit_breaker.py:38-72 | once open it stays open, starts no incident and lets no call through |
| CircuitBreaker.ToolCallsAreCharged | agents/circuit_breaker.py:73-85 | the per-incident count is the calls charged since the incident last finished, also those the hourly quota then refused, and within the limit |
| CircuitBreaker.ActiveWithinLimit | agents/circuit_breaker.py:38-46 | the active count stays between zero and the concurrency limit |
| Evidence.SignedTextDecodes | agents/audit.py:84 | canonical text followed by a signature decodes uniquely |
| Evidence.LinkedTextDecodes | agents/execution_journal.py:163 | the previous digest, or nothing, followed by an object's text decodes uniquely |
| Audit.AuditLog.Record | agents/audit.py:55-90 | appends the sealed entry for the input and remembers its hash |
| Audit.AuditLog.VerifyIntegrity | agents/audit.py:108-153 | intact with all records in order if and only if no line has a fault; otherwise the first faulty line and its first fault |
| Audit.Open | agents/audit.py:22-43 | opening fails on a blank secret or a last line that is no object, else remembers the last entry's hash |
| Audit.RecordedLogIsAccepted | agents/audit.py:33-90 | any calls split by restarts leave an accepted log that holds the old lines and one entry per call, in order, with its contents |
| Audit.EveryCallIsTold | agents/audit.py:55-90 | from an empty log, across restarts, the k-th line tells the k-th call field by field, and there are no other lines |
| Audit.TornLineIsFatal | agents/audit.py:39-43 | a line that is not JSON makes the log unacceptable for ever |
| Audit.LastHashBindsLog | agents/audit.py:108-147 | two accepted logs with the same last hash hold the same records, in the same number, unless their own hash inputs collide |
| Audit.PagesTileLog | agents/audit.py:103-106 | pages at successive offsets put together are the log, and a page is empty exactly beyond it |
| Audit.PageHolds | agents/audit.py:92-106 | a page is one stretch of the log: the entries at least `offset` and less than `offset + limit` away from its end, a negative offset acting as none |
| Audit.TailTilesLog | agents/audit.py:92-106 | on a log that verifies, `tail` at successive offsets never fails and its pages together are the log |
| Audit.TornLineBreaksTail | agents/audit.py:102 | with one line that is not JSON anywhere, `tail` fails exactly for every positive limit, whatever the page |
| Journal.ExecutionJournal.Begin | agents/execution_journal.py:92-111 | admits an execution with its first event, or leaves the database as it was |
| Journal.ExecutionJournal.AppendNote | agents/execution_journal.py:113-122 | an unknown phase or state, or an execution that was not admitted, is refused; else one note |
| Journal.ExecutionJournal.NoteInTransaction | agents/execution_journal.py:124-171 | the method is the note step: refusals first, then the audit line, then the commit |
| JournalAnswers.NoteAnswered | agents/execution_journal.py:113-171 | after any run, a note commits exactly if its phase and state are known, its execution was admitted, its last event says running, it keeps the identity, can be printed, and nothing fails; it then adds one event that tells it with the record of all notes so far, and otherwise leaves the executions alone and the audit log with its line only if the commit failed |
| JournalAnswers.AdmissionAnswered | agents/execution_journal.py:92-111 | an admission commits exactly for new and valid ids and a printable record if nothing fails; it then leaves one event, admitted, with a record that names both ids |
| Journal.ExecutionJournal.Read | agents/execution_journal.py:173-214 | accepts exactly the histories that are nonempty, within the limit, chained, and repeated by the snapshot |
| Journal.RequireExecutionAudit | agents/operations_api.py:76-89 | true exactly when the row indexed by each event's audit hash stands for that event; `JournalAudit.AcceptedEventsAgree` says what that binds |
| JournalAudit.AcceptedEventIsHashed | agents/operations_api.py:76-89 | the row that an accepted event names is the last with its hash and carries the digest of the whole transition, the incident, and the marks of a progress note |
| JournalAudit.AcceptedEventsAgree | agents/operations_api.py:76-89 | two accepted histories have the same transition wherever they name the same audit row, unless the digests of those two transitions collide |
| JournalAudit.OnlyCommittedIsAccepted | agents/operations_api.py:76-89 | after any run, an event accepted under the audit row of a committed event has that event's transition and its incident, unless their digests collide |
| JournalAudit.RewrittenEventIsRefused | agents/operations_api.py:76-89 | after any run, a committed event with anything of its transition changed is refused, unless the digests collide |
| JournalSafety.ReadAccepts | agents/execution_journal.py:173-207 | in every reachable state `read` accepts exactly the executions within the event limit |
| JournalSafety.ReadReportsTheFold | agents/execution_journal.py:135-214 | the record read, and each event's record, is the fold of the sanitised patches committed so far |
| JournalSafety.EveryEventIsAudited | agents/operations_api.py:76-89 | after any failures and crashes the audit log verifies and every event passes the audit check, unless audit inputs collide |
| JournalSafety.TerminalIsFinal | agents/execution_journal.py:133-134 | a terminal execution never changes again |
| JournalSafety.IdentityNeverChanges | agents/execution_journal.py:136-139 | no later event changes the ids and the source a record names |
| JournalSafety.LastHashBindsEvents | agents/execution_journal.py:188-200 | two accepted histories with the same last hash are the same rows, unless their own hash inputs collide |
| JournalAudit.EventsAreLinked | agents/execution_journal.py:187-200 | every event of an accepted read is of that execution and, if it says what it follows, follows the event before it |
| JournalAudit.LastHashBindsReading | agents/execution_journal.py:173-214 | two reads with the same last hash report the same execution, events, record, phase and state, and the same time if the last event tells it, unless their own hash inputs collide |
| JournalHonesty.ClosedIsUncertainIffOpen | agents/coordinator.py:3429-3452 | a closed execution is uncertain exactly when its journal shows a mutation start with no return after it; while it runs, phase `applying` says the same |
| JournalHonesty.MutatingIsJournalled | agents/coordinator.py:1833-1853 | while a mutation is in progress its start is in the journal |
| Journal.ExecutionJournal.ReconcileRestart | agents/execution_journal.py:230-242 | the loop over the selected rows is the pass that stops at the first row that cannot be read or closed |
| JournalRestart.RestartIsReconcile | agents/execution_journal.py:230-242 | the restart in the runs does to the files what that pass does, row by row |
| JournalRestart.RestartClosesIff | agents/execution_journal.py:230-242 | a restart closes a row exactly when it and every row before it are within the event limit and their closing notes get through, else it stays running; it returns exactly when that holds of all rows. A closed row is uncertain exactly if its journal shows a mutation start with no return after it, and interrupted otherwise |
| JournalRestart.RestartVerdict | agents/execution_journal.py:230-242 | a restart changes executions only by closing them, with that verdict and a note that says resolved false, replay not allowed, and the phase it was interrupted in |
| JournalVerdicts.StateToldByLastEvent | agents/coordinator.py:2593-2620 | in every run the state of a closed execution is told by its last event and by whether a mutation was open; it is completed exactly if the last event is the completion of the incident |
| JournalVerdicts.HandlerVerdict | agents/coordinator.py:3429-3452 | the handler of an execution at work closes it as cancelled, or failed, outside a mutation and as uncertain inside one, unless its note fails, which leaves it as it was |
| JournalRestart.FailedNoteBlocksTheRest | agents/execution_journal.py:235-242 | after two admissions and a crash, a restart on which the first row's closing note fails leaves the second one running, although its own note would get through; in the other order it closes it |
| JournalRestart.LongHistoryBlocksTheRest | agents/execution_journal.py:235-236 | the same with a history over the limit as the first row |
| JournalHonesty.RunIsJournalled | agents/coordinator.py:2593-2620 | the coordinator's runs are runs of the journal, so all of the above holds of them |
| RemediationJournal.UncertainIffUnreturned | agents/coordinator.py:1829-1861 | after any operational run of the loop and whatever follows it, the journal shows exactly one start for each executed mutation, and the closed execution is uncertain exactly when it shows fewer returns than that |
| RemediationJournal.LoopIsRun | agents/coordinator.py:1326-1500 | the loop's part of a joint run is a run of the loop, so its own results hold there |
| Actions.SuccessAppliesToPreparedState | agents/action_execution.py:291-402 | whatever others did since preparation, success means the target was exactly as read and got exactly the prepared change, and nothing else on the server changed |
| Actions.ExecutionAnswered | agents/action_execution.py:291-402 | every accepted target is prepared, and every execution is answered exactly: refused on another server, uncertain if the answer is lost, else success if nobody changed the target since it was read and the change fits it, and a conflict otherwise; a lost answer has the effect of a received one |
| Actions.RefusedHasNoEffect | agents/action_execution.py:387-398 | a changed server or a conflict leaves the cluster as it was |
| Actions.RepeatHasNoEffect | agents/action_execution.py:383-402 | once a prepared action took effect, executing it again never has an effect and never succeeds |
| Actions.TestsPin | agents/action_execution.py:156-160 | a patch with the two tests applies exactly in the pinned version of the pinned object |
| Actions.ArgoPatchRollsBack | agents/action_execution.py:259-288 | a rollback patch is made exactly for a numeric id that one entry of the history has, in an idle Application with one source of the same repository and path; it applies to the state it was made from, points the source at the recorded commit, starts the sync to it without pruning, and changes nothing else |
| Actions.RollbackTemplate | agents/action_execution.py:231-256 | the template of the one newest owned earlier ReplicaSet, and nothing on a tie or a malformed history |
| BraceScanner.FindBlock | agents/coordinator.py:2381-2406 | the inner loop finds the position that closes the block, if there is one |
| BraceScanner.TryParseJson | agents/coordinator.py:2366-2410 | the first of the largest candidates over all start positions; raises exactly when some block makes the parser or the name check raise |
| BraceScanner.ResultTold | agents/coordinator.py:2377-2410 | the call raises exactly if some block makes the parser fail otherwise than by decoding or holds an object named by a list or an object; what it picks is no tool call and the first with the most keys among all objects that are none; where it gives the text back, every object in it is a tool call |
| BraceScanner.ObjectIsOneBlock | agents/coordinator.py:2381-2405 | in any surrounding text, the scan from a printed object's first brace ends at its own last brace |
| BraceScanner.ResultCoversObject | agents/coordinator.py:2399-2409 | a printed object that is no tool call is a candidate, so the result raises or has at least as many keys |
| BraceScanner.NestedObjectWins | agents/coordinator.py:2407-2409 | in any text around it, a nested object with more keys keeps a smaller one from being picked |
| BraceScanner.OutermostPickedIff | agents/coordinator.py:2377-2410 | the picked object is an outermost one exactly when some outermost candidate has more keys than each nested candidate to its left and at least as many as each to its right |
| BraceScanner.NestedObjectIsReturned | agents/coordinator.py:2377-2410 | for `{"a":{"b":1,"c":2}}` the nested object is returned |
| PrintedObjects.PrintedObjectPickedIff | agents/coordinator.py:2377-2410 | a printed object whose strings hold no opening brace, in text without further ones, is returned exactly when no object nested in it has more keys or makes the call raise |
| BraceScanner.UnhashableNameRaises | agents/coordinator.py:2401 | an object named by a list or an object makes the call raise |
| BraceScanner.ResultIsUnique | agents/coordinator.py:2408-2410 | the specification of the scanner determines its result |
| Workload.AlertWorkload | agents/action_execution.py:183-220 | resolves exactly the alerts that meet the action layer's condition, to that workload |
| Workload.ResolveOperationalTarget | agents/verifier.py:496-593 | resolves exactly the alerts that meet the verifier's condition, to that deployment |
| Workload.LabelSetsAre | agents/action_execution.py:183-197 | the label sets that both resolvers work on are the common labels, possibly none, and those of each of one or more individual alerts, in order |
| Workload.ResolversAgree | agents/verifier.py:511-593 | the verifier resolves an alert exactly when the action layer resolves it to the same workload and no individual label map is empty |
| Workload.WorkloadIsUnique | agents/action_execution.py:204-220 | an alert resolves to at most one workload |
| RecordIdentity.MatchRoundTrip | agents/incident_history.py:168-193 | matching a tagged name gives back its incident and execution, however the incident id is spelled |
| RecordIdentity.MatchInverts | agents/incident_history.py:32-37 | a match is exactly a tagged name: a nonempty incident, the tag, and 32 hexadecimal digits |
| RecordIdentity.WrittenResolvesToItself | agents/incident_history.py:168-274 | a written file that the readers accept is found under exactly its own identity, any other is unavailable; finished records that fit are listed, partial ones are not |
| RecordIdentity.ReadsOnlyItsOwnIdentity | agents/incident_history.py:648-669 | a read answers exactly when the named file holds a record with the requested ids |
| RecordIdentity.PersistedReadableIffFits | agents/incident_history.py:218-252 | after all later writes, a persisted record is readable under its own identity exactly when it is within the size limit, has finite numbers and no repeated key; otherwise it is unavailable for ever |
| RecordIdentity.OversizedRecordIsLost | agents/coordinator.py:2512-2526 | a record of two mebibytes is written, can never be read, and makes every listing page that it is on fail |
| RecordIdentity.UnusableBreaksPage | agents/incident_history.py:639-645 | one candidate that cannot be loaded makes its whole listing page fail |
| RecordIdentity.PageHoldsAll | agents/incident_history.py:639-645 | a page is given exactly when each of its candidates loads, and holds all of them in order |
| RecordIdentity.CandidateIff | agents/incident_history.py:168-193 | a name can be a record exactly if it is that of a valid incident id, or a follow-up name of one that is no partial name |
| RecordIdentity.AnswerTells | agents/coordinator.py:2512-2526 | a record that is written is in a file of its own that was not there; one that is refused leaves nothing, except that a partial record which cannot be printed leaves an unusable file |
| RecordIdentity.WritesNeverOverwrite | agents/coordinator.py:2517-2526 | no write changes a file that exists |
| RecordIdentity.PersistRefusedIff | agents/coordinator.py:2512-2526 | after any writes of episodes, a record is refused exactly when an earlier write took its canonical name (same incident, a partial that spells it, or a repeated record whose follow-up spells it) and an earlier write took its follow-up name (an incident whose id spells it, or a repeated record with the same ids); all by the ids of earlier writes |
| RecordIdentity.DistinctRecordsCanClash | agents/coordinator.py:2521-2526 | a record can be refused although none with its identity exists, when another incident's id is its follow-up name |
| RecordIdentity.TrajectoryStore.Persist | agents/coordinator.py:2512-2526 | canonical name first, then the follow-up name, each created exclusively |
| RecordIdentity.TrajectoryStore.SavePartial | agents/coordinator.py:2738-2743 | the partial name, created exclusively |
| Measurement.CollectChecks | bench/candidate_measurement.py:434-467 | the loop gives the parsed checks, or fails on a malformed or repeated one |
| Measurement.CollectActions | bench/candidate_measurement.py:609-628 | the loop gives the actions in event order, or fails on a malformed one |
| MeasurementReading.ChecksAccepted | bench/candidate_measurement.py:434-467 | a list of checks is accepted exactly if each is well formed, no required one calls itself optional, and no id comes twice |
| MeasurementReading.VerificationAccepted | bench/candidate_measurement.py:399-482 | a verification is accepted exactly if it is of this scenario, its status goes with its resolution, its checks are proper, and no required check failed where it passed |
| MeasurementAcceptance.EpisodeAccepted | bench/candidate_measurement.py:366-628 | an episode is accepted exactly if its verifications, facts and actions are well formed and do not contradict each other, at most one verification precedes the actions, and an eligible one has an alert before that and nothing of the model |
| MeasurementReading.PostIsRead | bench/candidate_measurement.py:399-482 | the observations of an accepted episode are its post-action verifications, in order, each with the fields of its event and every check with its own result |
| MeasurementReading.ActionsAreRead | bench/candidate_measurement.py:609-628 | its actions are its action events, in order, each with its own fields |
| MeasurementReading.AdmissionRead | bench/candidate_measurement.py:484-607 | it is eligible exactly if the fault was authorised and observed, an alert delivered, and the verifier saw the incident unresolved before; ineligible exactly if one of these is denied |
| MeasurementAgreement.ParsedIsOrdered | bench/candidate_measurement.py:551-579 | in an accepted eligible episode the first delivered alert precedes every action |
| MeasurementAgreement.ResolutionMatchesRecovery | bench/candidate_measurement.py:929-1076 | resolution is 1 exactly when the recovery-time pass has a recovery endpoint, at the same event |
| MeasurementAgreement.ResolutionMeansRecovered | bench/candidate_measurement.py:752-807 | resolution is 1 exactly when an admitted, settled episode has a passed observation after an executed action and before cleanup, the endpoint being the first |
| MeasurementAgreement.ResolutionMeansNegative | bench/candidate_measurement.py:809-835 | resolution is 0 exactly on a model failure, no executed attempt, or a last observation in sight that is unresolved |
| MeasurementAgreement.OutcomeMatchesResolution | bench/candidate_measurement.py:1079-1108 | the classification recomputes pending to the same answer, and is recovered or negative exactly with resolution 1 or 0 |
| MeasurementReasons.MeasurementTold | bench/candidate_measurement.py:752-1108 | for every accepted episode: the exact value, reason and endpoint of its resolution, the exact endpoints and reason of its recovery time, and its class, told from the observations in sight |
| MeasurementAgreement.ParsedIsSound | bench/candidate_measurement.py:399-482 | a verification that passed has no failed required check |
| MeasurementAgreement.ScoreShape | bench/candidate_measurement.py:631-749 | a score is exactly 1 when recovery is verified and otherwise within a quarter of zero |
| MeasurementReading.ScoreExact | bench/candidate_measurement.py:631-749 | exactly which episodes have a score, and the score: 1 on verified recovery, else a quarter of the share of required checks that passed, less a quarter exactly if some action claimed resolution |
| Replay.OrderedMissingIds | bench/candidate_adapters.py:127-137 | accepts exactly the ordered subsequences of the schedule and returns the rest of it |
| Replay.ParseRows | bench/candidate_replay.py:698-736 | the pass over rows accepts exactly rows at increasing places of the schedule |
| Replay.ArmMembership | bench/candidate_replay.py:698-771 | per arm, the accepted rows are an ordered subsequence, and observed and missing scenarios are all of them |
| Replay.CountsAreConserved | bench/candidate_replay.py:828-854 | eligible, ineligible, undetermined and missing episodes add up to the scheduled count, missing being the scheduled scenarios that no episode has |
| Replay.Summarize | bench/candidate_replay.py:865-930 | a population metric is null when something blocks it or an eligible episode has no value, and else the mean over the eligible episodes |
| Replay.ResolutionRateIsRecovered | bench/candidate_replay.py:893-930 | the resolution rate is reported exactly when nothing is missing, no episode is undetermined, pending, or ineligible although something was attempted, and the eligible episodes, some in number, are all recovered or negative; it is recovered over eligible, in 0 to 1 |
| Replay.RewardIsMeanScore | bench/candidate_replay.py:865-930 | the reward is reported exactly when the same holds and every eligible episode has a score; it is the mean of their scores, between minus a quarter and one |

## Left out

- HTTP routes, pages, the event stream, telemetry and webhook authentication: input, output and presentation.
- Model, judge and tool calls, Kubernetes, Prometheus and Alertmanager clients: oracles whose answers are inputs.
- SQLite, file locking and asyncio internals: only atomic transactions, exclusive create, task flags and done callbacks are kept.
- Redaction and truncation of evidence: an abstract function; the journal uses only that it leaves ids and the source as they are, and records are taken after it.
- The branch where registering a done callback fails (agents/incident_dispatch.py:372-383).
- Alert correlation (`_should_correlate`) and the digests of occurrence keys: a batch's incident is an input, and keys come from abstract functions of alert and envelope.
- Object identity: queues, workers, requests and permits are named by numbers, and a permit is compared by its contents, which hold its name.
- Random identifiers: drawn from a counter.
- `CircuitBreaker.reset` and `IncidentCorrelator.reset`: the start of a new history.
- An accepted breaker call is placed at its latest clock reading; the time between that reading and the call is not modelled.
- Two audit log objects open on one file at once: the source's lock is per object, and one process keeps one.
- A torn audit line is covered only by `Audit.TornLineIsFatal`; the journal's runs have no torn writes.
- Two coordinators on one execution at once: dispatch gives each handler call its own execution id.
- Roles other than remediation in the tool loop, forced conclusions, narration and trajectory records.
- The failure category in the note of the coordinator's failure handler: the exception is not modelled.
- The circuit breaker inside the tool loop: an oracle there, although it is modelled by itself.
- Mutations in a mode that is not operational: the source journals none, and the joint runs are operational.
- PrintedObjects.PrintedObjectPickedIff: strings that hold an opening brace and text with further ones around the object, because a block that starts there is no printed object and only the parser knows what it reads; `BraceScanner.OutermostPickedIff` covers them.
- Argument checks, ownership checks and the second read for the verification target in `prepare_action`: an oracle that turns the resource read into an intent or a refusal.
- The sort in `_rollback_template`: the newest candidate and a tie for it are found in one pass.
- The order in which the workload resolvers report errors: an alert that fails several checks may fail another one first, with the same result.
- Case-insensitive file systems, and in `list_incident_history` the sorting, offsets and the limit on the number of records; a page is the candidates of a given list of names.
- Records nested too deeply for the reader, the payload's text and its size as bytes: a payload says whether it can be serialised, how large it is, and whether its numbers are finite and its keys distinct.
- Writes that fail or stop in the middle of a record file.
- Two dispatchers at work on one incident at once: nothing in the source keeps them apart, and only the admission of keys does in the model.
- Validation of episodes, contracts and timestamps in the measurement, beyond what its passes read; diagnosis scores.
- Identity, digest and scope checks of replay rows; the mean time to recovery.
- Floating point: scores and rates are real numbers.
