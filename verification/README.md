# Helix Prime: a verified model of the control plane, the cockpit and the operations twin

This project models the parts of Helix Prime that decide, remember and count, and proves what they promise.
`dafny verify dfyconfig.toml` covers the whole of it.

**The control-plane workflow runtime.** `EngineSpec` says, as functions on values, what submit, approve, execute,
cancel, the kill switch and every lost audit write do to the stored workflows; `EngineProofs` shows what each call
keeps, `EngineTheorems` what every run therefore guarantees and `EngineCases` what each call comes to. `EventStore` and `AuditTrail` treat the two tables that
several writers share, under every interleaving. `ControlPlane` and `Engine` are the same runtime as objects that
change in place (store, trail, workflow, kill switch, engine), each method proved equal to the corresponding function.

**The governed task manager and its ledger.** `RoleCatalog` is the gate, `Ledger` the hash chain, `GovernedTasks` what
the manager does to its two tables, `GovernedTaskProofs` what every run guarantees, `GovernedManager` the objects, and
`GovernedTraffic` any number of managers on the same tables.

**The cockpit.** `LeastSquares` and `BacklogVelocity` are the arithmetic on the rolling window, `Cockpit`,
`CockpitProofs` and `CockpitEngine` the intervention state machine, `Outbox` and `OutboxManager` the bounded fan-out.

**The twin, the supervisor and the stored form.** `ErlangC` and `Telemetry` are the queueing arithmetic, `Supervision`
and `SupervisorProcess` the delivery loop, `Codec` the dictionaries in which workflows are stored and `Spelling` how
their keys and values are spelled.

Handlers, audit outages, clock readings, random draws, fresh ids and the answers of the screening checks are inputs of
each call, so every statement holds for all of them. Requests and approvals are those their constructors accept. Hashes
are functions without collisions, `exp` and `log` are functions known by sign and order, money is integer cents,
measurements are real numbers.

## What the proofs found

Where the code does not do what is said of it, the code is kept and the exact condition is proved.

- Cancelling needs an actor only after the row is stored. With a blank one the workflow is left `cancelled`, its events
  end in the state before, and the call raises; a second cancel is refused. A replay ends in the stored state if and
  only if no such call took effect (`ReplayTellsState`, `RunStrandsExactly`, `BlankActorStrands`,
  `ReplayCanFail`).
- However often one execute call is repeated, it calls the handler at most `max_retries + 1` times if and only if what
  decides the retry loop, the first dict or the last attempt, is not a dict that cannot be written as JSON
  (`BudgetHoldsExactlyUnlessStuck`). With such a dict both writes in the loop raise, the row stays `executing`, and
  every further execute call runs the handler again (`UnwritablePayloadRunsAgain`, from an empty runtime in
  `UnwritablePayloadRunsFromScratch`). Over any run the calls are exactly those `RunIsCounted` adds up.
- An accepted call is the last one unless its dict, already stored, cannot be put into text for the audit record. Then
  the handler is called again, and the workflow ends `succeeded` with the call raising (`RedoStopsExactly`).
- Exhausted retries end in the dead-letter queue unless the text of the last failure is blank and its audit write
  landed: then the error record itself raises and the workflow stays `failed` (`LoopEndsExactly`,
  `ExhaustedStaysFailedExactly`, `SilentHandlerStaysFailed`).
- A refused submission is stored dead-letter, unless the refusal gives no reason; then it raises and stores nothing. A
  denial by the authorisation without a reason is caught where it was made, and stored as unauthorised
  (`RefusalIsStoredExactly`).
- The audit trail compares a record's tip with the head before its transaction begins. Two writers can pass that
  comparison and both insert, and the trail forks. It is one chain if and only if no record landed between another's
  check and its insertion (`TrailIsChainExactlyWithoutRaces`, `TwoWritersFork`); a tree of records, each of them written
  once, it always is (`EveryRunIsOrderly`).
- A second governed manager can part the task table from the ledger in three ways: a write from a record that another
  write has overtaken, since the row is updated without looking at its state; a head that moves between its reading and
  the store's check, since the row is rewritten before either; and a ledger row that goes in before that of an earlier
  write to the task. The two agree at every moment of a run if and only if none of these happens
  (`TrafficAgreesExactly`; for one write, `CommitAgreesExactly`). A task rejected by one manager can thus be executed on
  the stale approval of another, with the chain intact (`StaleApprovalRevives`, `StaleApprovalIsReached`). The ledger is
  one chain if and only if no row is inserted after the head has moved since its check (`TrafficForksExactlyOnRace`).
- `verify_audit_chain` walks the first 100000 rows only, so a verified head binds the history exactly for ledgers of
  at most that length (`HeadIsBindingExactlyWhenWalked`, `TailIsUnchecked`).
- The target `_commit_state` rewrites to `awaiting_approval` is a legal move except when approved work is held back
  without a human token, which no public call asks for (`TargetIsLegalUnlessApprovedIsHeldBack`).
- The gate's comment says that no human approval could make an oversight-only seat execute. The holds are checked
  first, so its task is held like anybody's when it crosses a boundary, and somebody with another id who may cover the
  cost can release it (`OversightRunsExactly`, an if-and-only-if, and `OversightTaskCanRun`, a run that does).
- `complete` is documented for tasks in `executing`; with `failed` it works from every state that has an edge to
  `failed` (`CompleteKeepsBook`).
- A workflow stored with the governance correlation is read back without its actor id; every other one is read back
  as it was (`StoredWorkflowIsReadBack`, an if-and-only-if; `ActorIdIsLost` is one such workflow).
- A backlog that rises by at most 15 calls per tick cannot fire the velocity trigger if and only if, on the stamps of
  the window, the slope of the sample numbers times the median gap is at most 1 and no first part of the window is
  later on average than the whole, or no stamp is later than the one before it (`RacesExactlyUnlessTame`). Where stamps
  increase the product alone decides (`ForwardClockRacesExactly`); even ticks meet the condition
  (`EvenWindowCannotRace`), some uneven ones do not (`UnevenWindowCanRace`). The slope is per second, the conversion to
  ticks uses the median gap.
- The outbox's documentation says that a frame that fails to serialise is counted and discarded. In the code sending
  is where it fails, so it is not counted, and every subscriber it was meant for is pruned
  (`UnsendableFrameEmptiesThePool`).
- The supervisor gives up at once, without rejecting, on 1xx and 3xx answers (`GivenUpStatuses`): the tick is dropped
  after one attempt.

## Model

| member | source | states |
|---|---|---|
| WorkflowStates.ExecutingAtMostOnce | control_plane/workflow.py:49-99 | No path along the transition table, forced jumps to dead-letter included, enters executing twice |
| WorkflowStates.SucceededOnlyThroughExecuting | control_plane/workflow.py:49-99 | Succeeded is only ever entered from executing |
| SegregationOfDuties.ApprovalSodVerdict | contracts/segregation_of_duties.py:73-191 | An approval is clean if and only if two actor ids, two roles where asked for, and a mandate to review, by the catalog's lists, are involved; the violation told is the first met |
| RoleCatalog.NormalizeEngineIsIdempotent | control_plane/governance.py:608-612 | Normalising an engine name a second time changes nothing, aliases included |
| RoleCatalog.SeatsGoBeforeNames | control_plane/governance.py:626-646 | An actor resolves to the seat of its own id, else to the one its crew name stands for, else to the fallback's, else to none |
| RoleCatalog.ResolvedRoleIsFound | control_plane/governance.py:615-646 | Whoever resolves to a role resolves to one the catalog has, as long as no crew name stands for an unknown seat |
| RoleCatalog.OwnershipIsByName | control_plane/governance.py:201-216 | A named engine is owned if and only if it is not blank and some owned engine normalises to the same name |
| RoleCatalog.VerdictFlags | control_plane/governance.py:961-1107 | The gate's three verdicts are told apart by its flags, and asking for approval never runs alone |
| RoleCatalog.GateDecidesExactly | control_plane/governance.py:961-1107 | Denied, held or run, by what is true of the task: clearance for seat, data and normalised engine name first, then the three boundaries, then oversight |
| RoleCatalog.GateSaysWhy | control_plane/governance.py:961-1107 | The reason code is that of the first rule the task meets, the limit the seat's own |
| RoleCatalog.ForeignEngineIsDenied | control_plane/governance.py:1021-1034 | A task naming an engine that no owned name normalises to is denied, whatever else is true of it |
| RoleCatalog.AutonomyIsMonotone | control_plane/governance.py:961-1107 | A task that runs alone still does when it costs less and is surer |
| RoleCatalog.OversightNeverRunsAlone | control_plane/governance.py:1037-1085 | The gate never lets an oversight-only seat execute unaided |
| Ledger.AppendKeepsLinked | control_plane/governance.py:1599-1639 | Appending at the current head keeps the chain linked |
| Ledger.HeadDeterminesLedger | control_plane/store.py:534-649 | Two linked ledgers with the same head hash are equal row by row |
| Ledger.TailIsUnchecked | control_plane/store.py:614-649 | Past the rows the walk covers, a row can be rewritten and the ledger still verifies with the same head |
| Ledger.HeadIsBindingExactlyWhenWalked | control_plane/store.py:614-649 | Verification and the head bind the whole history if and only if there are at most 100000 rows |
| GovernedTaskProofs.TargetIsLegalUnlessApprovedIsHeldBack | control_plane/governance.py:1540-1570 | The rewritten target is a legal move if and only if approved work is not being held back |
| GovernedTaskProofs.CommitKeepsBook | control_plane/governance.py:1522-1597 | The choke point keeps ledger and task table in agreement |
| GovernedTaskProofs.SubmitKeepsBook | control_plane/governance.py:1287-1381 | A submission succeeds if and only if it is admissible, and ends in the state and with the reason the gate named, the request's columns as asked, and an error exactly when denied |
| GovernedTaskProofs.ApproveKeepsBook | control_plane/governance.py:1385-1444 | An approval releases the task if and only if an able approver with another id gives it to a frozen task |
| GovernedTaskProofs.RejectKeepsBook | control_plane/governance.py:1446-1462 | A rejection cancels a frozen task and keeps the agreement |
| GovernedTaskProofs.CompleteKeepsBook | control_plane/governance.py:1464-1494 | Recording a result succeeds exactly along a legal edge, stores output, error and reason, and keeps the agreement |
| GovernedTaskProofs.RunKeepsBook | control_plane/governance.py:1271-1639 | Every run of calls keeps the agreement |
| GovernedTaskProofs.LedgerVerifies | control_plane/store.py:614-649 | Every ledger the manager writes passes verification |
| GovernedTaskProofs.LedgerTellsEveryTask | control_plane/governance.py:1336-1381 | A task's rows form one connected legal path from proposed to the state in the table |
| GovernedTaskProofs.LedgerTellsDecisions | control_plane/governance.py:1572-1639 | Every later row says held exactly where the task waits, denied exactly where it failed or is dead-letter, and carries the task's own facts |
| GovernedTaskProofs.ExecutionIsEarned | control_plane/governance.py:961-1107 | A row of executing directly follows one of validated, and then the task passes the gate alone, or one of approved by somebody with another id able to cover it |
| GovernedTaskProofs.HeldWorkNeedsRelease | control_plane/governance.py:1385-1444 | A task that was ever held, for whatever reason, executes only later and on such a release |
| GovernedTaskProofs.OversightNeedsRelease | control_plane/governance.py:1037-1085 | An oversight-only seat's task executes only after such a release |
| GovernedTaskProofs.SubmittedRunsExactly | control_plane/governance.py:1287-1444 | A submission and one approval end in executing if and only if the gate let the task run, or held it and an able approver with another id approved |
| GovernedTaskProofs.OversightRunsExactly | control_plane/governance.py:1037-1085 | For an oversight-only seat: if and only if the task is cleared, crosses a boundary, and an able approver with another id approved |
| GovernedTaskProofs.OversightTaskCanRun | control_plane/governance.py:1037-1085 | A run from empty tables that ends with an oversight-only seat's task executing |
| GovernedTaskProofs.MayCoverExactly | control_plane/governance.py:1407-1424 | An approver may release a task if and only if it resolves to a known seat whose limit, if any, is not below the cost |
| GovernedTaskProofs.ProposalIsTheRequest | control_plane/governance.py:1301-1312 | The gate is asked with the request's own figures, for the seat the actor resolves to or for none |
| GovernedTaskProofs.EngineIsNormalised | control_plane/governance.py:1297-1299 | The engine named at the call goes before the request's own, and is normalised |
| GovernedTaskProofs.SuccessFollowsExecution | control_plane/governance.py:1464-1494 | Succeeded is recorded only straight after executing |
| GovernedTaskProofs.HeadTellsTheRun | control_plane/governance.py:1239-1260 | Two runs that end in the same head hash wrote the same ledger |
| GovernedTraffic.CommitAgreesExactly | control_plane/governance.py:1522-1639 | One write from any record a manager holds, others appending meanwhile: table and ledger agree on the task if and only if the record was current and the move legal, or, when the call raised, the row already said so |
| GovernedTraffic.CommitForksExactlyWhenRaced | control_plane/store.py:534-577 | The ledger stays linked if and only if nothing was appended between the store's check and its insertion |
| GovernedTraffic.CommitIsFourActions | control_plane/governance.py:1522-1639 | Undisturbed, rewriting the row, reading the head, checking it and inserting make up one state write |
| GovernedTraffic.ActPartsExactly | control_plane/governance.py:1522-1639 | An action of any manager keeps every task's moves leading to its stored state, unless it is one of the three that part the tables |
| GovernedTraffic.TrafficAgreesExactly | control_plane/governance.py:1522-1639 | In every interleaving of any number of managers on any tasks, table and ledger agree at every moment if and only if no write was stale, found the head moved or overtook an earlier one |
| GovernedTraffic.QuietTrafficIsTold | control_plane/governance.py:1599-1639 | Then, with no write under way, every task's ledger rows are one legal path to its stored state |
| GovernedTraffic.TrafficForksExactlyOnRace | control_plane/store.py:534-577 | In every interleaving the ledger is one chain if and only if no row was inserted after the head moved since its check |
| GovernedTraffic.StaleApprovalRevives | control_plane/governance.py:1385-1462 | A task one manager rejects is executed on another's stale approval; the chain is intact, the history is not one |
| GovernedTraffic.StaleApprovalIsReached | control_plane/governance.py:1287-1444 | One submission from empty tables leads to such a task |
| GovernedManager.GovernanceStore.InsertWorkflowTask | control_plane/store.py:408-458 | A fresh task is inserted, a taken id is an error and changes nothing |
| GovernedManager.GovernanceStore.UpdateWorkflowTaskState | control_plane/store.py:460-497 | Exactly the mutable columns of one known task are rewritten |
| GovernedManager.GovernanceStore.AppendAuditEvent | control_plane/store.py:534-577 | A row is appended if and only if it is signed, new and names the head |
| GovernedManager.GovernanceStore.VerifyAuditChain | control_plane/store.py:614-649 | The walk answers true if and only if the rows it covers are linked |
| GovernedManager.GovernedWorkflowManager.AppendAudit | control_plane/governance.py:1599-1639 | One row, at the head, for the task at hand |
| GovernedManager.GovernedWorkflowManager.Reexamine | control_plane/governance.py:1540-1570 | Work about to start unaided is put before the gate again, which may hold it back |
| GovernedManager.GovernedWorkflowManager.CommitState | control_plane/governance.py:1522-1597 | For the only manager at work: the tables after the choke point are those of the specification, and raising leaves them alone |
| GovernedManager.GovernedWorkflowManager.Submit | control_plane/governance.py:1287-1381 | The tables after a submission are those of the specification |
| GovernedManager.GovernedWorkflowManager.Settle | control_plane/governance.py:1355-1381 | The two writes after proposing |
| GovernedManager.GovernedWorkflowManager.Approve | control_plane/governance.py:1385-1444 | The tables after an approval are those of the specification |
| GovernedManager.GovernedWorkflowManager.Release | control_plane/governance.py:1420-1444 | Approved, then executing, on the human's token |
| GovernedManager.GovernedWorkflowManager.Reject | control_plane/governance.py:1446-1462 | The tables after a rejection are those of the specification |
| GovernedManager.GovernedWorkflowManager.Complete | control_plane/governance.py:1464-1494 | The tables after a recorded result are those of the specification |
| KillSwitch.EngageKeepsRecords | control_plane/kill_switch.py:195-214 | Engaging, audit write lost or not, leaves every halt in force with its record |
| KillSwitch.ReleaseKeepsRecords | control_plane/kill_switch.py:216-232 | So does releasing |
| KillSwitch.EngageHaltsExactly | control_plane/kill_switch.py:155-214 | A recorded engagement halts exactly its tenant, or everybody |
| KillSwitch.ReleaseLiftsExactly | control_plane/kill_switch.py:155-232 | A release lifts exactly the halt it names, even if its own record is lost |
| EngineProofs.SubmitKeepsWorld | control_plane/engine.py:433-1085 | A submission, audit failures injected anywhere, keeps the runtime's invariant |
| EngineProofs.ApproveKeeps | control_plane/engine.py:1087-1245 | So does an approval |
| EngineProofs.AttemptsKeep | control_plane/engine.py:1304-1456 | So does the retry loop, from any attempt on |
| EngineProofs.ExecuteKeeps | control_plane/engine.py:1247-1460 | So does an execution |
| EngineProofs.CancelKeeps | control_plane/engine.py:1462-1481 | So does a cancellation, except that one without an actor's name leaves the log one move behind the stored cancelled state |
| EngineProofs.RunKeepsWorld | control_plane/engine.py:433-1481 | Every run keeps the runtime's invariant, in which only a cancelled workflow's log may be one move behind |
| EngineTheorems.ReplayTellsState | control_plane/engine.py:177-196 | A workflow's replay is numbered from zero and moves legally; it ends in the stored state if and only if no effective cancel of it came without an actor's name |
| EngineTheorems.RunStrandsExactly | control_plane/engine.py:1462-1481 | A run leaves a workflow in the state cancelled if and only if it was there, or an effective cancel of it came without an actor's name |
| EngineTheorems.BlankActorStrands | control_plane/engine.py:1462-1481 | Such a cancel raises, stores cancelled, writes no event, and every later cancel is refused |
| EngineTheorems.ReplayCanFail | control_plane/engine.py:1462-1481 | A run from an empty runtime that ends with a replay one state behind the stored cancelled one |
| EngineTheorems.ExecutionIsAuthorised | control_plane/engine.py:912-1181 | Work that started did so once: under a proper approval by an actor with another id, or past the gate without needing one |
| EngineTheorems.DeniedWorkNeverStarts | control_plane/engine.py:912-975 | Over every run, whatever is approved, work the gate denied or could not judge is never started |
| EngineTheorems.StartedWorkIsInBounds | control_plane/engine.py:912-1181 | Started work is cleared for data and engine; without an approval it is also within its seat's limit, sure enough, and not an oversight-only seat's |
| EngineTheorems.ProposalIsTheRequest | control_plane/engine.py:912-940 | The gate is asked with the request's own figures, for the seat the actor resolves to or else the owning role |
| EngineTheorems.KeysAreIdempotent | control_plane/engine.py:447-452 | One workflow per idempotency key, and submitting the key again changes nothing |
| EngineTheorems.HandlerCallsAreBounded | control_plane/engine.py:1304-1413 | In every run: with payloads that can be written and put into text the accepted call is the last, retry_count is the number that failed, and there are at most max_retries + 1 calls |
| EngineTheorems.BudgetHoldsExactlyUnlessStuck | control_plane/engine.py:1304-1413 | Repeating an execute call never takes more than max_retries + 1 handler calls, if and only if the answer that decides the loop is not a dict that cannot be written |
| EngineTheorems.RunIsCounted | control_plane/engine.py:1247-1413 | Over every run a workflow's handler is called once per answer that the executions let in needed, and not otherwise |
| EngineTheorems.ReachedCallsAreCounted | control_plane/engine.py:1247-1413 | From an empty runtime that is the number of its calls |
| EngineTheorems.StuckLoopKeepsRow | control_plane/engine.py:1304-1413 | A loop decided by a dict that cannot be written changes nothing in the row but the count of retries |
| EngineTheorems.EveryHaltIsRecorded | control_plane/kill_switch.py:195-232 | In every run each halt in force has its engage record |
| EngineTheorems.LoopStopsExactly | control_plane/engine.py:1304-1413 | The loop calls the handler up to the first dict or the last attempt, further only after one that does not go into text, and stores the output; it raises on the payload if and only if the last dict cannot be written |
| EngineTheorems.RedoStopsExactly | control_plane/engine.py:1304-1415 | After a stored success that could not be reported the handler is called up to the last attempt or an unwritable dict, and the call raises with the workflow succeeded |
| EngineTheorems.LoopEndsExactly | control_plane/engine.py:1304-1460 | Executing, succeeded, failed, closed or dead-letter after the loop, each if and only if the deciding answer, its error text and the audit writes are as stated |
| EngineTheorems.ExhaustedStaysFailedExactly | control_plane/engine.py:1415-1460 | The loop ends in failed if and only if no attempt gave a dict, the failure was audited and the last error text is blank |
| EngineTheorems.SilentHandlerStaysFailed | control_plane/engine.py:1415-1460 | A handler that throws without a word leaves the workflow failed, and the call raises |
| EngineTheorems.RefusalIsStoredExactly | control_plane/engine.py:453-837 | A refused or denied submission is stored dead-letter with its code and reason if and only if it is a denial or gives one; otherwise nothing changes |
| EngineTheorems.UnwritablePayloadRunsAgain | control_plane/engine.py:1304-1413 | With an unwritable payload n executions call the handler n more times and leave no trace in the row |
| EngineTheorems.UnwritablePayloadRunsFromScratch | control_plane/engine.py:1304-1413 | Registered, submitted and executed n times from an empty runtime, such a handler has been called n times |
| EngineTheorems.HaltStopsCall | control_plane/engine.py:359-446 | A committal call covered by a halt raises and changes nothing |
| EngineTheorems.HaltFreezesTenant | control_plane/engine.py:359-446 | Over any run without its release, a halt freezes the tenant's workflows except for cancelling them |
| EngineTheorems.TenantIsFixed | control_plane/workflow.py:315-348 | No run changes the tenant a workflow was stored with |
| EngineTheorems.HaltIsInvisibleToOthers | control_plane/kill_switch.py:155-187 | Another tenant's call answers and acts as if the halt were not there |
| EngineTheorems.HaltIsInvisibleToRuns | control_plane/kill_switch.py:155-187 | So do whole runs of other tenants |
| EngineTheorems.CancelIgnoresHalts | control_plane/engine.py:1462-1481 | Whatever is halted, a cancel closes the workflow and returns if and only if its actor has a name, and otherwise only stores cancelled |
| EngineCases.SubmissionIsHaltedExactly | control_plane/engine.py:441-446 | A submission is halted exactly by a global halt, one on its correlation's or else its own tenant, or a blank tenant |
| EngineCases.SubmissionIsStored | control_plane/engine.py:822-867 | A new workflow is stored under key and id with what was asked for, and nothing else is touched |
| EngineCases.UnauditedSubmissionFailsClosed | control_plane/engine.py:839-911 | A lost audit write before the gate leaves it dead-letter, for the lost trail, never started |
| EngineCases.SubmissionEndsExactly | control_plane/engine.py:912-1085 | State, error code, answer and approval flag after the gate, case by case: raised, denied, held, late, to be approved, started, trail lost |
| EngineCases.ApprovalIsRefusedExactly | control_plane/engine.py:1087-1146 | An approval is acted on if and only if it meets none of five objections, and raises the first it meets with nothing changed |
| EngineCases.ApprovalActsExactly | control_plane/engine.py:1147-1245 | A proper approval is stored and leaves the work executing, or dead-letter with approval_denied or the lost trail, each if and only if decision and audit writes say so |
| EngineCases.ApprovalStartsExactly | control_plane/engine.py:1087-1245 | Over all approvals of a known, unhalted workflow: executing afterwards if and only if it was, or was awaiting a proper, granted approval whose two audit writes landed |
| EngineCases.CancelIsRefusedExactly | control_plane/engine.py:1462-1475 | A cancel is refused exactly for work that has succeeded, been compensated, or come to an end |
| EngineCases.RegistrationAddsExactly | control_plane/engine.py:166-175 | A registration adds its stripped capability and no other, unless it is blank |
| EngineCases.EngagementAnswersExactly | control_plane/kill_switch.py:195-214 | A halt takes force exactly with reason, name, a usable tenant and its record; otherwise it raises and nothing changes |
| EngineCases.ReleaseAnswersExactly | control_plane/kill_switch.py:216-232 | A release lifts the one halt it names, even when its record is lost and it raises |
| EngineCases.LateOrUnhandledEndsExactly | control_plane/engine.py:1262-1301 | Late work ends dead-letter as timed out, other work without a handler as not found, and nothing is called |
| EngineCases.RestingIsNotExecuted | control_plane/engine.py:1247-1262 | Executing what is not executing raises and changes nothing |
| EngineCases.ExecutionIsTheLoop | control_plane/engine.py:1318-1460 | Any other execution is the retry loop from its first attempt |
| EngineCases.LoopErrsExactly | control_plane/engine.py:1415-1460 | The error a dead-letter leaves is the lost trail, or the stripped text of the last failure |
| EngineCases.LoopIsNotedExactly | control_plane/engine.py:1371-1410 | The log gains one failure event and one retry event for every attempt neither accepted nor unwritable |
| EventStore.AppendAllStaysDense | control_plane/store.py:257-321 | Any appends, in any interleaving, leave a dense table dense |
| EventStore.NumbersAreAlwaysDense | control_plane/store.py:257-340 | Under any interleaving of appends each workflow's events are numbered 0 to n-1 in order |
| EventStore.AppendAllOnlyExtends | control_plane/store.py:257-321 | Appends never rewrite a log |
| EventStore.AppendLandsExactlyWhenUndisturbed | control_plane/store.py:257-340 | An event with the number read before lands if and only if nobody wrote to that workflow meanwhile |
| ControlPlane.Workflow.Transition | control_plane/workflow.py:227-240 | The state changes if and only if the table allows it |
| ControlPlane.Store.CreateWorkflow | control_plane/store.py:162-213 | A known key gives back its workflow, a taken id is an error, otherwise the row is stored under both |
| ControlPlane.Store.UpdateWorkflow | control_plane/store.py:233-247 | Only a stored workflow can be rewritten, and only it is |
| ControlPlane.Store.GetNextSequence | control_plane/store.py:331-336 | One past the greatest number in use is the number of the workflow's events |
| ControlPlane.Store.AppendEvent | control_plane/store.py:257-321 | An event lands if and only if it is new and numbered next; nothing else changes |
| ControlPlane.Store.GetEvents | control_plane/store.py:323-340 | The workflow's events, numbered from zero |
| ControlPlane.Trail.Append | security/audit.py:283-345 | A record whose tip is not the head is refused; one that lands keeps the chain if and only if nothing landed between the comparison and the insertion |
| ControlPlane.Trail.Insert | security/audit.py:323-338 | The insertion keeps one chain if and only if the trail is as long as it was at the comparison |
| ControlPlane.Trail.Write | control_plane/engine.py:233-281 | With one retry on a fresh tip, exactly one record of the operation lands, naming the head at the check, or none does; which of these, and whether the trail is still one chain, is an if-and-only-if |
| ControlPlane.HaltSwitch.IsHalted | control_plane/kill_switch.py:155-193 | Global halt, the tenant's halt, or a tenant that cannot be looked up |
| ControlPlane.HaltSwitch.Engage | control_plane/kill_switch.py:195-214 | Recorded first, then in force; every halt stays recorded on the trail |
| ControlPlane.HaltSwitch.Release | control_plane/kill_switch.py:216-232 | Lifted first, then recorded if possible |
| Engine.WorkflowEngine.EmitEvent | control_plane/engine.py:177-196 | Exactly one event, numbered next, goes to the workflow and to no other, if and only if its actor has a name |
| Engine.WorkflowEngine.ChainTip | control_plane/engine.py:198-210 | The tip is read at most once and remembered |
| Engine.WorkflowEngine.Audit | control_plane/engine.py:212-297 | The trail only grows; the operation's record is on it if and only if the write succeeded, then as the last one, with its hash remembered as the tip |
| Engine.WorkflowEngine.FailClosed | control_plane/engine.py:299-327 | From any state: dead-letter, the error, one event, and no other workflow touched |
| Engine.WorkflowEngine.EnforceNotHalted | control_plane/engine.py:359-431 | Committal work is refused if and only if a halt covers the tenant |
| Engine.WorkflowEngine.Submit | control_plane/engine.py:433-1085 | Runtime and answer after a submission are those of the specification, for some set of audit writes that landed |
| Engine.WorkflowEngine.Launch | control_plane/engine.py:839-911 | Created, then validated, failing closed where an audit write is lost |
| Engine.WorkflowEngine.PassGate | control_plane/engine.py:912-1085 | Refused, held, late, waiting for approval or started, as the gate and the deadline say |
| Engine.WorkflowEngine.Approve | control_plane/engine.py:1087-1245 | Runtime and answer after an approval are those of the specification |
| Engine.WorkflowEngine.Grant | control_plane/engine.py:1147-1193 | Approved and then executing, each audit write failing closed |
| Engine.WorkflowEngine.Decline | control_plane/engine.py:1194-1243 | Dead-letter with the reason, failing closed if the audit write is lost |
| Engine.WorkflowEngine.Execute | control_plane/engine.py:1247-1460 | Runtime and answer after an execution are those of the specification |
| Engine.WorkflowEngine.RunAttempts | control_plane/engine.py:1304-1413 | The loop ends as the recursive specification of the attempts does |
| Engine.WorkflowEngine.TakeOutput | control_plane/engine.py:1313-1373 | What an attempt that is about to fail leaves behind: a dict stored and announced, or only on the workflow at hand |
| Engine.WorkflowEngine.Accept | control_plane/engine.py:1321-1333 | Output stored, succeeded, two events |
| Engine.WorkflowEngine.Succeed | control_plane/engine.py:1313-1370 | Output stored, succeeded, closed, each audit write failing closed |
| Engine.WorkflowEngine.CountFailure | control_plane/engine.py:1371-1410 | One more retry counted and announced |
| Engine.WorkflowEngine.Exhaust | control_plane/engine.py:1415-1460 | Failed, then dead-letter, or raised on a blank error text |
| Engine.WorkflowEngine.Cancel | control_plane/engine.py:1462-1481 | Runtime and answer after a cancellation are those of the specification |
| Engine.WorkflowEngine.RegisterHandler | control_plane/engine.py:166-175 | The stripped capability gains a handler; a blank one raises and changes nothing |
| AuditTrail.EveryRunIsOrderly | control_plane/engine.py:212-297 | However engines and kill switches interleave, each write is on the trail exactly once or not at all, as its writer was told, and every record hashes to itself and names an earlier one or the start |
| AuditTrail.TrailIsChainExactlyWithoutRaces | security/audit.py:283-338 | In every run from an empty trail, the trail is one chain if and only if no record landed between another's passed check and its insertion |
| AuditTrail.TwoWritersFork | security/audit.py:283-338 | Two writers check, then insert: two records under the same parent, both told they landed |
| AuditTrail.RetryLandsExactlyWhenUndisturbed | control_plane/engine.py:253-279 | After a refusal the retry lands if and only if nobody appended between the re-read and the check, and keeps the chain if and only if nobody did between the check and the insertion |
| AuditTrail.StaleTipStillLands | control_plane/engine.py:198-281 | However stale the remembered tip, an undisturbed write lands |
| LeastSquares.SlopeIsLeastSquares | ingest_engine.py:298-309 | The slope and the line through the means have a smaller total squared error than any other line |
| LeastSquares.SlopeIsBetweenGradients | ingest_engine.py:298-309 | Over increasing stamps the slope lies between the least and the greatest gradient of neighbours |
| LeastSquares.SlopeIsDefinedExactly | ingest_engine.py:298-309 | The slope is defined if and only if two stamps differ |
| BacklogVelocity.SortedIsSorted | ingest_engine.py:471-472 | Sorting the gaps orders the same gaps |
| BacklogVelocity.MedianIsMiddle | ingest_engine.py:471-472 | At least half the gaps are at or below the median and at least half at or above it |
| BacklogVelocity.RacesExactlyUnlessTame | ingest_engine.py:459-529 | On given stamps no window with rises of at most 15 fires the velocity trigger, if and only if no stamp is later than the one before it, or the sample numbers rise by at most one per median gap and no first part of the stamps is later on average than the whole |
| BacklogVelocity.ForwardClockRacesExactly | ingest_engine.py:459-529 | On increasing stamps: if and only if the slope of the sample numbers times the median gap is at most 1 |
| BacklogVelocity.EvenWindowCannotRace | ingest_engine.py:459-529 | Evenly spaced stamps meet that condition |
| BacklogVelocity.UnevenWindowCanRace | ingest_engine.py:459-529 | The stamps 0, 10, 11, 21 do not, and some window on them fires the trigger |
| BacklogVelocity.RisingWindowMovesUp | ingest_engine.py:459-497 | A backlog that rises at every step has positive velocity |
| BacklogVelocity.SteadyRiseIsVelocity | ingest_engine.py:459-497 | On an even clock a rise of r at every tick is a velocity of r per tick, windowed and instantaneous |
| BacklogVelocity.ProjectionIsSound | ingest_engine.py:499-515 | The projection is a percentage, the drop what is lost, and growth always projects a loss |
| BacklogVelocity.FallingLineIsExtrapolated | ingest_engine.py:499-515 | Where SLA fell on a line below the backlog, the projection runs on along it for three ticks, clamped to a percentage |
| BacklogVelocity.FallbackIsProjected | ingest_engine.py:499-515 | Where it did not, a growing backlog costs 0.35 points a call, and any other nothing |
| BacklogVelocity.RisingWindowProjectsLoss | ingest_engine.py:459-515 | A rising backlog projects a strictly positive drop whenever SLA is above zero |
| BacklogVelocity.MoreLossNeverRecommendsLess | ingest_engine.py:541-597 | More loss never picks a cheaper lever |
| BacklogVelocity.LeverIsByDamage | ingest_engine.py:588-597 | Which lever, exactly, by the points missing to the target now and about to be lost, and the agents in auxiliary work |
| BacklogVelocity.ExposureIsNotNegative | ingest_engine.py:616-622 | The stated exposure is never negative |
| BacklogVelocity.ExposureIsExact | ingest_engine.py:616-622 | The exposure is, within half a cent, 50 per call about to breach times the severity between one and five |
| BacklogVelocity.ExposureGrows | ingest_engine.py:616-622 | More waiting, longer waits or a lower projection never expose to less |
| Cockpit.PushedIsKept | ingest_engine.py:318-322 | A bounded deque always holds the end of everything it was given |
| CockpitProofs.DispatchExecutesApproved | ingest_engine.py:434-457 | A dispatch executes what was approved and moves nothing else |
| CockpitProofs.DispatchedIdsAreApproved | ingest_engine.py:434-457 | The ids reported as executed are those that were approved |
| CockpitProofs.IngestKeepsSound | ingest_engine.py:336-362 | A tick keeps the cockpit's invariant |
| CockpitProofs.DecideKeepsSound | ingest_engine.py:364-402 | So does a decision, accepted or not |
| CockpitProofs.RunKeepsSound | ingest_engine.py:336-402 | So does every run |
| CockpitProofs.OneInterventionAtATime | ingest_engine.py:344-402 | At most one intervention is live, the pointer is on it exactly while it waits, and then no cooldown runs |
| CockpitProofs.ReplayTellsStatus | ingest_engine.py:386-399 | Replaying the whole history gives every recommendation's status |
| CockpitProofs.LivesAreLegal | ingest_engine.py:434-457 | Every recommendation is raised, then decided, then executed if approved |
| CockpitProofs.DecisionBuysTwoTicks | ingest_engine.py:344-384 | A decision is followed by two ticks without a raise, and by no more than two |
| CockpitProofs.RaisesExactly | ingest_engine.py:344-352 | A tick raises if and only if the service level is below 50 or the backlog grows by more than 15 a tick, nothing waits and the cooldown is over; the trigger says which |
| CockpitProofs.RaisedFiguresAreTheWindows | ingest_engine.py:531-586 | What is raised carries the figures, lever and exposure of its own window and sample |
| CockpitProofs.DecisionIsRecorded | ingest_engine.py:364-402 | Approved exactly if so decided, else rejected, with the manager's event, and nothing else moves |
| CockpitProofs.DecisionsDecideExactly | ingest_engine.py:336-402 | Over every run a recommendation is executed if and only if it was approved while pending and a tick followed, and rejected if and only if it was rejected while pending |
| CockpitProofs.ApprovalIsExecutedNextTick | ingest_engine.py:364-457 | The very next tick after an approval executes it |
| CockpitProofs.ApprovedIsExecutedNextTick | ingest_engine.py:434-457 | What was approved is executed on the next tick |
| CockpitProofs.RecommendationIsAlwaysValid | ingest_engine.py:531-586 | Every figure of a recommendation is one the schema accepts |
| CockpitEngine.CockpitStateEngine.Log | ingest_engine.py:322 | The kept log is the last 500 events of the history |
| CockpitEngine.CockpitStateEngine.Ingest | ingest_engine.py:336-362 | State, raise and executed ids after a tick are those of the specification |
| CockpitEngine.CockpitStateEngine.Raise | ingest_engine.py:572-586 | One pending recommendation, listed, pointed to and logged |
| CockpitEngine.CockpitStateEngine.DispatchApproved | ingest_engine.py:434-457 | The loop ends as the recursive specification does |
| CockpitEngine.CockpitStateEngine.Decide | ingest_engine.py:364-402 | A pending recommendation is decided; an unknown or resolved one is the matching error |
| Outbox.OutboxNeverLies | ingest_engine.py:744-829 | Bounded; drained then queued frames are the enqueued ones in order without the shed; every drop counted |
| Outbox.SubscribersSeeIncreasingNumbers | ingest_engine.py:719-829 | Under any interleaving a subscriber sees strictly increasing sequence numbers |
| Outbox.UnsendableFrameEmptiesThePool | ingest_engine.py:802-829 | A frame nobody can be sent prunes every subscriber and is not counted as dropped |
| Outbox.FanOutDelivers | ingest_engine.py:719-829 | While a frame is sent, each peer in turn is sent it once, whatever is queued and whoever comes and goes |
| Outbox.BroadcastReachesEverybody | ingest_engine.py:719-732 | A frame for all reaches every subscriber once when every send is seen, and nobody who is not one |
| Outbox.AddressedFrameReachesItsOwn | ingest_engine.py:738-829 | An addressed frame reaches its own subscriber and nobody else |
| OutboxManager.ConnectionManager.Enqueue | ingest_engine.py:744-766 | Queue, shed the oldest, or count as dropped |
| OutboxManager.ConnectionManager.Send | ingest_engine.py:802-809 | One send, pruning the peer when it fails |
| OutboxManager.ConnectionManager.Broadcast | ingest_engine.py:719-732 | The fan-out loop is one send per subscriber, and counts those delivered |
| OutboxManager.ConnectionManager.DrainOne | ingest_engine.py:811-829 | One turn of the writer takes the oldest frame, numbers it and sends it |
| ErlangC.RecursionIsSum | telemetry_simulator.py:135-148 | The recursion times its term is the sum of the terms: it is one over Erlang B |
| ErlangC.FormulaIsInverse | telemetry_simulator.py:135-148 | The textbook Erlang C formula is one over one plus the recursion's last step |
| ErlangC.Compute | telemetry_simulator.py:135-148 | The loop computes the textbook formula |
| ErlangC.WaitProbabilityIsProbability | telemetry_simulator.py:135-148 | Always in [0, 1] |
| ErlangC.WaitGrowsWithLoad | telemetry_simulator.py:135-148 | Never decreases as load grows |
| ErlangC.WaitFallsWithServers | telemetry_simulator.py:135-148 | Never increases as servers are added |
| Telemetry.BacklogIsBounded | telemetry_simulator.py:285-302 | The backlog stays in [0, 2500] over any run |
| Telemetry.DrainsInTime | telemetry_simulator.py:285-302 | With spare capacity d the backlog meets its floor within floor(2500/d) + 1 ticks |
| Telemetry.OverloadStepIsExact | telemetry_simulator.py:285-302 | With x more offered than staffed the backlog becomes (backlog + x) * exp(-300/900), at least the floor and at most 2500 |
| Telemetry.StableStepIsExact | telemetry_simulator.py:285-302 | With d to spare it becomes (backlog - d) * exp(-300/900), at least the new floor and at most 2500 |
| Telemetry.OverloadBuildsUp | telemetry_simulator.py:285-302 | Under an excess of at least x for n intervals the backlog is at least the smaller of 2500 and x times the first n powers of the survival, summed |
| Telemetry.MoreLoadMoreBacklog | telemetry_simulator.py:285-302 | At the same floor a greater load never leaves a shorter queue |
| Telemetry.EquilibriumIsMeanQueue | telemetry_simulator.py:288-296 | The floor is the mean queue of the textbook |
| Telemetry.WaitsAndSlaAreInRange | telemetry_simulator.py:303-312 | Waits and service level are in range, and the level is at least the share that never waits |
| Telemetry.SlaIsTheShareInTime | telemetry_simulator.py:303-312 | The level is the share answered within 20 seconds; the clamp never bites |
| Telemetry.LongerQueueServesWorse | telemetry_simulator.py:303-312 | A longer queue never has a better service level |
| Telemetry.LongestWaitIsExact | telemetry_simulator.py:303-312 | The longest wait is the scale times the logarithm of the calls expected to wait, up to half an hour |
| Telemetry.SpikeLastsFourteenTicks | telemetry_simulator.py:255-272 | A spike marks exactly its next fourteen ticks |
| Telemetry.VolumeClimbsThenFalls | telemetry_simulator.py:255-272 | The multiplier climbs to its peak over ten ticks and falls over the next four, within [1, 1.8] |
| Telemetry.SurgeCurveIsExact | telemetry_simulator.py:255-272 | The climb and the decay, tick by tick |
| Telemetry.Staffing | telemetry_simulator.py:274-283 | Someone is always left to take calls |
| Telemetry.StaffingFollowsTheSurge | telemetry_simulator.py:274-283 | Undisturbed all 500 are in, and the surge takes up to 48 of the 72 out of auxiliary work |
| Telemetry.LoadFollowsVolume | telemetry_simulator.py:226-253 | The offered load is proportional to the volume |
| Telemetry.TelemetryGenerator.TriggerSpike | telemetry_simulator.py:210-217 | Arming a second time does nothing |
| Telemetry.TelemetryGenerator.NextVolumeMultiplier | telemetry_simulator.py:255-272 | Multiplier, flag and counter are those of the specification |
| Telemetry.TelemetryGenerator.DeriveQueue | telemetry_simulator.py:285-312 | Backlog, floor and reported figures are those of the specification, and the backlog stays bounded |
| Telemetry.TelemetryGenerator.Advance | telemetry_simulator.py:226-245 | Queue and sample are those of the specification for the tick's spike and draws, and the schema accepts the sample whatever is drawn |
| Supervision.GivenUpStatuses | supervisor.py:132-140 | Neither delivered nor retried nor rejected are exactly the codes below 200 and the 3xx |
| Supervision.AnswersAreClassified | supervisor.py:132-140 | Delivered exactly on 2xx, worth a retry exactly when unreachable, 429 or from 500, rejected exactly on the other 4xx |
| Supervision.DelayGrowsGeometrically | supervisor.py:151-154 | The first delay is the base, each next one the factor times the last, up to the ceiling |
| Supervision.DeliveryIsCampaign | supervisor.py:335-365 | One payload's posts are numbered attempts, all but the last worth a retry, within the budget, with the waits between them |
| Supervision.GeometricSum | supervisor.py:151-154 | The uncapped delays add up to the geometric sum |
| Supervision.BackoffIsBounded | supervisor.py:151-154 | Backoff spent on a tick is within (attempts - 1) * max and within the geometric sum |
| Supervision.AccountIsHonest | supervisor.py:291-318 | Whatever is printed and answered, posts are in order and the counters are what the posts say |
| Supervision.NoBudgetFails | supervisor.py:335-365 | With no attempt allowed nothing is posted and the first envelope fails |
| Supervision.DeliveryIsOrderly | supervisor.py:291-365 | Posts are ordered by tick, at most attempts per tick, and a success is the last of its tick |
| Supervision.ExitZeroMeansDelivered | supervisor.py:455-463 | At a normal end ticks seen are delivered plus dropped, and exit 0 if and only if the twin exited 0 and every tick was delivered |
| SupervisorProcess.Supervisor.DeliverOne | supervisor.py:335-365 | Report, posts and time waited are those of the specification |
| SupervisorProcess.Supervisor.Pump | supervisor.py:291-318 | The counters after the stream are those of the specification |
| Codec.WrittenIsRead | control_plane/workflow.py:242-275 | A written dictionary says what was put into it and nothing else |
| Codec.EvidenceRoundTrip | contracts/task.py:110-149 | An accepted evidence reference is read back as written |
| Codec.ErrorRoundTrip | contracts/task.py:180-236 | So is an accepted error |
| Codec.CorrelationRoundTrip | contracts/task.py:254-308 | A correlation is read back as its base part |
| Codec.ApprovalRoundTrip | contracts/task.py:348-403 | An accepted approval is read back as written |
| Codec.StoredWorkflowIsReadBack | control_plane/workflow.py:150-312 | A stored workflow is read back as it was if and only if its correlation is not the governance one, and otherwise loses only that |
| Codec.StoredWorkflowSaysWhose | control_plane/workflow.py:242-275 | Under which key the dictionary says whose work it is |
| Codec.StoredWorkflowSaysHowFar | control_plane/workflow.py:242-275 | And under which how far it has come |
| Codec.StoredWorkflowSaysWhatCame | control_plane/workflow.py:242-275 | An output, an error or an approval is stored if and only if there is one |
| Codec.ReadWorkflowIsAccepted | control_plane/workflow.py:150-312 | Whatever a dictionary is read as, the constructor accepts |
| Codec.ReadingIsStable | control_plane/store.py:215-247 | Writing what was read and reading again gives the same workflow |
| Spelling.SourceLanguageIsSound | contracts/task.py:121-236 | The keys, states, codes and decisions as the source spells them are all told apart, whatever the time and number parsers |
| Spelling.ActorIdIsLost | control_plane/workflow.py:242-312 | A workflow the constructor accepts, stored in that spelling, is read back without its actor id |

## Left out

- SQLite, files, HTTP, WebSockets, processes and locks: each transaction, send and post is one atomic step; on the audit trail and the ledger the comparison with the head and the insertion are two.
- JSON text, SHA-256 (FIPS 180-4) and UUID drawing: values, collision-free functions, fresh ids.
- Codec.StoredWorkflowIsReadBack: JSON numbers are integers; the parsers of times and of numbers in text are any functions.
- Strings: strip and lower are those of ASCII.
- Floating-point rounding: measurements are reals, so a result that depends on the last bit is not covered.
- Free texts (reasons, notes, reasoning traces, log lines): named values, or absent.
- Concurrent submissions of one key: the engine's runs are sequences of calls; only the event table and the audit trail are treated under interleaving.
- Handlers that change the workflow object they are given: a handler is its answer to each attempt.
- Engine.WorkflowEngine.Audit: the record's content is the workflow id, and best-effort audit writes are not modelled one by one, since nothing but the trail depends on them.
- ControlPlane.Store.GetWorkflow: gives back the row as it was stored; what reading a dictionary loses is proved in Codec.
- Handler exceptions that cannot be put into text.
- Branches that cannot be reached: the failed transition right after creation, and the approval wait after a gate that already asked for it, appear only as far as they can be taken.
- The same clock reading serves one whole call; the deadline test is a yes-or-no input.
- Screening of a submission (secrets, classification, injection, authorisation, registry, tools): one arbitrary answer: clear, refused, denied by the authorisation, or broken.
- GovernedManager.GovernedWorkflowManager.CommitState: one manager at a time, so not the row rewritten by a call whose ledger row is then refused; any number of managers are treated on values, in GovernedTraffic.
- GovernedTraffic.CommitAgreesExactly: what others append in its two windows is of other tasks; TrafficAgreesExactly has no such limit.
- GovernedManager.GovernedWorkflowManager.Submit: the ids of the ledger rows are required to be fresh, as random ids are.
- The ledger's workflow_id column, which the manager never fills.
- Outbox.OutboxNeverLies: covers one binding of the writer to its event loop; a rebind starts a new, empty outbox.
- Status, snapshot and listing calls, metrics, logging, health probes and the conversion to task results: they read only.
- Supervision.AccountIsHonest: errors other than transport errors, and interruption by the operator, end the run and are not modelled.
- Poisson and Gaussian sampling, seasonality: drawn numbers are inputs.
- cloud/, connectors/, integrations/, customer_success/, engines/, contracts/vocabulary.py, control_plane/control_seam.py: tables and wiring that would add only easy members.
