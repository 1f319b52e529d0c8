# Overseer lifecycle verification

A Dafny 4.11 model of the parts of Overseer that must not go wrong while several callers, crashes and
provider answers mix: the operation fence, dispatches bound to a fence generation, driver handoffs,
controlled failover and its recovery; and beside them the failover evidence evaluator, the fallback
cycle search, the handoff size check, backup provisioning, the admin plan executor and the claim
conflict decision.

`dafny verify dfyconfig.toml` checks the whole project.

## How the model is built

* **Transactions.** Every `agent_transaction` block and every single store call is one function from a
  database to a database, or to `None` when it raises and leaves no trace (`LifecycleStore`,
  `DispatchStore`). The store's compare-and-set updates, unique indexes, successor tables and the
  dispatch insert trigger are written out (src/overseer/store.py).
* **Interleavings.** `LifecycleRuns` and `DispatchRuns` are state machines over program counters. A call
  carries copies of what it read, which may be stale; one action advances one call by one atomic step,
  begins a call, or lets one crash. Provider answers and evidence are arbitrary. An exception that no
  handler turns into a write ends the call like a crash. Ids drawn from the id factory are named by the
  call that drew them.
* **Code.** What the source does by updating fields in place is a class whose methods are proved against
  those transactions (`AgentManager.Manager`, `DispatchManager.Dispatcher`, `OperationCoordinator.Coordinator`,
  `Provisioning.PlanStore`, `FallbackGraph.Search`); the loops and breaks of the evaluator, the executor
  and the claim scan are methods with invariants. `LifecycleAlone`, `LifecycleHandoffAlone` and
  `DispatchAlone` tie the two forms together: a reconciliation, rollback, failover recovery, handoff,
  failover or dispatch that nobody interrupts does in steps what the manager's method does in one go.

| file | content |
|---|---|
| Contracts, Fences | shared vocabulary; the fence and its compare-and-set |
| DispatchStore, DispatchRuns, DispatchAlone | dispatch rows, their interleavings step by step, a dispatch left alone |
| DispatchWithdrawn, DispatchReplay, DispatchAdmission | whether withdrawn work stays withdrawn, what a repeated key is answered, which results settle a row |
| OperationCoordinator, DispatchManager | the coordinator's methods and draining; the manager's dispatch |
| LifecycleStore, LifecycleRuns | records and transactions of one instance; the interleaving machine |
| LifecycleFence, LifecycleHistory, LifecycleSafety | the fence invariant, what one step may do, theorems over every run |
| LifecycleDecisions | when a failover decision may be executed |
| LifecycleOrdinals | the order of epochs |
| LifecycleSerial, LifecycleUndo | calls one after another: one authority, promotion after a crash, rollback |
| LifecycleEvidence | under every interleaving: what packages carry, and when an acknowledged handoff can be promoted |
| LifecycleAuthority, LifecycleRaces | under every interleaving: which steps split the authority; a run in which two handoffs do |
| LifecycleStray, LifecycleGivingUp, LifecycleShutOut | late acknowledgements, rollbacks that give up late, refusals that come in between: exact conditions and runs |
| LifecycleRecovery, LifecycleRetry, LifecycleStuck | the rows of failover executions over every interleaving, exactly when a recovery ends, and a recovery that never does |
| AgentManager, LifecycleAlone, LifecycleHandoffAlone | the manager's methods, and their agreement with the machine |
| LifecycleSessions | activation and discovery left alone |
| LifecycleEndings | exactly how import answers, reconciliations, rollbacks, handoffs and failovers end, and every record they leave |
| Provisioning, ProvisioningRaces | backup provisioning; executions that overlap or are cut short |
| FailoverEvidence, FallbackGraph, HandoffBounds, AdminExecutor, Claims | the other components |

## Where the code does less than it promises

Each of these comes with a theorem that names a concrete run or input, and one that says exactly when it
happens.

* Two manual handoffs at once can leave two authoritative epochs, although the design asks for exactly one
  primary driver at a time: the active epoch is read before the fence is reserved and never again
  (`LifecycleRaces.HandoffsSplitAuthority`). Over every interleaving, the authority splits exactly when a
  promotion of an open epoch or a rollback commits while somebody other than its outgoing epoch is in charge
  (`LifecycleAuthority.AuthoritySplitsExactly`).
* An acknowledged handoff can lose what its promotion checks. A late reconciliation can acknowledge another
  handoff's import, because the evidence goes to the package at hand and the acknowledgement to whatever
  transition is stored by then (`LifecycleStray.AcknowledgementGoesAstray`); and a rollback that gives up on a
  stale reading drops evidence that was recorded since (`LifecycleGivingUp.GivingUpDropsEvidence`). These are
  exactly the two kinds of steps that do it (`LifecycleEvidence.CompletableKeptExactly`).
* A rollback that gives up after the handoff has been promoted blocks the only epoch in charge
  (`LifecycleGivingUp.GivingUpRemovesAuthority`); exactly when it does harm is
  `LifecycleGivingUp.GivingUpKeepsExactly`.
* A refusal that comes in between can close the incoming epoch of a handoff that is then acknowledged;
  reconciling it raises, and promoting it leaves nobody in charge (`LifecycleShutOut.AcknowledgedButShutOut`,
  `LifecycleEvidence.ReconcilesExactly`).
* The answer of an inspection during a failover recovery is recorded without a look at the recovery evidence it
  carries, but replayed with one. If the evidence names something else and the call crashes in between, every
  retry raises and the execution keeps the fence (`LifecycleStuck.RetriesNeverEnd`); exactly when a retry ends
  is `LifecycleRetry.RetriesExactly`.
* Cancelled or quarantined work can come back: recording and completing write back a row read earlier
  (`DispatchWithdrawn.DrainedDispatchSucceeds`); exactly which step does it, and exactly when some later step
  still can, are `DispatchWithdrawn.RevivedExactly` and `DispatchWithdrawn.ComesBackExactly`.
* A dispatch answered with a failure is not final: a later accepted result changes what its key is answered
  with (`DispatchReplay.FailedReplayChanges`, `DispatchReplay.ReplayKeptExactly`). Even a final answer changes
  when a further report read the row before (`DispatchReplay.FinalReplayChanges`,
  `DispatchReplay.AnswersTheSameExactly`).
* The provider's answer to a dispatch may name another request of the same epoch; it then settles both rows,
  although the provider was asked for one (`DispatchAdmission.AnswerSettlesAnother`,
  `DispatchAdmission.ResultNamesRowExactly`, `DispatchManager.OtherRowAfter`).
* An exception of the command runner ends an administrative change at once: what ran before stays and nothing
  is rolled back (`AdminExecutor.MissingCommandLeavesChange`, `AdminExecutor.RolledBackExactly`).
* A provisioning plan stays approved while it runs, so an overlapping or interrupted execution lets its host
  steps start again (`ProvisioningRaces.ExecutedTwice`, `ProvisioningRaces.StartsAgainExactly`).
* A checkpoint with an unparsable timestamp is treated as a blocker by the evaluation, yet the call raises in
  the decision's constructor (`FailoverEvidence.MalformedCheckpointExample`,
  `FailoverEvidence.MalformedCheckpointRaises`).

## Model

| member | source | states |
|---|---|---|
| LifecycleSafety.RecoverableHoldsFence | src/overseer/agent_manager.py:702-1056 | in every state of every interleaving, an execution that is reserved, draining, blocked before import or recovering holds the fence with its own generation and owner, and no handoff is under way |
| LifecycleSafety.HandoffHoldsFence | src/overseer/agent_manager.py:1194-1243 | in every state of every interleaving, a handoff under way holds the fence exactly as its package records, between exactly its two epochs |
| LifecycleSafety.RecoveredOrImported | src/overseer/agent_manager.py:788-1241 | no generation is both released by a recovery and used by an import, in any interleaving |
| LifecycleSafety.ReleasedOnce | src/overseer/agent_operations.py:115-129 | each generation is released at most once in any interleaving, whatever the cause |
| LifecycleSafety.HandoffEndsOnce | src/overseer/agent_manager.py:1418-1630 | of promotion and rollback at most one ever commits for a handoff, and at most once |
| LifecycleSafety.RecoverCalledOnce | src/overseer/agent_manager.py:863-985 | the provider's recover is called at most once per failover execution over all retries, crashes and concurrent callers |
| LifecycleSafety.DecisionExecutedOnce | src/overseer/agent_manager.py:702-760 | each failover decision yields at most one execution |
| LifecycleSafety.StepKeeps | src/overseer/agent_manager.py:349-1630 | every step of every lifecycle call keeps the whole invariant on database, calls and history |
| LifecycleDecisions.ExecutionIsJustified | src/overseer/agent_manager.py:702-760 | an execution is created only from an unused decision of the current generation, with the fence open and no handoff under way, when the declarative failover condition holds again and picks the same provider |
| LifecycleDecisions.OvertakenForever | src/overseer/agent_manager.py:551-760 | once the fence is released after a decision was stored, no continuation executes that decision |
| LifecycleOrdinals.OrdinalsDistinct | src/overseer/agent_manager.py:1725-1776 | two epochs never share an ordinal, in any interleaving |
| LifecycleOrdinals.ReplacementsLeadForward | src/overseer/agent_manager.py:1619-1620 | every replacement names an existing epoch with a strictly larger ordinal |
| LifecycleOrdinals.ReplacementsAcyclic | src/overseer/agent_manager.py:369-380 | following replacements never returns to an epoch |
| LifecycleOrdinals.Latest | src/overseer/agent_manager.py:1778-1791 | following replacements ends, at an epoch that nothing replaces and whose ordinal is not smaller |
| LifecycleSerial.OneAuthority | src/overseer/agent_manager.py:1808-1853 | with calls one after another and crashes anywhere: at most one authoritative epoch; during a handoff it is the outgoing one, open, and the fence is held as the package records |
| LifecycleSerial.AcknowledgedCommits | src/overseer/agent_manager.py:1573-1630 | with calls one after another, in every acknowledged state session, result, package and fence pass every check of the promotion and its transaction commits |
| LifecycleEvidence.PromotesExactly | src/overseer/agent_manager.py:1573-1630 | in every state of every interleaving, an acknowledged handoff passes every check of its promotion, and the promotion commits, if and only if its package carries an import result |
| LifecycleEvidence.CompletableKeptExactly | src/overseer/agent_manager.py:1390-1571 | over every interleaving and every step: an acknowledged handoff is and stays promotable, except if and only if the step records an answer on another handoff that has none, or gives up a rollback with a copy from before the acknowledgement |
| LifecycleEvidence.AcknowledgedCanBePromoted | src/overseer/agent_manager.py:1451-1630 | in every interleaving without such a step every acknowledged state can be promoted |
| LifecycleEvidence.ReconcilesExactly | src/overseer/agent_manager.py:1292-1328 | in every state of every interleaving, reconciling an acknowledged handoff without a result reaches what its promotion reaches if and only if the package carries evidence and the incoming epoch is open; otherwise it changes nothing |
| LifecycleEvidence.EvidenceDroppedExactly | src/overseer/agent_manager.py:1390-1571 | over every interleaving, a step takes evidence off a package if and only if it writes back a copy read before the evidence was recorded |
| LifecycleEvidence.RunsKeepEvidence | src/overseer/agent_manager.py:1528-1571 | in every interleaving each import result that a stored or copied package names is stored, accepted, bound to the package, and its session known |
| LifecycleSerial.CrashThenReconcile | src/overseer/agent_manager.py:1300-1328 | a crash at any point of a promotion followed by a reconciliation without a result reaches the same database as the uninterrupted promotion |
| LifecycleSerial.ReconcileCompletes | src/overseer/agent_manager.py:1263-1328 | from every acknowledged state at rest, reconciling without a result completes the handoff, opens the next generation and leaves exactly the incoming epoch in charge |
| LifecycleUndo.RollbackCommits | src/overseer/agent_manager.py:1353-1449 | in every acknowledged state a verified rollback passes its checks and commits |
| LifecycleUndo.RollbackCompletes | src/overseer/agent_manager.py:1418-1449 | from every acknowledged state at rest, a verified rollback opens the next generation and leaves exactly the outgoing epoch in charge, running and otherwise as it was |
| LifecycleEvidence.RepeatedAnswerExactly | src/overseer/agent_manager.py:1293-1328 | in every state of every interleaving, reconciling an acknowledged handoff with an answer does what reconciling without one does if the answer has the recorded result's id, request, instance, provider, external and internal session, epoch and state; with any other answer it raises and changes nothing |
| LifecycleRecovery.RunsKeepRecords | src/overseer/agent_manager.py:735-985 | in every interleaving: each execution repeats its decision's epoch, provider, checkpoint and generation, and its outgoing epoch exists with its session and provider; each recovery outcome names a stored result with that result's id, request and state; an execution, its attempt, the outcome and the result reference agree on how far the recovery is |
| LifecycleRetry.RecoversExactly | src/overseer/agent_manager.py:788-1056 | in every state of every interleaving, recovering an execution ends in success if and only if no newer epoch is open and the answer, or the recorded one, counts, condition by condition; recover is called if and only if no newer epoch is open and none was called before; success opens the next generation, a raise leaves at most the started attempt |
| LifecycleRetry.RetriesExactly | src/overseer/agent_manager.py:891-920 | in every interleaving, a retry after the answer was recorded ends recovered from exactly that answer, without calling recover, if and only if no newer epoch is open and recovery evidence in the recorded answer, if any, is this attempt's; otherwise it changes nothing |
| LifecycleRetry.CrashLosesNothing | src/overseer/agent_manager.py:961-985 | in every interleaving, a crash between recording an answer and finalizing, followed by a retry, reaches the database the call would have reached, without calling recover; the answer of the recover call itself always allows it |
| LifecycleRetry.ReservedIsRecovered | src/overseer/agent_manager.py:835-838 | with calls one after another and crashes anywhere, an execution left reserved is recovered by the next call that tries, whatever the provider would say: recovered, and the fence open at the next generation |
| LifecycleRetry.RecordedIsRecovered | src/overseer/agent_manager.py:891-920 | the same for an execution left with a recorded answer: it ends recovered from that answer unless the answer's recovery evidence is another's |
| LifecycleStuck.RetriesNeverEnd | src/overseer/agent_manager.py:891-905 | a run after which an execution holds the fence with an answer recorded, and every retry, by whomever and whatever the provider says, raises and changes nothing |
| LifecycleEndings.AnswerEnds | src/overseer/agent_manager.py:1451-1630 | an awaited import answer: acknowledged and promoted if it accepts this import and can be stored, refused if it does not and can be stored, otherwise nothing written; with every record |
| LifecycleEndings.ReconciliationEnds | src/overseer/agent_manager.py:1263-1351 | in every state of every interleaving, how reconciling a handoff that is not acknowledged ends for each answer, and every record it leaves |
| LifecycleEndings.RollbackEnds | src/overseer/agent_manager.py:1353-1449 | in every state of every interleaving, rolling back undoes the handoff if and only if its outgoing epoch is open, its package carries import evidence and the cancellation is verified; with the outgoing epoch closed it raises; otherwise it gives up; with every record |
| LifecycleEndings.HandoffEnds | src/overseer/agent_manager.py:1079-1261 | in every state of every interleaving, how a manual handoff left alone ends: refused at the door, stopped with its fence held by an unusable checkpoint, or as its import is answered; with every record |
| LifecycleEndings.ExecutesExactly | src/overseer/agent_manager.py:702-760 | executing a decision commits if and only if it is stored as read and unused, the fence is open, asking again finds the same in everything but the two times, and it has not expired by then; with every record |
| LifecycleEndings.FailoverEnds | src/overseer/agent_manager.py:676-776 | in every state of every interleaving, how a failover left alone ends: nothing written, or its execution left reserved, blocked before the import, or its import ended as answered |
| LifecycleRaces.HandoffRuns | src/overseer/agent_manager.py:1103-1261 | a manual handoff left alone from its reading of the active epoch, with a usable checkpoint and an acknowledged import, ends in the promoted database |
| LifecycleAuthority.AuthoritySplitsExactly | src/overseer/agent_manager.py:1418-1630 | over every interleaving, a step leads from at most one authoritative epoch to several if and only if it commits a promotion of an open incoming epoch, or a rollback, while an epoch other than the outgoing one is in charge |
| LifecycleAuthority.OneAuthorityThroughout | src/overseer/agent_manager.py:1808-1853 | in every interleaving without such a step at most one epoch is ever authoritative |
| LifecycleRaces.OneAuthorityExactly | src/overseer/agent_manager.py:1103-1129 | a manual handoff left alone from its reservation on leaves one authoritative epoch if and only if the epoch it read is still the only authoritative one when it reserves |
| LifecycleRaces.HandoffsSplitAuthority | src/overseer/agent_manager.py:1103-1129 | a run of two manual handoffs after which both incoming epochs are authoritative |
| LifecycleStray.AcknowledgementBindsExactly | src/overseer/agent_manager.py:1542-1571 | over every interleaving, recording an accepted answer leaves the stored transition promotable if and only if it is the transition of the answered package or its package carried evidence before |
| LifecycleStray.AcknowledgementGoesAstray | src/overseer/agent_manager.py:1333-1571 | a run in which an overtaken reconciliation acknowledges a handoff that nobody answered and that cannot be promoted |
| LifecycleGivingUp.GivingUpKeepsExactly | src/overseer/agent_manager.py:1390-1416 | over every interleaving, a rollback that gives up takes exactly its incoming epoch out of charge; it leaves authority and promotability as they are if and only if that epoch is not in charge and the handoff was not acknowledged after the rollback read its package |
| LifecycleGivingUp.GivingUpInTime | src/overseer/agent_manager.py:1390-1416 | giving up takes nothing away as long as the stored transition is the one the rollback read |
| LifecycleGivingUp.GivingUpDropsEvidence | src/overseer/agent_manager.py:1390-1416 | a run in which a late rollback leaves an acknowledged handoff without evidence, so that it cannot be promoted |
| LifecycleGivingUp.GivingUpRemovesAuthority | src/overseer/agent_manager.py:1390-1416 | a run in which a late rollback blocks the promoted epoch, so that nobody is in charge |
| LifecycleShutOut.AcknowledgedButShutOut | src/overseer/agent_manager.py:1292-1351 | a run that ends in an acknowledged handoff which reconciliation refuses and whose promotion leaves nobody in charge |
| LifecycleAlone.ReconcileAlone | src/overseer/agent_manager.py:1263-1351 | twelve steps of an uninterrupted reconciliation equal the method in one go, on every database and answer |
| LifecycleHandoffAlone.HandoffAlone | src/overseer/agent_manager.py:1079-1261 | seventeen steps of an uninterrupted handoff, manual or under a failover's reservation, equal the method in one go, on every database, checkpoint and answer |
| LifecycleHandoffAlone.ExecutionAlone | src/overseer/agent_manager.py:676-776 | nineteen steps of an uninterrupted failover execution with its handoff equal the method in one go, on every database, evidence, checkpoint and answer |
| LifecycleAlone.RollbackAlone | src/overseer/agent_manager.py:1353-1449 | eight steps of an uninterrupted rollback equal the method in one go, on every database |
| LifecycleAlone.RecoveryAlone | src/overseer/agent_manager.py:788-1056 | ten steps of an uninterrupted failover recovery equal the method in one go, on every database and answer |
| LifecycleFence.ImportKeeps | src/overseer/agent_manager.py:1194-1243 | an import commits only under the call's own fence and keeps the fence invariant and every other call's knowledge |
| LifecycleFence.FinalizeKeeps | src/overseer/agent_manager.py:1028-1056 | finalizing a recovery keeps the fence invariant and every other call's knowledge |
| LifecycleFence.FinishKeeps | src/overseer/agent_manager.py:1418-1449 | ending a transition and opening its fence together keeps the fence invariant |
| LifecycleFence.MoveKeeps | src/overseer/agent_manager.py:1138-1193 | moving an execution between its states keeps the fence invariant |
| AgentManager.Manager.PromoteAcknowledgedHandoff | src/overseer/agent_manager.py:1573-1630 | commits the whole promotion or changes nothing |
| AgentManager.Manager.PersistImportAcknowledgement | src/overseer/agent_manager.py:1528-1571 | records result, session, package and transition together or changes nothing |
| AgentManager.Manager.RefuseHandoff | src/overseer/agent_manager.py:1478-1520 | records a refused import together or changes nothing |
| AgentManager.Manager.CompleteHandoff | src/overseer/agent_manager.py:1451-1526 | refuses, or acknowledges and promotes; an acknowledgement survives a promotion that raises |
| AgentManager.Manager.ReconcileHandoff | src/overseer/agent_manager.py:1263-1351 | the database and ending of a reconciliation, for every stored state and answer |
| AgentManager.Manager.UndoHandoff | src/overseer/agent_manager.py:1418-1449 | closes the incoming epoch, resumes the outgoing one and opens the fence together or changes nothing |
| AgentManager.Manager.BlockUndo | src/overseer/agent_manager.py:1390-1416 | records an unverified cancellation together or changes nothing |
| AgentManager.Manager.RollbackHandoff | src/overseer/agent_manager.py:1353-1449 | the database and ending of a rollback, for every stored state |
| AgentManager.Manager.ImportHandoff | src/overseer/agent_manager.py:1194-1243 | session, transition, package and incoming epoch together or nothing |
| AgentManager.Manager.PerformHandoff | src/overseer/agent_manager.py:1079-1261 | the database and ending of a manual or failover handoff, for every stored state, checkpoint and answer; what was written before an exception stays |
| AgentManager.Manager.Evaluate | src/overseer/agent_manager.py:560-653 | evaluates the evidence for the only authoritative epoch at the current generation, with the evaluator as code |
| AgentManager.Manager.ExecuteDecision | src/overseer/agent_manager.py:702-760 | reserves the fence, records the execution and consumes the decision together, only when re-evaluation still finds the same; or nothing |
| AgentManager.Manager.PerformFailover | src/overseer/agent_manager.py:676-776 | the database and ending of a whole failover, from the checks on its decision to the end of its handoff |
| AgentManager.Manager.RecoverFailoverExecution | src/overseer/agent_manager.py:788-985 | the database, ending and whether recover was called, for every stored state and answer |
| AgentManager.Manager.FinalizeFailoverRecovery | src/overseer/agent_manager.py:1028-1056 | releases the fence and closes attempt and execution together or changes nothing |
| AgentManager.Manager.NewestOpenEpoch | src/overseer/agent_manager.py:369-370 | finds an open epoch of largest ordinal, or that none is open |
| AgentManager.Manager.QuarantineStale | src/overseer/agent_manager.py:371-382 | the loop closes exactly the open epochs other than the newest, each replaced by it |
| AgentManager.Manager.OpenDriverEpoch | src/overseer/agent_manager.py:1713-1776 | opens an epoch with the next ordinal only when none is open |
| AgentManager.Manager.Recover | src/overseer/agent_manager.py:349-414 | recovery of a session, with its loop, equals the atomic step of the machine; when it succeeds or raises, and the epochs it leaves, told row by row on the old and new epochs |
| AgentManager.ResumesNewest | src/overseer/agent_manager.py:367-405 | with an open epoch, recovering a session closes the other open ones in favour of the newest; that one ends running if the provider acknowledged, runs or succeeded, blocked otherwise, and keeps its state if it takes dispatches, belongs to another session, or the answer does; the call raises exactly in the last case |
| AgentManager.OpensNewest | src/overseer/agent_manager.py:385-414 | without an open epoch, recovering a session opens one at the next ordinal on its session and provider, running or blocked as answered, if and only if the answer belongs to the session and the id is free |
| LifecycleSessions.OpensExactly | src/overseer/agent_manager.py:1713-1776 | an epoch is opened if and only if none is open and its id is free: at the next ordinal, on a known session or a new one of that provider and external identity; nothing else changes |
| LifecycleSessions.ActivationEnds | src/overseer/agent_manager.py:253-347 | an activation left alone opens a running epoch if and only if the fence is open, no handoff is under way and no epoch is open; otherwise it writes nothing |
| LifecycleSessions.DiscoveryEnds | src/overseer/agent_manager.py:163-251 | a discovery left alone stores all sessions it found or, when one contradicts what is known, none, and gives its fence back at the next generation either way |
| LifecycleOrdinals.QuarantineOrders | src/overseer/agent_manager.py:369-380 | closing all but the newest epoch keeps ordinals distinct and replacements forward |
| LifecycleOrdinals.PromoteOrders | src/overseer/agent_manager.py:1611-1630 | a promotion from stale copies keeps ordinals distinct and replacements forward |
| DispatchRuns.StartsOnlyWhenOpen | src/overseer/agent_operations.py:151-171 | a dispatch starts only while its fence is open at its generation |
| DispatchRuns.NothingStartsBehindAReservation | src/overseer/agent_operations.py:54-171 | in every interleaving nothing of the reserved generation or an older one starts after a reservation |
| DispatchRuns.ProviderCalledAtMostOncePerKey | src/overseer/agent_manager.py:424-505 | in every interleaving the provider is called at most once per instance and key, and only after a claim |
| DispatchRuns.StepKeepsConsistent | src/overseer/agent_manager.py:424-505 | every step of every call keeps the invariant on rows, keys, calls, fences and history |
| DispatchWithdrawn.RevivedExactly | src/overseer/agent_operations.py:173-212 | over every interleaving, a step takes a dispatch out of cancelled or quarantined if and only if it writes back a row read before the withdrawal with a result that is not a withdrawal |
| DispatchWithdrawn.ComesBackExactly | src/overseer/agent_manager.py:2009-2042 | a withdrawn dispatch can come back in some continuation if and only if a call in flight holds such a copy and a result it can still write; otherwise it stays withdrawn for ever |
| DispatchWithdrawn.DrainedDispatchSucceeds | src/overseer/agent_manager.py:2013-2041 | a run in which a drained dispatch ends succeeded |
| DispatchAdmission.AdmittedOnlyWhenActive | src/overseer/agent_manager.py:1632-1676 | over every interleaving, a result is admitted only when request, result and epoch agree on every binding and that epoch is the open, only active one |
| DispatchAdmission.OnlyAdmittedResultsSettle | src/overseer/agent_manager.py:1632-1711 | over every interleaving, a row that ended other than withdrawn ended by a stored result that was admitted for its own epoch and names the row or answered its dispatch, and every stored result was admitted or is withdrawn |
| DispatchAdmission.ResultNamesRowExactly | src/overseer/agent_manager.py:490-505 | over every interleaving, the result of a settled row that was sent to the provider names the row if and only if the provider's answer does or the row holds another result than that answer |
| DispatchAdmission.AnswerSettlesAnother | src/overseer/agent_manager.py:490-505 | a run in which a dispatch ends by a result naming another request, and the same result settles that other dispatch, for which the provider was never asked |
| DispatchAlone.SettlesAlone | src/overseer/agent_manager.py:503-505 | the six steps of a dispatch left alone after the provider's answer leave what recording and completing in one piece leave |
| DispatchAlone.DispatchesAlone | src/overseer/agent_manager.py:424-505 | ten steps of a dispatch left alone, from reading the fence on, leave the rows and results of the dispatch in one go, and its row executing where that raises |
| DispatchAlone.ReportsAlone | src/overseer/agent_manager.py:1632-1711 | four steps of a provider result reported on its own leave what recording it in one piece leaves, and nothing where that raises |
| DispatchAlone.RefusedAlone | src/overseer/agent_manager.py:482-489 | six steps of a dispatch whose claim was refused leave its row completed as cancelled and the cancelled result recorded when it can be stored |
| DispatchReplay.AnswersTheSameExactly | src/overseer/agent_manager.py:2044-2089 | a dispatch that ended succeeded, cancelled or quarantined is answered the same in every continuation if and only if no call in flight holds an earlier copy with a different result to write |
| DispatchReplay.FinishedRowAfter | src/overseer/agent_manager.py:2009-2042 | what any action does to the row of a finished call: cancelled by a drain, overwritten by the last step of recording a further result, or unchanged |
| DispatchReplay.ReplayKeptExactly | src/overseer/agent_manager.py:2009-2089 | over every interleaving, an action keeps the answer to a repeated key if and only if it neither drains the row nor writes a differing result into it |
| DispatchReplay.LeftAloneReplays | src/overseer/agent_manager.py:2044-2089 | a finished row in any state is answered the same as long as nothing drains it or answers it again |
| DispatchReplay.FailedReplayChanges | src/overseer/agent_manager.py:2009-2042 | a run in which a failed dispatch is later answered as succeeded |
| DispatchReplay.FinalReplayChanges | src/overseer/agent_manager.py:2013-2041 | a run in which a succeeded dispatch is later answered as failed |
| DispatchStore.AcceptedExactly | src/overseer/agent_manager.py:1632-1676 | a result is accepted if and only if request, result and epoch agree on every binding and that epoch is the open, only active one |
| DispatchStore.LateResultsAreQuarantined | src/overseer/agent_manager.py:1632-1711 | a result for a closed or replaced epoch is stored quarantined and the dispatch ends quarantined |
| DispatchStore.CompletionReplaysExactly | src/overseer/agent_manager.py:503-505 | with recording and completion as one step, the row replays exactly what the caller was handed if and only if the answer names this dispatch, or what is handed back is written over the row and leaves no older reason standing |
| DispatchStore.RefusedClaimReplays | src/overseer/agent_manager.py:482-489 | a refused claim replays the cancelled result it handed back |
| DispatchManager.DispatchedReplays | src/overseer/agent_manager.py:490-505 | whatever the provider answers, be it about another request, the key is afterwards answered with exactly what the first caller was handed, and no row changes but this one and the one the answer names |
| DispatchManager.DispatchedExactly | src/overseer/agent_manager.py:453-505 | a dispatch that may be sent comes to its end if and only if its id is unused and what will be kept can be stored; kept and handed back is the answer if it names this dispatch or another uncancelled one of the epoch and agrees with the open epoch, else a quarantined copy |
| DispatchManager.OtherRowAfter | src/overseer/agent_manager.py:1632-1711 | another row takes the answer over if and only if the answer names it, passes every check of the recording, and the row is not final; otherwise it stays as it was |
| DispatchManager.Dispatcher.FindByKey | src/overseer/agent_manager.py:1997-2007 | finds the row of an instance and key if and only if there is one |
| DispatchManager.Dispatcher.RecordProviderResult | src/overseer/agent_manager.py:1632-1711 | accepts, quarantines or raises as the checks say |
| DispatchManager.Dispatcher.Dispatch | src/overseer/agent_manager.py:424-505 | paused exactly under a transition, a held fence, or for a new key on an epoch that takes no dispatches; answered from the row exactly when the key is known; handed a result if and only if authorized, exactly one epoch is active and takes dispatches, the row id is unused and what is kept can be stored; then the row of the key exists and replays it |
| OperationCoordinator.DrainLeavesQuiescence | src/overseer/agent_operations.py:236-308 | a drain that succeeds leaves nothing of the held generation or an older one in flight and touches no other row |
| OperationCoordinator.DrainsExactly | src/overseer/agent_operations.py:236-322 | a drain succeeds if and only if the reservation holds the fence and the provider's cancel was verified when anything was claimed; it cancels exactly the open work of its generation or an older one, and nothing that has ended in any way |
| OperationCoordinator.UnclaimedFirst | src/overseer/agent_operations.py:310-322 | cancelling unclaimed work first does not change what the full cancellation does |
| OperationCoordinator.Coordinator.Reserve | src/overseer/agent_operations.py:54-81 | takes an open fence at its generation, refuses a held one |
| OperationCoordinator.Coordinator.Release | src/overseer/agent_operations.py:115-129 | opens the next generation only for the exact reservation |
| OperationCoordinator.Coordinator.ReleaseIfOwned | src/overseer/agent_operations.py:106-113 | releases if and only if the reservation holds the fence |
| OperationCoordinator.Coordinator.AcceptDispatch | src/overseer/agent_operations.py:131-149 | inserts a row bound to the current generation if and only if the fence is open and the store takes it |
| OperationCoordinator.Coordinator.ClaimDispatchExecution | src/overseer/agent_operations.py:151-171 | grants an accepted row only under an open fence of its generation, otherwise cancels it |
| OperationCoordinator.Coordinator.CompleteExecution | src/overseer/agent_operations.py:173-212 | completes the row, leaving withdrawn work alone unless the result withdraws it |
| OperationCoordinator.Coordinator.CancelAndVerify | src/overseer/agent_operations.py:261-308 | the loop cancels exactly the in-flight rows, under the unchanged reservation |
| OperationCoordinator.Coordinator.Drain | src/overseer/agent_operations.py:236-253 | succeeds exactly when draining can, and then leaves nothing in flight |
| FailoverEvidence.AllowsExactly | src/overseer/agent_handoff.py:76-199 | the decision allows if and only if the declarative condition holds, lists exactly the blockers that apply, and picks the first healthy, ready, capable fallback |
| FailoverEvidence.AllowsOnEvidence | src/overseer/agent_handoff.py:76-166 | the same condition on the raw evidence: policy, failures, checkpoint, risks and fallbacks field by field |
| FailoverEvidence.DecidesExactly | src/overseer/agent_handoff.py:52-199 | a decision is made if and only if all evidence belongs to the instance, providers, epoch and session and is well-formed; it repeats the question and the evidence's ids in order and expires when the policy says |
| FailoverEvidence.ConstructorAcceptsExactly | src/overseer/agent_contracts.py:647-669 | the constructor accepts the evaluator's decision if and only if the evidence is well-formed; blockers are always unique and in vocabulary order |
| FailoverEvidence.MalformedCheckpointRaises | src/overseer/agent_handoff.py:96-199 | a checkpoint time that is given and is no timestamp makes every evaluation raise, although the evaluation itself treats it as a blocker, or an empty expiry as none |
| FailoverEvidence.MalformedCheckpointExample | src/overseer/agent_handoff.py:96-199 | evidence for which it does: no policy, no observations, one checkpoint whose expiry nobody can read |
| FailoverEvidence.TrailingFailures | src/overseer/agent_handoff.py:79-97 | the backward scan with its break finds the maximal trailing run of failures |
| FailoverEvidence.SelectFallback | src/overseer/agent_handoff.py:136-166 | the selection loop finds the first usable fallback and why there is none |
| FailoverEvidence.EvaluateFailoverEvidence | src/overseer/agent_handoff.py:36-199 | the evaluator with its loops, appends and breaks equals the declarative evaluation |
| FallbackGraph.Search.Visit | src/overseer/agent_registry.py:328-337 | the nested search terminates; it fails only on a cycle and otherwise visits everything below |
| FallbackGraph.Search.FindCycle | src/overseer/agent_registry.py:339-340 | finds a cycle if and only if the graph has one |
| FallbackGraph.ValidateFallbacks | src/overseer/agent_registry.py:317-344 | raises the cycle error if and only if fallbacks form a cycle, and accepts if and only if there is none and every fallback meets its profile |
| HandoffBounds.AcceptsExactly | src/overseer/agent_handoff.py:391-411 | accepts if and only if every value on every path is within the limits of its depth |
| HandoffBounds.AcceptedTreesAreBounded | src/overseer/agent_handoff.py:391-411 | an accepted tree has at most (256^10 - 1)/255 values, and one of that size is accepted |
| AdminExecutor.FlagsTellTheHistory | src/overseer/admin.py:1229-1258 | over every history of approvals, cancellations and archivings the flags say exactly what happened |
| AdminExecutor.ExecutableExactly | src/overseer/admin.py:137-146 | a plan can execute if and only if it was approved or needs no approval, was never cancelled, is not archived and is complete |
| AdminExecutor.AcceptedExactly | src/overseer/admin.py:1229-1258 | after every history, which approval, cancellation, archiving or reversal is accepted, and the flags it leaves |
| AdminExecutor.PermittedExactly | src/overseer/admin.py:1261-1295 | after every history, a plan is run if and only if its adapter is live, it can execute, and no apt command names another package provider |
| AdminExecutor.RunUntilFailure | src/overseer/admin.py:1296-1328 | runs a prefix of the steps ending at the first that does not exit with zero; an exception escapes |
| AdminExecutor.RolledBackExactly | src/overseer/admin.py:1296-1350 | for every plan and runner: when a step or check does not succeed, the whole rollback list is run and answered if and only if no attempted command raised |
| AdminExecutor.MissingCommandLeavesChange | src/overseer/admin.py:1364-1373 | a permitted plan and a runner whose second command is missing: the first has taken effect and nothing is rolled back |
| AdminExecutor.ExecuteAdminChangePlan | src/overseer/admin.py:1261-1350 | for every runner: nothing runs unless permitted; exactly the steps and checks up to the first that does not succeed are run, then the rollback list unless that one raised; the call raises if and only if an attempted command did; completed if and only if every step and check exited with zero; the second failure scan never fires |
| Claims.QueuesExactly | src/overseer/core.py:166-212 | a usable resource queues a request if and only if an active claim stands in the way and it is not an observation among observations |
| Claims.DecidesExactly | src/overseer/core.py:166-230 | every outcome with its level and blocking claims, from states, kinds, risks and the claims in the way: when a request is blocked, quarantined, queued, escalated and to whom, or allowed |
| Claims.QueueIsMonotone | src/overseer/core.py:188-197 | more active claims never turn a queue answer into a grant |
| Claims.ActiveClaimsAreCompatible | src/overseer/core.py:147-262 | in every history two active-like claims on one resource are both observations, and exclusive ones share no port, group or dependency |
| Claims.CollectBlockingClaims | src/overseer/core.py:237-262 | the loop with its early continues collects exactly the claims in the way |
| Claims.ApprovalExactly | src/overseer/core.py:214-230 | which approval a request needs, by kind and worst risk |
| Claims.ApprovalGrowsWithRisk | src/overseer/core.py:214-230 | raising a risk never lowers the approval needed |
| Provisioning.PlansEvolve | src/overseer/backup_provisioning.py:230-418 | over every sequence of calls the digested part of a plan never changes and its status only moves forward |
| Provisioning.ExecutedAtMostOnce | src/overseer/backup_provisioning.py:366-411 | over every sequence of whole calls each plan runs at most once, and its run did what its final status claims |
| Provisioning.RunsExactly | src/overseer/backup_provisioning.py:366-411 | after every history of whole calls, executing a plan performs host operations if and only if the plan is approved and the evidence terminal; otherwise it changes nothing |
| Provisioning.ApproversAreIndependent | src/overseer/backup_provisioning.py:310-364 | in every history, whoever a plan names as its approver approved it while it was staged, on terminal evidence and independently |
| Provisioning.RefusalsTell | src/overseer/backup_provisioning.py:310-344 | in every history, a denied plan, or one sent back for revision, was so by a call that found it staged on terminal evidence, and it never runs |
| ProvisioningRaces.NothingStartsAfterAnEnd | src/overseer/backup_provisioning.py:366-411 | with any number of executors and crashes, host steps of a plan never start after an execution of it has stored its outcome |
| ProvisioningRaces.StartsAgainExactly | src/overseer/backup_provisioning.py:366-411 | host steps of a plan start a second time if and only if an execution begins while an earlier one has not stored its outcome |
| ProvisioningRaces.ExecutedTwice | src/overseer/backup_provisioning.py:366-411 | a run in which two executors run one plan and an executed plan ends up as not executed |
| Provisioning.HostRunsNeedApproval | src/overseer/backup_provisioning.py:366-411 | in every history each host run was performed by a call that found its plan approved or approved it itself; the plan ends for good executed if and only if every step was ok, rolled back if and only if a step failed and every rollback step was ok, failed otherwise |
| Provisioning.PlanStore.StagePlan | src/overseer/backup_provisioning.py:230-246 | stages a new plan; re-staging an identical row is accepted, any other is refused |
| Provisioning.PlanStore.ApprovePlan | src/overseer/backup_provisioning.py:352-364 | approves a staged plan on terminal evidence by an independent approver, otherwise changes nothing |
| Provisioning.PlanStore.ExecutePlan | src/overseer/backup_provisioning.py:366-411 | runs the steps up to the first failure, then the whole rollback list, and stores the outcome; succeeds if and only if the plan may run and every step was ok |
| Provisioning.PlanStore.DecideApproved | src/overseer/backup_provisioning.py:310-344 | approving a staged plan executes it at once; succeeds if and only if the approval counts, the digest holds and every step was ok |

## Left out

- Liveness of the fence: a crash after an execution is marked as started and before its transition commits leaves the fence held; only safety is proved.
- Activation leases and their waiting loop, which belong to wall-clock polling; activation is a check and a transaction.
- OperationCoordinator.Coordinator.Drain: states what happens when nobody else moves while it waits; the waiting loop is left out and other movers are in `DispatchRuns`.
- LifecycleSerial.AcknowledgedCommits: for calls taken one after another; every interleaving is in `LifecycleEvidence`.
- LifecycleRaces.OneAuthorityExactly: for a handoff left alone after its reservation; every interleaving is in `LifecycleAuthority`.
- Provisioning.ExecutedAtMostOnce: for whole calls in sequence; overlapping and interrupted executions are in `ProvisioningRaces`.
- DispatchStore.CompletionReplaysExactly: for recording and completion in one piece; its separate steps are in `DispatchReplay` and `DispatchAlone`.
- One instance: the lifecycle database holds the records of one instance; instances share nothing but identifiers.
- Reads made by one helper (`active_epoch`, the checks of `evaluate_failover`, the whole of `recover`) are one step.
- Dispatch rows inside lifecycle steps: a handoff's drain is only required to find its own fence; draining itself is in the dispatch model.
- Dispatch rows without a recorded generation, which older versions wrote.
- Attestation of handoff packages with HMAC, secret scanning, digests, timestamp parsing and free-text reasons.
- Authorization callbacks other than the verdict on a dispatch, provider capability checks at handoff and profile merging (`profile_for_provider`, `_merge_local_overrides`).
- Checkpoint freshness at handoff time: usable or not is an arbitrary answer.
- Timestamps are equal or not modelled at all; equality of reservations ignores their update time.
- Recovery outcome provenance hashes; an outcome is compared on request and state.
- HTTP routing, clients, host and network adapters, evidence summaries and the concrete plan builders.
- Short record-updating modules (key broker, identity, image scanning, advisories): they would add only easy members.
