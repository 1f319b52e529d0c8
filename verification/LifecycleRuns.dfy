/** Every interleaving of lifecycle calls on one instance (src/overseer/agent_manager.py): evaluate
    and execute a failover, manual and failover handoffs, reconcile, roll back, recover a failover
    execution, discover, activate and recover a session.

    A call is a program counter with its locals, which may be stale copies of records it read
    earlier. One action advances one call by one atomic step: a transaction, a single store call, or
    a provider call with an arbitrary answer. A call may crash after any step; an exception that no
    handler turns into a write is a crash. */
module LifecycleRuns {
  import opened Contracts
  import opened Fences
  import opened LifecycleStore
  import E = FailoverEvidence

  /** What a handoff carries until its import: provider, reservation, and whether it is a failover. */
  datatype Plan = Plan(provider: Id, op: Fence, failover: bool, outgoing: Epoch)

  /** evaluate_failover and execute_failover. */
  datatype FailoverStage =
    | Evaluate
    | SaveEvaluation(found: E.Decision)
    | Execute(decision: Id)
    | ExecuteChecked(decision: Id, original: DecisionRow)

  /** _perform_handoff; `held` is the reservation a failover brings along. */
  datatype HandoffStage =
    | Handoff(provider: Id, held: Option<Fence>)
    | HandoffUnblocked(provider: Id, held: Option<Fence>)
    | HandoffFrom(provider: Id, held: Option<Fence>, outgoing: Epoch)
    | HandoffReserved(plan: Plan)
    | HandoffDraining(plan: Plan)
    | HandoffDrained(plan: Plan)
    | HandoffUnusable(plan: Plan)
    | HandoffCheckpointed(plan: Plan)
    | HandoffImporting(plan: Plan)
    | HandoffImported(package: Package, incoming: Epoch)

  /** _complete_handoff and _promote_acknowledged_handoff. */
  datatype CompletionStage =
    | Complete(package: Package, incoming: Epoch, result: Result, quarantine: bool)
    | Promotion(handoff: Id)
    | PromotionOf(package: Package)
    | PromotionAt(package: Package, transition: Transition)
    | PromotionTo(package: Package, transition: Transition, incoming: Epoch)
    | PromotionFrom(package: Package, transition: Transition, incoming: Epoch, outgoing: Epoch)
    | PromotionSession(package: Package, transition: Transition, incoming: Epoch, outgoing: Epoch)
    | PromotionReady(package: Package, transition: Transition, incoming: Epoch, outgoing: Epoch)

  /** reconcile_handoff. */
  datatype ReconcileStage =
    | Reconcile(handoff: Id, answer: Option<Result>)
    | ReconcileOf(package: Package, answer: Option<Result>)
    | ReconcileAt(package: Package, transition: Transition, answer: Option<Result>)
    | ReconcileDurable(package: Package, result: Result)
    | ReconcileOpen(package: Package, transition: Transition, incoming: Epoch, result: Result)

  /** rollback_handoff. */
  datatype RollbackStage =
    | Rollback(handoff: Id)
    | RollbackOf(package: Package)
    | RollbackAt(package: Package, transition: Transition)
    | RollbackFrom(package: Package, transition: Transition, outgoing: Epoch)
    | RollbackTo(package: Package, transition: Transition, outgoing: Epoch, incoming: Epoch)
    | RollbackHeld(package: Package, transition: Transition, outgoing: Epoch, incoming: Epoch, op: Fence)
    | RollbackCancelled(package: Package, transition: Transition, outgoing: Epoch, incoming: Epoch, op: Fence)
    | RollbackReady(package: Package, transition: Transition, outgoing: Epoch, incoming: Epoch, op: Fence)
    | RollbackBlocked(package: Package, transition: Transition, incoming: Epoch)

  /** recover_failover_execution. */
  datatype RecoveryStage =
    | Recovery(execution: Id)
    | RecoveryOf(copy: Execution)
    | RecoveryHeld(copy: Execution, op: Fence)
    | RecoveryUnblocked(copy: Execution, op: Fence)
    | RecoveryBound(copy: Execution, op: Fence)
    | RecoveryInspected(copy: Execution, op: Fence, result: Result)
    | RecoveryAttempt(copy: Execution, op: Fence, attempt: Attempt)
    | RecoveryAttemptOpen(copy: Execution, op: Fence, attempt: Attempt)
    | RecoveryMayCall(copy: Execution, op: Fence, attempt: Attempt)
    | RecoveryAnswered(copy: Execution, op: Fence, attempt: Attempt, result: Result, called: bool)
    | RecoveryFinal(copy: Execution, op: Fence, resume: Option<Id>)

  /** discover, activate and recover. */
  datatype SessionStage =
    | Discover
    | DiscoverHeld(op: Fence)
    | DiscoverDone(op: Fence)
    | Activate(provider: Id)
    | ActivateStarted(provider: Id, external: Option<Id>)
    | Recover(session: SessionId)

  datatype Call =
    | FailoverCall(failover: FailoverStage)
    | HandoffCall(handoff: HandoffStage)
    | CompletionCall(completion: CompletionStage)
    | ReconcileCall(reconcile: ReconcileStage)
    | RollbackCall(rollback: RollbackStage)
    | RecoveryCall(recovery: RecoveryStage)
    | SessionCall(session: SessionStage)

  datatype Cause =
    | ByPromotion(handoff: Id) | ByRollback(handoff: Id) | ByRecovery(execution: Id) | ByDiscovery(call: Id)

  datatype Event =
    | Reserved(generation: nat, owner: Id)
    | Released(generation: nat, cause: Cause)
    | Imported(generation: nat, handoff: Id)
    | Executed(decision: Id, execution: Id, generation: nat)
    | RecoverPermitted(execution: Id, call: Id)
    | RecoverCalled(execution: Id, call: Id)

  datatype World = World(db: Db, calls: map<Id, Call>, next: Id, trace: seq<Event>)

  /** Everything the environment decides in one step. */
  datatype Input = Input(
    result: Result, flag: bool, evidence: E.Evidence, now: int, later: int,
    external: Option<Id>, sessions: seq<(SessionId, Session)>)

  datatype Action = Begin(call: Call) | Advance(id: Id, input: Input) | Crash(id: Id)

  /** The entry points; every other program counter is reached from one of them. */
  predicate IsEntry(c: Call) {
    match c
    case FailoverCall(s) => s.Evaluate? || s.Execute?
    case HandoffCall(s) => s.Handoff? && s.held.None?
    case CompletionCall(s) => false
    case ReconcileCall(s) => s.Reconcile?
    case RollbackCall(s) => s.Rollback?
    case RecoveryCall(s) => s.Recovery?
    case SessionCall(s) => s.Discover? || s.Activate? || s.Recover?
  }

  function Empty(instance: Id): Db {
    Db(instance, INITIAL, map[], None, map[], map[], map[], map[], map[], map[], map[])
  }

  function Start(instance: Id): World { World(Empty(instance), map[], 0, []) }

  // ----- Building the next world -----

  function Goto(w: World, t: Id, c: Call): World { w.(calls := w.calls[t := c]) }

  function End(w: World, t: Id): World { w.(calls := w.calls - {t}) }

  /** Commit and continue, or raise and end the call. */
  function Commit(w: World, t: Id, db: Option<Db>, c: Call, events: seq<Event>): World {
    if db.Some? then World(db.value, w.calls[t := c], w.next, w.trace + events) else End(w, t)
  }

  function CommitAndEnd(w: World, t: Id, db: Option<Db>, events: seq<Event>): World {
    if db.Some? then World(db.value, w.calls - {t}, w.next, w.trace + events) else End(w, t)
  }

  // ----- The steps -----

  ghost function StepFailover(w: World, t: Id, c: FailoverStage, i: Input): World {
    var db := w.db;
    match c
    case Evaluate =>
      var e := EvaluateFailover(db, t, i.evidence, i.now);
      if e.Some? && e.value.Decided? && e.value.decision.allowed
      then Goto(w, t, FailoverCall(SaveEvaluation(e.value.decision))) else End(w, t)
    case SaveEvaluation(d) => CommitAndEnd(w, t, SaveDecision(db, t, d), [])
    case Execute(d) =>
      if d in db.decisions && db.decisions[d].decision.instance == db.instance && db.decisions[d].decision.allowed
         && !db.decisions[d].consumed && db.decisions[d].decision.expiresAt > i.now
      then Goto(w, t, FailoverCall(ExecuteChecked(d, db.decisions[d]))) else End(w, t)
    case ExecuteChecked(d, original) => StepExecute(w, t, d, original, i)
  }

  ghost function StepExecute(w: World, t: Id, d: Id, original: DecisionRow, i: Input): World {
    if original.decision.incoming.None? then End(w, t)
    else Commit(w, t, ExecuteFailover(w.db, t, d, original, i.evidence, i.now, i.later),
                HandoffCall(Handoff(original.decision.incoming.value, Some(Fenced(w.db.fence.generation, t)))),
                [Reserved(w.db.fence.generation, t), Executed(d, t, w.db.fence.generation)])
  }

  ghost function StepHandoff(w: World, t: Id, c: HandoffStage, i: Input): World {
    var db := w.db;
    match c
    case Handoff(provider, held) =>
      if db.Blocked() || (held.None? && db.fence.Fenced?) then End(w, t)
      else Goto(w, t, HandoffCall(HandoffUnblocked(provider, held)))
    case HandoffUnblocked(provider, held) =>
      if e :| e in db.epochs && Authoritative(db) == {e} then
        if IsAcknowledged(db.epochs[e].state) then Goto(w, t, HandoffCall(HandoffFrom(provider, held, db.epochs[e])))
        else End(w, t)
      else End(w, t)
    case HandoffFrom(provider, held, outgoing) =>
      if held.None? then
        Commit(w, t, ReserveOperation(db, t),
            HandoffCall(HandoffReserved(Plan(provider, Fenced(db.fence.generation, t), false, outgoing))),
               [Reserved(db.fence.generation, t)])
      else if db.fence == held.value
      then Goto(w, t, HandoffCall(HandoffReserved(Plan(provider, held.value, true, outgoing))))
      else End(w, t)
    case HandoffReserved(plan) =>
      if plan.failover
      then Commit(w, t, MoveExecution(db, t, ExReserved, Draining, None), HandoffCall(HandoffDraining(plan)), [])
      else Goto(w, t, HandoffCall(HandoffDraining(plan)))
    case HandoffDraining(plan) =>
      // The dispatch rows a drain cancels are modelled with the dispatches; here it must find its fence.
      if db.fence == plan.op then Goto(w, t, HandoffCall(HandoffDrained(plan))) else End(w, t)
    case HandoffDrained(plan) =>
      Goto(w, t, if i.flag then HandoffCall(HandoffCheckpointed(plan)) else HandoffCall(HandoffUnusable(plan)))
    case HandoffUnusable(plan) =>
      if plan.failover then CommitAndEnd(w, t, MoveExecution(db, t, Draining, BlockedPreimport, None), [])
      else End(w, t)
    case HandoffCheckpointed(plan) =>
      if plan.failover
      then Commit(w, t, MoveExecution(db, t, Draining, TransitionStarted, None), HandoffCall(HandoffImporting(plan)),
        [])
      else Goto(w, t, HandoffCall(HandoffImporting(plan)))
    case HandoffImporting(plan) => StepImport(w, t, plan)
    case HandoffImported(p, incoming) => Goto(w, t, CompletionCall(Complete(p, incoming, i.result, false)))
  }

  function StepImport(w: World, t: Id, plan: Plan): World {
    if plan.op.Open? then End(w, t)
    else
      Commit(w, t, StartImport(w.db, t, plan.provider, plan.op, plan.outgoing),
             HandoffCall(HandoffImported(NewPackage(w.db, t, plan.provider, plan.op, plan.outgoing.id),
                 IncomingEpoch(w.db, t, plan.provider))),
             [Imported(plan.op.generation, t)])
  }

  ghost function StepComplete(w: World, t: Id, c: CompletionStage, i: Input): World {
    var db := w.db;
    match c
    case Complete(p, incoming, r, quarantine) => StepImportAnswer(w, t, p, incoming, r, quarantine)
    case Promotion(h) => if h in db.packages then Goto(w, t, CompletionCall(PromotionOf(db.packages[h]))) else End(w, t)
    case PromotionOf(p) =>
      if db.transition.Some? && db.transition.value.state == ImportAcknowledged
      then Goto(w, t, CompletionCall(PromotionAt(p, db.transition.value))) else End(w, t)
    case PromotionAt(p, tr) =>
      if tr.incoming in db.epochs then Goto(w, t, CompletionCall(PromotionTo(p, tr, db.epochs[tr.incoming])))
      else End(w, t)
    case PromotionTo(p, tr, incoming) =>
      if tr.outgoing in db.epochs
      then Goto(w, t, CompletionCall(PromotionFrom(p, tr, incoming, db.epochs[tr.outgoing]))) else End(w, t)
    case PromotionFrom(p, tr, incoming, outgoing) =>
      if SessionBound(db, p, incoming) then Goto(w, t, CompletionCall(PromotionSession(p, tr, incoming, outgoing)))
      else End(w, t)
    case PromotionSession(p, tr, incoming, outgoing) =>
      if ResultBound(db, p, incoming) then Goto(w, t, CompletionCall(PromotionReady(p, tr, incoming, outgoing)))
      else End(w, t)
    case PromotionReady(p, tr, incoming, outgoing) => StepPromote(w, t, p, tr, incoming, outgoing)
  }

  function StepImportAnswer(w: World, t: Id, p: Package, incoming: Epoch, r: Result, quarantine: bool): World {
    if ImportAccepted(w.db, p, incoming, r)
    then Commit(w, t, AcknowledgeImport(w.db, p, incoming, r), CompletionCall(Promotion(p.id)), [])
    else CommitAndEnd(w, t, FailHandoff(w.db, p, incoming, r, quarantine), [])
  }

  function StepPromote(w: World, t: Id, p: Package, tr: Transition, incoming: Epoch, outgoing: Epoch): World {
    CommitAndEnd(w, t, Promote(w.db, p, tr, incoming, outgoing), [Released(w.db.fence.generation, ByPromotion(p.id))])
  }

  ghost function StepReconcile(w: World, t: Id, c: ReconcileStage, i: Input): World {
    var db := w.db;
    match c
    case Reconcile(h, answer) =>
      if h in db.packages then Goto(w, t, ReconcileCall(ReconcileOf(db.packages[h], answer))) else End(w, t)
    case ReconcileOf(p, answer) =>
      if db.transition.Some? && db.transition.value.handoff == p.id && IsBlocking(db.transition.value.state)
      then Goto(w, t, ReconcileCall(ReconcileAt(p, db.transition.value, answer))) else End(w, t)
    case ReconcileAt(p, tr, answer) =>
      if p.incomingEpoch !in db.epochs || db.epochs[p.incomingEpoch].closed then End(w, t)
      else if tr.state == ImportAcknowledged then
        Goto(w, t, if answer.Some? then ReconcileCall(ReconcileDurable(p, answer.value))
        else CompletionCall(Promotion(p.id)))
      else if answer.None? then End(w, t)
      else Goto(w, t, ReconcileCall(ReconcileOpen(p, tr, db.epochs[p.incomingEpoch], answer.value)))
    case ReconcileDurable(p, r) =>
      if p.importResult.Some? && p.importResult.value in db.results && SameBindings(r, db.results[p.importResult.value])
      then Goto(w, t, CompletionCall(Promotion(p.id))) else End(w, t)
    case ReconcileOpen(p, tr, incoming, r) => StepReopen(w, t, p, tr, incoming, r)
  }

  function StepReopen(w: World, t: Id, p: Package, tr: Transition, incoming: Epoch, r: Result): World {
    Commit(w, t, StartReconcile(w.db, p, tr),
        CompletionCall(Complete(p.(status := PkgReconciling), incoming, r, true)), [])
  }

  ghost function StepRollback(w: World, t: Id, c: RollbackStage, i: Input): World {
    var db := w.db;
    match c
    case Rollback(h) => if h in db.packages then Goto(w, t, RollbackCall(RollbackOf(db.packages[h]))) else End(w, t)
    case RollbackOf(p) =>
      if db.transition.Some? && db.transition.value.handoff == p.id && IsBlocking(db.transition.value.state)
      then Goto(w, t, RollbackCall(RollbackAt(p, db.transition.value))) else End(w, t)
    case RollbackAt(p, tr) =>
      if IsOpen(db, tr.outgoing) then Goto(w, t, RollbackCall(RollbackFrom(p, tr, db.epochs[tr.outgoing])))
      else End(w, t)
    case RollbackFrom(p, tr, outgoing) =>
      if tr.incoming in db.epochs then Goto(w, t, RollbackCall(RollbackTo(p, tr, outgoing, db.epochs[tr.incoming])))
      else End(w, t)
    case RollbackTo(p, tr, outgoing, incoming) =>
      var op := OperationFor(db, p);
      if op.Some? then Goto(w, t, RollbackCall(RollbackHeld(p, tr, outgoing, incoming, op.value))) else End(w, t)
    case RollbackHeld(p, tr, outgoing, incoming, op) =>
      // The durable incoming session, then the provider's cancel; `flag` says it was verified.
      Goto(w, t, if SessionBound(db, p, incoming) && DurablyAcknowledged(db, p, incoming) && i.flag
                 then RollbackCall(RollbackCancelled(p, tr, outgoing, incoming, op))
                 else RollbackCall(RollbackBlocked(p, tr, incoming)))
    case RollbackCancelled(p, tr, outgoing, incoming, op) =>
      Goto(w, t, if db.fence == op then RollbackCall(RollbackReady(p, tr, outgoing, incoming, op))
      else RollbackCall(RollbackBlocked(p, tr, incoming)))
    case RollbackReady(p, tr, outgoing, incoming, op) => StepRollBack(w, t, p, tr, outgoing, incoming, op)
    case RollbackBlocked(p, tr, incoming) => StepBlock(w, t, p, tr, incoming)
  }

  function StepRollBack(w: World, t: Id, p: Package, tr: Transition, outgoing: Epoch, incoming: Epoch,
      op: Fence): World {
    CommitAndEnd(w, t, RollBack(w.db, p, tr, incoming, outgoing, op),
        [Released(w.db.fence.generation, ByRollback(p.id))])
  }

  function StepBlock(w: World, t: Id, p: Package, tr: Transition, incoming: Epoch): World {
    CommitAndEnd(w, t, BlockRollback(w.db, p, tr, incoming), [])
  }

  ghost function StepRecovery(w: World, t: Id, c: RecoveryStage, i: Input): World {
    var db := w.db;
    match c
    case Recovery(e) =>
      if e in db.executions && IsRecoverable(db.executions[e].state)
      then Goto(w, t, RecoveryCall(RecoveryOf(db.executions[e]))) else End(w, t)
    case RecoveryOf(x) =>
      if db.fence == Fenced(x.generation, x.owner) then Goto(w, t, RecoveryCall(RecoveryHeld(x, db.fence)))
      else End(w, t)
    case RecoveryHeld(x, op) => if db.Blocked() then End(w, t) else Goto(w, t, RecoveryCall(RecoveryUnblocked(x, op)))
    case RecoveryUnblocked(x, op) =>
      if x.outgoing in db.epochs && db.epochs[x.outgoing].session == x.session
          && db.epochs[x.outgoing].provider == x.provider
         && !exists e | e in db.epochs :: IsOpen(db, e) && db.epochs[e].ordinal > db.epochs[x.outgoing].ordinal
      then Goto(w, t, if x.state == ExReserved then RecoveryCall(RecoveryFinal(x, op, None))
      else RecoveryCall(RecoveryBound(x, op))) else End(w, t)
    case RecoveryBound(x, op) => StepClaim(w, t, x, op, i)
    case RecoveryInspected(x, op, r) =>
      Commit(w, t, SaveResult(db, r), RecoveryCall(RecoveryFinal(x, op, Some(r.id))), [])
    case RecoveryAttempt(x, op, a) => StepReplay(w, t, x, op, a)
    case RecoveryAttemptOpen(x, op, a) => StepPermit(w, t, x, op, a, i)
    case RecoveryMayCall(x, op, a) => StepCallRecover(w, t, x, op, a, i)
    case RecoveryAnswered(x, op, a, r, called) => StepRecord(w, t, x, op, a, r, called)
    case RecoveryFinal(x, op, resume) => StepFinal(w, t, x, op, resume)
  }

  /** An interrupted drain is only inspected; a blocked execution is claimed; a claimed one is taken up again. */
  function StepClaim(w: World, t: Id, x: Execution, op: Fence, i: Input): World {
    if x.state == Draining then
      if RecoveryValid(w.db, x, i.result, None) then Goto(w, t, RecoveryCall(RecoveryInspected(x, op, i.result)))
      else End(w, t)
    else if x.state == BlockedPreimport then
      Commit(w, t, ClaimRecovery(w.db, t, x.id),
          RecoveryCall(RecoveryAttempt(x.(state := Recovering), op, Attempt(t, x.id, Pending))), [])
    else if x.id in w.db.attempts then Goto(w, t, RecoveryCall(RecoveryAttempt(x, op, w.db.attempts[x.id])))
    else End(w, t)
  }

  /** A recorded outcome is replayed, without any provider call. */
  function StepReplay(w: World, t: Id, x: Execution, op: Fence, a: Attempt): World {
    if a.id !in w.db.outcomes then Goto(w, t, RecoveryCall(RecoveryAttemptOpen(x, op, a)))
    else
      var o := w.db.outcomes[a.id];
      if o.result !in w.db.results then End(w, t)
      else
        var r := w.db.results[o.result];
        if o.request == r.request && o.state == r.state
           && RecoveryValid(w.db, x, r, if r.recoveryEvidence.Some? then Some(a.id) else None)
        then Goto(w, t, RecoveryCall(RecoveryFinal(x, op, Some(o.result)))) else End(w, t)
  }

  /** A pending attempt may call the provider once it is marked started; a started one is only inspected. */
  function StepPermit(w: World, t: Id, x: Execution, op: Fence, a: Attempt, i: Input): World {
    if a.state == Pending then
      Commit(w, t, MoveAttempt(w.db, x.id, Pending, ExternalStarted),
          RecoveryCall(RecoveryMayCall(x, op, a.(state := ExternalStarted))),
             [RecoverPermitted(x.id, t)])
    else Goto(w, t, RecoveryCall(RecoveryAnswered(x, op, a, i.result, false)))
  }

  function StepCallRecover(w: World, t: Id, x: Execution, op: Fence, a: Attempt, i: Input): World {
    Goto(w.(trace := w.trace + [RecoverCalled(x.id, t)]), t, RecoveryCall(RecoveryAnswered(x, op, a, i.result, true)))
  }

  function StepRecord(w: World, t: Id, x: Execution, op: Fence, a: Attempt, r: Result, called: bool): World {
    if RecoveryValid(w.db, x, r, if called then Some(a.id) else None)
    then Commit(w, t, RecordRecovery(w.db, x.id, a.id, r), RecoveryCall(RecoveryFinal(x, op, Some(r.id))), [])
    else End(w, t)
  }

  function StepFinal(w: World, t: Id, x: Execution, op: Fence, resume: Option<Id>): World {
    CommitAndEnd(w, t, FinalizeRecovery(w.db, x, op, resume), [Released(w.db.fence.generation, ByRecovery(x.id))])
  }

  ghost function StepSession(w: World, t: Id, c: SessionStage, i: Input): World {
    var db := w.db;
    match c
    case Discover =>
      Commit(w, t, ReserveOperation(db, t), SessionCall(DiscoverHeld(Fenced(db.fence.generation, t))),
          [Reserved(db.fence.generation, t)])
    case DiscoverHeld(op) => StepDiscovery(w, t, op, i)
    case DiscoverDone(op) =>
      CommitAndEnd(w, t, ReleaseOperation(db, op), [Released(db.fence.generation, ByDiscovery(t))])
    case Activate(provider) =>
      if db.Blocked() || db.fence.Fenced? || Authoritative(db) != {} then End(w, t)
      else Goto(w, t, SessionCall(ActivateStarted(provider, i.external)))
    case ActivateStarted(provider, external) =>
      CommitAndEnd(w, t, OpenEpoch(db, t, provider, None, external, Running), [])
    case Recover(session) => CommitAndEnd(w, t, RecoverSession(db, t, session, i.result), [])
  }

  /** The commit may raise; the release in the finally clause runs either way. */
  function StepDiscovery(w: World, t: Id, op: Fence, i: Input): World {
    var saved := if i.flag then CommitDiscovery(w.db, op, i.sessions) else None;
    Goto(if saved.Some? then w.(db := saved.value) else w, t, SessionCall(DiscoverDone(op)))
  }

  ghost function StepCall(w: World, t: Id, c: Call, i: Input): World {
    match c
    case FailoverCall(s) => StepFailover(w, t, s, i)
    case HandoffCall(s) => StepHandoff(w, t, s, i)
    case CompletionCall(s) => StepComplete(w, t, s, i)
    case ReconcileCall(s) => StepReconcile(w, t, s, i)
    case RollbackCall(s) => StepRollback(w, t, s, i)
    case RecoveryCall(s) => StepRecovery(w, t, s, i)
    case SessionCall(s) => StepSession(w, t, s, i)
  }

  /** `v` is the world after one step of call `t`. */
  ghost predicate Moves(w: World, v: World, t: Id, i: Input) { t in w.calls && v == StepCall(w, t, w.calls[t], i) }

  /** Call `t` has come to this point. */
  predicate Stands(w: World, t: Id, c: Call) { t in w.calls && w.calls[t] == c }

  ghost function Step(w: World, a: Action): World {
    match a
    case Begin(c) => if IsEntry(c) then w.(calls := w.calls[w.next := c], next := w.next + 1) else w
    case Crash(t) => End(w, t)
    case Advance(t, i) => if t in w.calls then StepCall(w, t, w.calls[t], i) else w
  }

  ghost function Run(w: World, actions: seq<Action>): World {
    if actions == [] then w else Step(Run(w, actions[..|actions| - 1]), actions[|actions| - 1])
  }

  // ----- Runs in pieces -----

  /** Several steps of one call. */
  function Steps(t: Id, inputs: seq<Input>): (r: seq<Action>)
    ensures |r| == |inputs| && forall k | 0 <= k < |r| :: r[k] == Advance(t, inputs[k])
  {
    seq(|inputs|, k requires 0 <= k < |inputs| => Advance(t, inputs[k]))
  }

  lemma {:induction false} RunFirst(w: World, a: Action, rest: seq<Action>)
    ensures Run(w, [a] + rest) == Run(Step(w, a), rest)
  {
    hide Step, StepCall;
    if rest == [] {
      assert [a][..0] == [] && [a] + rest == [a];
    } else {
      var all := [a] + rest;
      assert all[..|all| - 1] == [a] + rest[..|rest| - 1];
      RunFirst(w, a, rest[..|rest| - 1]);
    }
  }

  lemma {:induction false} RunJoin(w: World, a: seq<Action>, b: seq<Action>)
    ensures Run(w, a + b) == Run(Run(w, a), b)
  {
    hide Step, StepCall;
    if b == [] { assert a + b == a; }
    else {
      assert (a + b)[..|a + b| - 1] == a + b[..|b| - 1];
      RunJoin(w, a, b[..|b| - 1]);
    }
  }

  /** Running the first of several steps of one call. */
  lemma AdvanceFirst(w: World, t: Id, inputs: seq<Input>)
    requires inputs != []
    ensures Run(w, Steps(t, inputs)) == Run(Step(w, Advance(t, inputs[0])), Steps(t, inputs[1..]))
  {
    hide Step, StepCall;
    assert Steps(t, inputs) == [Advance(t, inputs[0])] + Steps(t, inputs[1..]);
    RunFirst(w, Advance(t, inputs[0]), Steps(t, inputs[1..]));
  }

  lemma ThreeFirst(w: World, t: Id, inputs: seq<Input>)
    requires |inputs| >= 3
    ensures Run(w, Steps(t, inputs))
      == Run(Step(Step(Step(w, Advance(t, inputs[0])), Advance(t, inputs[1])), Advance(t, inputs[2])),
        Steps(t, inputs[3..]))
  {
    hide Step, StepCall;
    var a := Step(w, Advance(t, inputs[0]));
    var b := Step(a, Advance(t, inputs[1]));
    AdvanceFirst(w, t, inputs);
    AdvanceFirst(a, t, inputs[1..]);
    AdvanceFirst(b, t, inputs[2..]);
    assert inputs[1..][1..] == inputs[2..] && inputs[2..][1..] == inputs[3..];
  }

  /** The same input over and over: enough for a call that asks each question once. */
  function Repeat(i: Input, n: int): (r: seq<Input>)
    ensures n >= 0 ==> |r| == n && forall k | 0 <= k < n :: r[k] == i
  {
    if n < 0 then [] else seq(n, k => i)
  }
}
