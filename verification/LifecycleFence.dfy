/** Who may hold, use and open the fence, under every interleaving of lifecycle calls. */
module LifecycleFence {
  import opened Contracts
  import opened Fences
  import opened LifecycleStore
  import opened LifecycleRuns
  import E = FailoverEvidence

  // ----- The invariant on the database -----

  /** The parts of a package that never change. */
  predicate SameBinding(p: Package, q: Package) {
    p.id == q.id && p.outgoing == q.outgoing && p.provider == q.provider && p.incomingEpoch == q.incomingEpoch
    && p.incomingSession == q.incomingSession && p.generation == q.generation && p.owner == q.owner
  }

  /** The parts of an execution that never change. */
  predicate SameExecution(x: Execution, y: Execution) {
    x == y.(state := x.state, resume := x.resume)
  }

  /** The handoff whose transition is under way. */
  predicate UnderWay(db: Db, h: Id) { db.Blocked() && db.transition.value.handoff == h }

  /** A package is either under way or its generation has been released. */
  ghost predicate PackageOk(db: Db, p: Id)
    requires p in db.packages
  {
    var k := db.packages[p];
    && k.id == p && k.owner == p && k.incomingEpoch == p
    && (db.fence.generation > k.generation || UnderWay(db, p))
    && (p in db.executions ==>
      db.executions[p].state == TransitionStarted && db.executions[p].generation == k.generation)
  }

  /** An execution before its import, or one that started its import but has not committed it, holds
      the fence with its own generation and owner. */
  ghost predicate ExecutionOk(db: Db, e: Id)
    requires e in db.executions
  {
    var x := db.executions[e];
    && x.id == e && x.owner == e && x.generation <= db.fence.generation
    && (IsRecoverable(x.state) || (x.state == TransitionStarted && e !in db.packages) ==>
          db.fence == Fenced(x.generation, e))
  }

  /** A transition under way holds the fence exactly as its package records. */
  ghost predicate TransitionOk(db: Db) {
    db.transition.Some? ==>
      var t := db.transition.value;
      && t.handoff in db.packages && t.incoming == t.handoff && db.packages[t.handoff].outgoing == t.outgoing
      && (db.Blocked() ==> db.fence == Fenced(db.packages[t.handoff].generation, t.handoff))
  }

  ghost predicate DbOk(db: Db, next: Id) {
    && (forall p | p in db.packages :: p < next && PackageOk(db, p))
    && (forall e | e in db.executions :: e < next && ExecutionOk(db, e))
    && TransitionOk(db)
    && (db.fence.Fenced? ==> db.fence.owner < next)
  }

  // ----- The invariant on calls -----

  /** Nothing carries this id yet. */
  predicate Unused(db: Db, t: Id) { t !in db.packages && t !in db.executions }

  /** Call `t` owns execution `t` and has not started its import. */
  predicate OwnsExecution(db: Db, t: Id, op: Fence) {
    && op.Fenced? && op.owner == t && t !in db.packages
    && t in db.executions && db.executions[t].generation == op.generation && db.executions[t].state != TransitionStarted
  }

  predicate PlanOk(db: Db, t: Id, plan: Plan) {
    if plan.failover then OwnsExecution(db, t, plan.op)
    else plan.op.Fenced? && plan.op.owner == t && Unused(db, t) && db.fence == plan.op
  }

  predicate PackageCopy(db: Db, p: Package) { p.id in db.packages && SameBinding(p, db.packages[p.id]) }

  predicate ExecutionCopy(db: Db, x: Execution, op: Fence) {
    x.id in db.executions && SameExecution(x, db.executions[x.id]) && op == Fenced(x.generation, x.owner)
  }

  /** What a call knows: nothing yet but its own id, a reservation it brought or took, a copy of a
      package, or a copy of an execution with its reservation. */
  datatype Knowledge =
    | Nothing
    | OwnId
    | Found(decision: E.Decision)
    | Checked(original: DecisionRow)
    | Brought(held: Fence)
    | Planned(plan: Plan)
    | Ready(plan: Plan)
    | Copied(package: Package)
    | CopiedHeld(package: Package, op: Fence)
    | Studied(execution: Execution, op: Fence)
    | Took(op: Fence)

  function Brings(held: Option<Fence>): Knowledge { if held.None? then OwnId else Brought(held.value) }

  function KnowsInFailover(s: FailoverStage): Knowledge {
    match s
    case Evaluate => Nothing
    case SaveEvaluation(found) => Found(found)
    case Execute(_) => OwnId
    case ExecuteChecked(_, original) => Checked(original)
  }

  function KnowsInHandoff(s: HandoffStage): Knowledge {
    match s
    case Handoff(_, held) => Brings(held)
    case HandoffUnblocked(_, held) => Brings(held)
    case HandoffFrom(_, held, _) => Brings(held)
    case HandoffReserved(plan) => Planned(plan)
    case HandoffDraining(plan) => Planned(plan)
    case HandoffDrained(plan) => Planned(plan)
    case HandoffUnusable(plan) => Planned(plan)
    case HandoffCheckpointed(plan) => Planned(plan)
    case HandoffImporting(plan) => Ready(plan)
    case HandoffImported(p, _) => Copied(p)
  }

  function KnowsInRecovery(s: RecoveryStage): Knowledge {
    match s
    case Recovery(_) => Nothing
    case RecoveryOf(x) => Studied(x, Fenced(x.generation, x.owner))
    case _ => Studied(s.copy, s.op)
  }

  function KnowsInSession(s: SessionStage): Knowledge {
    match s
    case Discover => OwnId
    case DiscoverHeld(op) => Took(op)
    case DiscoverDone(op) => Took(op)
    case _ => Nothing
  }

  function Knows(c: Call): Knowledge {
    match c
    case FailoverCall(s) => KnowsInFailover(s)
    case HandoffCall(s) => KnowsInHandoff(s)
    case CompletionCall(s) => if s.Promotion? then Nothing else Copied(s.package)
    case ReconcileCall(s) => if s.Reconcile? then Nothing else Copied(s.package)
    case RollbackCall(s) =>
      if s.Rollback? then Nothing
      else if s.RollbackHeld? || s.RollbackCancelled? || s.RollbackReady? then CopiedHeld(s.package, s.op)
      else Copied(s.package)
    case RecoveryCall(s) => KnowsInRecovery(s)
    case SessionCall(s) => KnowsInSession(s)
  }

  /** What is true of that knowledge. */
  predicate Justified(db: Db, t: Id, k: Knowledge) {
    match k
    case Nothing => true
    case OwnId => Unused(db, t)
    case Found(decision) => decision.generation <= db.fence.generation
    case Checked(original) => Unused(db, t) && original.decision.allowed
    case Brought(held) => OwnsExecution(db, t, held)
    case Planned(plan) => PlanOk(db, t, plan)
    case Ready(plan) =>
      && plan.op.Fenced? && plan.op.owner == t && t !in db.packages
      && (if plan.failover
          then t in db.executions && db.executions[t].generation == plan.op.generation
            && db.executions[t].state == TransitionStarted
          else t !in db.executions && db.fence == plan.op)
    case Copied(p) => PackageCopy(db, p)
    case CopiedHeld(p, op) => PackageCopy(db, p) && op == Fenced(p.generation, p.owner)
    case Studied(x, op) => ExecutionCopy(db, x, op)
    case Took(op) => Unused(db, t) && op.Fenced? && op.owner == t && db.fence == op
  }

  predicate CallOk(db: Db, t: Id, c: Call) { Justified(db, t, Knows(c)) }

  ghost predicate FenceInv(w: World) {
    DbOk(w.db, w.next) && forall t | t in w.calls :: t < w.next && CallOk(w.db, t, w.calls[t])
  }

  // ----- The frame -----

  /** What a step of call `t` may do to the records the other calls rely on. */
  ghost predicate Evolves(db: Db, after: Db, t: Id) {
    && db.fence.generation <= after.fence.generation
    && (forall p | p in db.packages :: p in after.packages && SameBinding(db.packages[p], after.packages[p]))
    && (forall p | p in after.packages :: p in db.packages || p == t)
    && (forall e | e in db.executions :: e in after.executions && SameExecution(db.executions[e], after.executions[e]))
    && (forall e | e in after.executions :: e in db.executions || e == t)
    && (forall e | e in db.executions && e != t ::
          db.executions[e].state == TransitionStarted <==> after.executions[e].state == TransitionStarted)
    && (after.fence == db.fence || db.fence.Open? || db.fence.owner == t
        || db.fence.owner in db.packages || db.fence.owner in db.executions)
  }

  lemma FrameCall(db: Db, after: Db, t: Id, u: Id, c: Call)
    requires Evolves(db, after, t) && u != t && CallOk(db, u, c)
    ensures CallOk(after, u, c)
  {
  }

  /** Put a step together: a good database, a frame for the others, and a good continuation. */
  lemma Assemble(w: World, v: World, t: Id)
    requires FenceInv(w) && t in w.calls && v.next == w.next
    requires DbOk(v.db, v.next) && Evolves(w.db, v.db, t)
    requires forall u | u in v.calls && u != t :: u in w.calls && v.calls[u] == w.calls[u]
    requires t in v.calls ==> CallOk(v.db, t, v.calls[t])
    ensures FenceInv(v)
  {
    forall u | u in v.calls ensures u < v.next && CallOk(v.db, u, v.calls[u]) {
      if u != t { FrameCall(w.db, v.db, t, u, w.calls[u]); }
    }
  }

  /** The same records as far as the fence is concerned. */
  predicate SameView(db: Db, after: Db) {
    after.fence == db.fence && after.transition == db.transition && after.packages == db.packages
    && after.executions == db.executions
  }

  lemma SameViewKeeps(db: Db, after: Db, t: Id, next: Id)
    requires DbOk(db, next) && SameView(db, after)
    ensures DbOk(after, next) && Evolves(db, after, t)
  {
    assert after.Blocked() == db.Blocked();
    forall p | p in after.packages ensures PackageOk(after, p) { assert PackageOk(db, p); }
    forall e | e in after.executions ensures ExecutionOk(after, e) { assert ExecutionOk(db, e); }
  }

  // ----- The transactions -----

  lemma ReserveKeeps(db: Db, t: Id, next: Id)
    requires DbOk(db, next) && t < next && db.fence.Open?
    ensures var after := db.(fence := Fenced(db.fence.generation, t));
      DbOk(after, next) && Evolves(db, after, t)
  {
    var after := db.(fence := Fenced(db.fence.generation, t));
    forall p | p in after.packages ensures PackageOk(after, p) { assert PackageOk(db, p); }
    forall e | e in after.executions ensures ExecutionOk(after, e) { assert ExecutionOk(db, e); }
  }

  lemma ExecuteEffect(db: Db, t: Id, id: Id, original: DecisionRow, i: Input)
    requires ExecuteFailover(db, t, id, original, i.evidence, i.now, i.later).Some?
    ensures var after := ExecuteFailover(db, t, id, original, i.evidence, i.now, i.later).value;
      && db.fence.Open? && t !in db.executions
      && after.fence == Fenced(db.fence.generation, t) && after.transition == db.transition
      && after.packages == db.packages && t in after.executions
      && after.executions == db.executions[t := after.executions[t]]
      && after.executions[t].id == t && after.executions[t].owner == t && after.executions[t].decision == id
      && after.executions[t].generation == db.fence.generation && after.executions[t].state == ExReserved
      && after.attempts == db.attempts && after.outcomes == db.outcomes
      && id in db.decisions && db.decisions[id] == original && !original.consumed
      && original.decision.generation == db.fence.generation
      && after.decisions == db.decisions[id := original.(consumed := true)]
  {
  }

  /** Executing a decision touches only the fence, the executions and the decisions. */
  lemma ExecuteFrame(db: Db, t: Id, id: Id, original: DecisionRow, i: Input)
    requires ExecuteFailover(db, t, id, original, i.evidence, i.now, i.later).Some?
    ensures var after := ExecuteFailover(db, t, id, original, i.evidence, i.now, i.later).value;
      after == db.(fence := after.fence, executions := after.executions, decisions := after.decisions)
  {
    hide EvaluateFailover;
  }

  lemma ExecuteKeeps(db: Db, t: Id, id: Id, original: DecisionRow, i: Input, next: Id)
    requires DbOk(db, next) && t < next && Unused(db, t)
    requires ExecuteFailover(db, t, id, original, i.evidence, i.now, i.later).Some?
    ensures var after := ExecuteFailover(db, t, id, original, i.evidence, i.now, i.later).value;
      DbOk(after, next) && Evolves(db, after, t) && OwnsExecution(after, t, Fenced(db.fence.generation, t))
  {
    hide EvaluateFailover, ExecuteFailover;
    ExecuteEffect(db, t, id, original, i);
    var after := ExecuteFailover(db, t, id, original, i.evidence, i.now, i.later).value;
    assert after.Blocked() == db.Blocked();
    forall p | p in after.packages ensures PackageOk(after, p) { assert PackageOk(db, p); }
    forall e | e in after.executions ensures ExecutionOk(after, e) { if e != t { assert ExecutionOk(db, e); } }
  }

  lemma MoveKeeps(db: Db, t: Id, e: Id, expected: ExecutionState, to: ExecutionState, resume: Option<Id>, next: Id)
    requires DbOk(db, next) && MoveExecution(db, e, expected, to, resume).Some? && to != Recovered
    requires to == TransitionStarted ==> t == e && e !in db.packages
    ensures var after := MoveExecution(db, e, expected, to, resume).value;
      DbOk(after, next) && Evolves(db, after, t)
  {
    var after := MoveExecution(db, e, expected, to, resume).value;
    assert ExecutionOk(db, e) && IsRecoverable(expected);
    RecoverableIsUnblocked(db, e, next);
    assert after.Blocked() == db.Blocked();
    forall p | p in after.packages ensures PackageOk(after, p) { assert PackageOk(db, p); }
    forall x | x in after.executions ensures ExecutionOk(after, x) { assert ExecutionOk(db, x); }
  }

  lemma ImportEffect(db: Db, t: Id, plan: Plan)
    requires plan.op.Fenced? && StartImport(db, t, plan.provider, plan.op, plan.outgoing).Some?
    ensures var after := StartImport(db, t, plan.provider, plan.op, plan.outgoing).value;
      && !db.Blocked() && after.fence == db.fence && after.executions == db.executions
      && after.transition == Some(Transition(t, plan.outgoing.id, t, Importing))
      && after.packages == db.packages[t := NewPackage(db, t, plan.provider, plan.op, plan.outgoing.id)]
      && after.attempts == db.attempts && after.decisions == db.decisions && after.outcomes == db.outcomes
  {
  }

  lemma ImportKeeps(db: Db, t: Id, plan: Plan, next: Id)
    requires DbOk(db, next) && t < next && Justified(db, t, Ready(plan))
    requires StartImport(db, t, plan.provider, plan.op, plan.outgoing).Some?
    ensures db.fence == plan.op
    ensures var after := StartImport(db, t, plan.provider, plan.op, plan.outgoing).value;
      DbOk(after, next) && Evolves(db, after, t)
      && PackageCopy(after, NewPackage(db, t, plan.provider, plan.op, plan.outgoing.id))
  {
    hide StartImport, FailHandoff, AcknowledgeImport, Promote;
    ImportEffect(db, t, plan);
    if plan.failover { assert ExecutionOk(db, t); }
    var after := StartImport(db, t, plan.provider, plan.op, plan.outgoing).value;
    forall p | p in after.packages ensures PackageOk(after, p) { if p != t { assert PackageOk(db, p); } }
    forall e | e in after.executions ensures ExecutionOk(after, e) { assert ExecutionOk(db, e); }
  }

  /** Rewriting a package and moving the transition without ending it keeps everything. */
  lemma RewriteKeeps(db: Db, after: Db, t: Id, p: Package, next: Id)
    requires DbOk(db, next) && PackageCopy(db, p)
    requires after.fence == db.fence && after.executions == db.executions
    requires after.packages == db.packages[p.id := p] || after.packages == db.packages
    requires after.transition == db.transition
      || (db.Blocked() && after.Blocked()
        && after.transition.value == db.transition.value.(state := after.transition.value.state))
    ensures DbOk(after, next) && Evolves(db, after, t)
  {
    assert after.Blocked() == db.Blocked();
    forall q | q in after.packages ensures PackageOk(after, q) { assert PackageOk(db, q); }
    forall e | e in after.executions ensures ExecutionOk(after, e) { assert ExecutionOk(db, e); }
  }

  lemma FailEffect(db: Db, p: Package, incoming: Epoch, r: Result, quarantine: bool)
    requires FailHandoff(db, p, incoming, r, quarantine).Some?
    ensures var after := FailHandoff(db, p, incoming, r, quarantine).value;
      && after.fence == db.fence && after.executions == db.executions && db.Blocked()
      && after.packages == db.packages[p.id := p.(status := if quarantine then PkgQuarantined else PkgBlocked)]
      && after.transition == Some(db.transition.value.(state := HandoffFailed))
      && after.attempts == db.attempts && after.decisions == db.decisions && after.outcomes == db.outcomes
  {
  }

  lemma AcknowledgeEffect(db: Db, p: Package, incoming: Epoch, r: Result)
    requires AcknowledgeImport(db, p, incoming, r).Some?
    ensures var after := AcknowledgeImport(db, p, incoming, r).value;
      && after.fence == db.fence && after.executions == db.executions && db.Blocked()
      && after.packages == db.packages[p.id :=
           p.(status := PkgImportAcknowledged, importResult := Some(r.id), external := r.external)]
      && after.transition == Some(db.transition.value.(state := ImportAcknowledged))
      && after.attempts == db.attempts && after.decisions == db.decisions && after.outcomes == db.outcomes
  {
  }

  lemma PromoteEffect(db: Db, p: Package, t: Transition, incoming: Epoch, outgoing: Epoch)
    requires Promote(db, p, t, incoming, outgoing).Some?
    ensures var after := Promote(db, p, t, incoming, outgoing).value;
      && db.fence == Fenced(p.generation, p.owner) && after.fence == Open(p.generation + 1)
      && after.executions == db.executions && after.packages == db.packages[p.id := p.(status := PkgAcknowledged)]
      && db.transition.Some? && db.transition.value == t.(state := ImportAcknowledged)
      && after.transition == Some(t.(state := Completed))
      && after.attempts == db.attempts && after.decisions == db.decisions && after.outcomes == db.outcomes
  {
  }

  lemma RollBackEffect(db: Db, p: Package, t: Transition, incoming: Epoch, outgoing: Epoch, op: Fence)
    requires RollBack(db, p, t, incoming, outgoing, op).Some?
    ensures var after := RollBack(db, p, t, incoming, outgoing, op).value;
      && op.Fenced? && db.fence == op && after.fence == Open(op.generation + 1)
      && after.executions == db.executions && after.packages == db.packages[p.id := p.(status := PkgRolledBack)]
      && db.Blocked() && db.transition.value == t.(state := db.transition.value.state)
      && after.transition == Some(t.(state := RolledBack))
      && after.attempts == db.attempts && after.decisions == db.decisions && after.outcomes == db.outcomes
  {
  }

  lemma ReconcileEffect(db: Db, p: Package, t: Transition)
    requires StartReconcile(db, p, t).Some?
    ensures var after := StartReconcile(db, p, t).value;
      && after.fence == db.fence && after.executions == db.executions && db.Blocked()
      && after.packages == db.packages[p.id := p.(status := PkgReconciling)]
      && db.transition.value == t.(state := db.transition.value.state)
      && after.transition == Some(t.(state := Reconciling))
      && after.attempts == db.attempts && after.decisions == db.decisions && after.outcomes == db.outcomes
  {
  }

  lemma BlockEffect(db: Db, p: Package, t: Transition, incoming: Epoch)
    requires BlockRollback(db, p, t, incoming).Some?
    ensures var after := BlockRollback(db, p, t, incoming).value;
      && after.fence == db.fence && after.executions == db.executions
      && after.packages == db.packages[p.id := p.(status := PkgRollbackBlocked)]
      && (after.transition == db.transition
          || (db.Blocked() && after.transition == Some(db.transition.value.(state := HandoffFailed))))
      && after.attempts == db.attempts && after.decisions == db.decisions && after.outcomes == db.outcomes
  {
    var a := SaveEpoch(db, incoming.(state := OpBlocked)).value;
    assert a == db.(epochs := a.epochs);
    var b := SavePackage(a, p.(status := PkgRollbackBlocked)).value;
    assert b == a.(packages := b.packages);
  }

  /** Ending the transition and opening the fence of its package in one transaction. */
  lemma FinishKeeps(db: Db, after: Db, t: Id, p: Package, next: Id)
    requires DbOk(db, next) && PackageCopy(db, p)
    requires db.fence == Fenced(p.generation, p.owner) && after.fence == Open(p.generation + 1)
    requires after.executions == db.executions && after.packages == db.packages[p.id := p]
    requires db.Blocked() && !after.Blocked() && after.transition.Some?
      && after.transition.value == db.transition.value.(state := after.transition.value.state)
    ensures DbOk(after, next) && Evolves(db, after, t)
  {
    forall q | q in after.packages ensures PackageOk(after, q) { assert PackageOk(db, q); }
    assert PackageOk(db, p.id);
    forall e | e in after.executions ensures ExecutionOk(after, e) { assert ExecutionOk(db, e); }
  }

  lemma FinalizeEffect(db: Db, x: Execution, op: Fence, resume: Option<Id>)
    requires FinalizeRecovery(db, x, op, resume).Some?
    ensures var after := FinalizeRecovery(db, x, op, resume).value;
      && op.Fenced? && db.fence == op && after.fence == Open(op.generation + 1)
      && x.id in db.executions && db.executions[x.id].state == x.state && IsRecoverable(x.state)
      && after.executions == db.executions[x.id := db.executions[x.id].(state := Recovered, resume := resume)]
      && after.packages == db.packages && after.transition == db.transition
      && after.decisions == db.decisions && after.outcomes == db.outcomes
      && after.attempts.Keys == db.attempts.Keys
      && forall e | e in db.attempts && db.attempts[e].state != Pending :: after.attempts[e].state != Pending
  {
    var a := if x.id in db.attempts && IsStarted(db.attempts[x.id].state)
             then MoveAttempt(db, x.id, db.attempts[x.id].state, Finalized).value else db;
    assert a == db.(attempts := a.attempts);
    var b := ReleaseOperation(a, op).value;
    assert b == a.(fence := Open(op.generation + 1));
    assert MoveExecution(b, x.id, x.state, Recovered, resume) == FinalizeRecovery(db, x, op, resume);
  }

  /** Finalizing touches only the fence, the attempt and the execution. */
  lemma FinalizeFrame(db: Db, x: Execution, op: Fence, resume: Option<Id>)
    requires FinalizeRecovery(db, x, op, resume).Some?
    ensures var after := FinalizeRecovery(db, x, op, resume).value;
      after == db.(fence := after.fence, attempts := after.attempts, executions := after.executions)
  {
  }

  /** While an execution can still be recovered, no import has used its fence. */
  lemma RecoverableIsUnblocked(db: Db, e: Id, next: Id)
    requires DbOk(db, next) && e in db.executions && IsRecoverable(db.executions[e].state)
    ensures e !in db.packages && !db.Blocked() && db.fence == Fenced(db.executions[e].generation, e)
  {
    assert ExecutionOk(db, e);
    forall p | p in db.packages ensures p != e { assert PackageOk(db, p); }
  }

  lemma FinalizeKeeps(db: Db, t: Id, x: Execution, op: Fence, resume: Option<Id>, next: Id)
    requires DbOk(db, next) && ExecutionCopy(db, x, op) && FinalizeRecovery(db, x, op, resume).Some?
    ensures var after := FinalizeRecovery(db, x, op, resume).value;
      DbOk(after, next) && Evolves(db, after, t)
  {
    FinalizeEffect(db, x, op, resume);
    var after := FinalizeRecovery(db, x, op, resume).value;
    assert ExecutionOk(db, x.id);
    RecoverableIsUnblocked(db, x.id, next);
    assert after.Blocked() == db.Blocked();
    forall p | p in after.packages ensures PackageOk(after, p) { assert PackageOk(db, p); }
    forall e | e in after.executions ensures ExecutionOk(after, e) { assert ExecutionOk(db, e); }
  }

  lemma DiscoverReleaseKeeps(db: Db, t: Id, op: Fence, next: Id)
    requires DbOk(db, next) && t < next && Justified(db, t, Took(op))
    ensures var after := db.(fence := Open(op.generation + 1));
      DbOk(after, next) && Evolves(db, after, t)
  {
    var after := db.(fence := Open(op.generation + 1));
    assert !db.Blocked();
    forall p | p in after.packages ensures PackageOk(after, p) { assert PackageOk(db, p); }
    forall e | e in after.executions ensures ExecutionOk(after, e) { assert ExecutionOk(db, e); }
  }

  lemma {:induction false} SaveSessionsView(db: Db, sessions: seq<(SessionId, Session)>)
    requires SaveSessions(db, sessions).Some?
    ensures var after := SaveSessions(db, sessions).value;
      after == db.(sessions := after.sessions)
  {
    if sessions != [] { SaveSessionsView(db, sessions[..|sessions| - 1]); }
  }

  lemma OpenEpochView(db: Db, t: Id, provider: Id, session: Option<SessionId>, external: Option<Id>,
      state: OperationState)
    requires OpenEpoch(db, t, provider, session, external, state).Some?
    ensures var after := OpenEpoch(db, t, provider, session, external, state).value;
      after == db.(sessions := after.sessions, epochs := after.epochs)
  {
  }

  lemma RecoverSessionView(db: Db, t: Id, session: SessionId, r: Result)
    requires RecoverSession(db, t, session, r).Some?
    ensures var after := RecoverSession(db, t, session, r).value;
      after == db.(sessions := after.sessions, epochs := after.epochs)
  {
    hide QuarantineOthers, PutEpoch, ResumeBound, OpenEpoch;
    if !exists active :: active in db.epochs && IsNewestOpen(db, active) {
      OpenEpochView(db, t, db.sessions[session].provider, Some(session), None, ResumedState(r));
    }
  }
}
