/** Lifecycle calls on one instance taken one after another, each free to crash after any step: one
    authoritative epoch, and an acknowledged import that can always be promoted. */
module LifecycleSerial {
  import opened Contracts
  import opened Fences
  import opened LifecycleStore
  import opened LifecycleRuns
  import opened LifecycleFence
  import opened LifecycleHistory
  import opened LifecycleSafety
  import opened LifecycleOrdinals

  // ----- Serial runs -----

  /** A call begins only when no other is running. */
  ghost function SerialStep(w: World, a: Action): World {
    if a.Begin? && w.calls != map[] then w else Step(w, a)
  }

  ghost function SerialRun(instance: Id, actions: seq<Action>): World {
    if actions == [] then Start(instance)
    else SerialStep(SerialRun(instance, actions[..|actions| - 1]), actions[|actions| - 1])
  }

  // ----- The invariant on the database -----

  predicate OneOpen(epochs: Epochs) {
    forall a, b | a in epochs && b in epochs && !epochs[a].closed && !epochs[b].closed :: a == b
  }

  /** Everything the promotion of the current transition will check. */
  predicate Promotable(db: Db) {
    && db.transition.Some? && db.transition.value.handoff in db.packages && db.transition.value.incoming in db.epochs
    && var p := db.packages[db.transition.value.handoff];
    && var incoming := db.epochs[db.transition.value.incoming];
    && !incoming.closed && SessionBound(db, p, incoming) && ResultBound(db, p, incoming)
  }

  /** While a handoff is under way only its two epochs are open; the outgoing one is in charge and the
      incoming one waits. */
  predicate TwoOpen(epochs: Epochs, tr: Transition) {
    && tr.outgoing in epochs && !epochs[tr.outgoing].closed && IsAcknowledged(epochs[tr.outgoing].state)
    && tr.incoming in epochs && tr.incoming != tr.outgoing
    && (forall e | e in epochs && !epochs[e].closed :: e == tr.outgoing || e == tr.incoming)
    && (!epochs[tr.incoming].closed ==> IsAwaiting(epochs[tr.incoming].state))
  }

  /** The incoming epoch belongs to the provider the package names. */
  predicate SameProvider(db: Db) {
    db.transition.Some? && db.transition.value.handoff in db.packages && db.transition.value.incoming in db.epochs
    && db.packages[db.transition.value.handoff].provider == db.epochs[db.transition.value.incoming].provider
  }

  predicate SerialDb(db: Db) {
    if db.Blocked() then
      && TwoOpen(db.epochs, db.transition.value) && SameProvider(db)
      && (db.transition.value.state == ImportAcknowledged ==> Promotable(db))
    else OneOpen(db.epochs)
  }

  // ----- The invariant on the running call: its copies are current -----

  predicate CurrentPackage(db: Db, p: Package) { p.id in db.packages && db.packages[p.id] == p }

  predicate CurrentEpoch(db: Db, e: Epoch) { e.id in db.epochs && db.epochs[e.id] == e }

  /** The handoff's transition, if it is the current one and still under way. */
  predicate CurrentTransition(db: Db, p: Package, tr: Transition) {
    CurrentPackage(db, p) && db.transition == Some(tr) && tr.handoff == p.id && IsBlocking(tr.state)
  }

  predicate InCharge(db: Db, e: Epoch) {
    && !db.Blocked() && CurrentEpoch(db, e) && !e.closed && IsAcknowledged(e.state)
    && forall x | x in db.epochs && !db.epochs[x].closed :: x == e.id
  }

  predicate AwaitsPromotion(db: Db, h: Id) {
    db.transition.Some? && db.transition.value.handoff == h && db.transition.value.state == ImportAcknowledged
  }

  /** A package whose import may still be answered. */
  predicate Answerable(db: Db, p: Package, incoming: Epoch) {
    && db.transition.Some? && CurrentTransition(db, p, db.transition.value)
    && db.transition.value.state != ImportAcknowledged
    && CurrentEpoch(db, incoming) && incoming.id == p.incomingEpoch && !incoming.closed
  }

  predicate CurrentInHandoff(db: Db, s: HandoffStage) {
    match s
    case Handoff(_, _) => true
    case HandoffUnblocked(_, _) => !db.Blocked()
    case HandoffFrom(_, _, outgoing) => InCharge(db, outgoing)
    case HandoffImported(p, incoming) => Answerable(db, p, incoming)
    case _ => InCharge(db, s.plan.outgoing)
  }

  predicate CurrentInCompletion(db: Db, s: CompletionStage) {
    match s
    case Complete(p, incoming, _, _) => Answerable(db, p, incoming)
    case Promotion(h) => AwaitsPromotion(db, h)
    case PromotionOf(p) => CurrentPackage(db, p) && AwaitsPromotion(db, p.id)
    case PromotionAt(p, tr) => CurrentTransition(db, p, tr) && tr.state == ImportAcknowledged
    case PromotionTo(p, tr, incoming) =>
      CurrentTransition(db, p, tr) && tr.state == ImportAcknowledged && CurrentEpoch(db, incoming)
          && incoming.id == tr.incoming
    case _ =>
      && CurrentTransition(db, s.package, s.transition) && s.transition.state == ImportAcknowledged
      && CurrentEpoch(db, s.incoming) && s.incoming.id == s.transition.incoming
      && CurrentEpoch(db, s.outgoing) && s.outgoing.id == s.transition.outgoing
  }

  predicate CurrentInReconcile(db: Db, s: ReconcileStage) {
    match s
    case Reconcile(_, _) => true
    case ReconcileOf(p, _) => CurrentPackage(db, p)
    case ReconcileAt(p, tr, _) => CurrentTransition(db, p, tr)
    case ReconcileDurable(p, _) => CurrentPackage(db, p) && AwaitsPromotion(db, p.id)
    case ReconcileOpen(p, tr, incoming, _) =>
      && CurrentTransition(db, p, tr) && tr.state != ImportAcknowledged
      && CurrentEpoch(db, incoming) && incoming.id == p.incomingEpoch && !incoming.closed
  }

  predicate CurrentInRollback(db: Db, s: RollbackStage) {
    match s
    case Rollback(_) => true
    case RollbackOf(p) => CurrentPackage(db, p)
    case RollbackAt(p, tr) => CurrentTransition(db, p, tr)
    case RollbackFrom(p, tr, outgoing) =>
      CurrentTransition(db, p, tr) && CurrentEpoch(db, outgoing) && outgoing.id == tr.outgoing
    case RollbackBlocked(p, tr, incoming) =>
      CurrentTransition(db, p, tr) && CurrentEpoch(db, incoming) && incoming.id == tr.incoming
    case _ =>
      && CurrentTransition(db, s.package, s.transition)
      && CurrentEpoch(db, s.incoming) && s.incoming.id == s.transition.incoming
      && CurrentEpoch(db, s.outgoing) && s.outgoing.id == s.transition.outgoing
  }

  predicate Current(db: Db, c: Call) {
    match c
    case FailoverCall(_) => true
    case HandoffCall(s) => CurrentInHandoff(db, s)
    case CompletionCall(s) => CurrentInCompletion(db, s)
    case ReconcileCall(s) => CurrentInReconcile(db, s)
    case RollbackCall(s) => CurrentInRollback(db, s)
    case RecoveryCall(_) => true
    case SessionCall(_) => true
  }

  ghost predicate SerialInv(w: World) {
    && Invariant(w) && OrderInv(w) && SerialDb(w.db)
    && (forall t, u | t in w.calls && u in w.calls :: t == u)
    && (forall t | t in w.calls :: Current(w.db, w.calls[t]))
  }

  // ----- Steps that leave epochs, transition and packages alone -----

  /** Results are never changed, and an external session id, once known, stays. */
  predicate Keeps(db: Db, after: Db) {
    && after.instance == db.instance
    && (forall r | r in db.results :: r in after.results && after.results[r] == db.results[r])
    && (forall s | s in db.sessions ::
          s in after.sessions
              && (db.sessions[s].external.Some? ==> after.sessions[s].external == db.sessions[s].external))
  }

  predicate Calm(db: Db, after: Db) {
    after.epochs == db.epochs && after.transition == db.transition && after.packages == db.packages && Keeps(db, after)
  }

  lemma CalmKeeps(db: Db, after: Db)
    requires SerialDb(db) && Calm(db, after)
    ensures SerialDb(after)
  {
    assert after.Blocked() == db.Blocked();
  }

  lemma {:induction false} SessionsKept(db: Db, sessions: seq<(SessionId, Session)>)
    requires SaveSessions(db, sessions).Some?
    ensures Keeps(db, SaveSessions(db, sessions).value)
  {
    if sessions != [] { SessionsKept(db, sessions[..|sessions| - 1]); }
  }

  // ----- The transactions -----

  lemma ImportSerial(db: Db, t: Id, plan: Plan)
    requires EpochsOk(db.epochs) && InCharge(db, plan.outgoing) && plan.op.Fenced?
    requires StartImport(db, t, plan.provider, plan.op, plan.outgoing).Some?
    ensures var after := StartImport(db, t, plan.provider, plan.op, plan.outgoing).value;
      && SerialDb(after)
      && Answerable(after, NewPackage(db, t, plan.provider, plan.op, plan.outgoing.id),
        IncomingEpoch(db, t, plan.provider))
  {
    ImportEffect(db, t, plan);
    ImportOrders(db, t, plan);
    ImportWrites(db, t, plan);
  }

  lemma ImportWrites(db: Db, t: Id, plan: Plan)
    requires plan.op.Fenced? && StartImport(db, t, plan.provider, plan.op, plan.outgoing).Some?
    ensures StartImport(db, t, plan.provider, plan.op, plan.outgoing).value.epochs
      == db.epochs[t := IncomingEpoch(db, t, plan.provider)]
  {
  }

  lemma FailSerial(db: Db, p: Package, incoming: Epoch, r: Result, quarantine: bool)
    requires SerialDb(db) && TransitionOk(db) && Answerable(db, p, incoming) && p.incomingEpoch == p.id
    requires FailHandoff(db, p, incoming, r, quarantine).Some?
    ensures SerialDb(FailHandoff(db, p, incoming, r, quarantine).value)
  {
    FailEffect(db, p, incoming, r, quarantine);
    FailWrites(db, p, incoming, r, quarantine);
  }

  lemma AcknowledgeWrites(db: Db, p: Package, incoming: Epoch, r: Result)
    requires AcknowledgeImport(db, p, incoming, r).Some?
    ensures var after := AcknowledgeImport(db, p, incoming, r).value;
      && after.epochs == db.epochs && after.instance == db.instance && incoming.session in after.sessions
      && after.sessions[incoming.session].external == r.external && r.id in after.results && after.results[r.id] == r
  {
  }

  lemma AcknowledgeSerial(db: Db, p: Package, incoming: Epoch, r: Result)
    requires SerialDb(db) && TransitionOk(db) && Answerable(db, p, incoming) && p.incomingEpoch == p.id
    requires ImportAccepted(db, p, incoming, r) && AcknowledgeImport(db, p, incoming, r).Some?
    ensures var after := AcknowledgeImport(db, p, incoming, r).value;
      SerialDb(after) && AwaitsPromotion(after, p.id)
  {
    AcknowledgeEffect(db, p, incoming, r);
    AcknowledgeWrites(db, p, incoming, r);
  }

  lemma PromoteSerial(db: Db, p: Package, tr: Transition, incoming: Epoch, outgoing: Epoch)
    requires SerialDb(db) && CurrentTransition(db, p, tr)
    requires CurrentEpoch(db, incoming) && incoming.id == tr.incoming && CurrentEpoch(db, outgoing)
    requires outgoing.id == tr.outgoing
    requires Promote(db, p, tr, incoming, outgoing).Some?
    ensures SerialDb(Promote(db, p, tr, incoming, outgoing).value)
  {
    PromoteEffect(db, p, tr, incoming, outgoing);
    PromoteWrites(db, p, tr, incoming, outgoing);
  }

  lemma ReconcileSerial(db: Db, p: Package, tr: Transition, incoming: Epoch)
    requires SerialDb(db) && CurrentTransition(db, p, tr)
    requires CurrentEpoch(db, incoming) && incoming.id == p.incomingEpoch && !incoming.closed
    requires StartReconcile(db, p, tr).Some?
    ensures var after := StartReconcile(db, p, tr).value;
      SerialDb(after) && Answerable(after, p.(status := PkgReconciling), incoming)
  {
    ReconcileEffect(db, p, tr);
    assert StartReconcile(db, p, tr).value.epochs == db.epochs;
  }

  lemma BlockSerial(db: Db, p: Package, tr: Transition, incoming: Epoch)
    requires SerialDb(db) && CurrentTransition(db, p, tr) && CurrentEpoch(db, incoming) && incoming.id == tr.incoming
    requires BlockRollback(db, p, tr, incoming).Some?
    ensures SerialDb(BlockRollback(db, p, tr, incoming).value)
  {
    BlockEffect(db, p, tr, incoming);
    BlockWrites(db, p, tr, incoming);
    BlockMoves(db, p, tr, incoming);
  }

  lemma BlockMoves(db: Db, p: Package, tr: Transition, incoming: Epoch)
    requires db.transition == Some(tr) && BlockRollback(db, p, tr, incoming).Some?
    ensures BlockRollback(db, p, tr, incoming).value.transition == Some(tr.(state := HandoffFailed))
  {
  }

  lemma RollBackSerial(db: Db, p: Package, tr: Transition, incoming: Epoch, outgoing: Epoch, op: Fence)
    requires SerialDb(db) && CurrentTransition(db, p, tr)
    requires CurrentEpoch(db, incoming) && incoming.id == tr.incoming && CurrentEpoch(db, outgoing)
    requires outgoing.id == tr.outgoing
    requires RollBack(db, p, tr, incoming, outgoing, op).Some?
    ensures SerialDb(RollBack(db, p, tr, incoming, outgoing, op).value)
  {
    RollBackEffect(db, p, tr, incoming, outgoing, op);
    RollBackWrites(db, p, tr, incoming, outgoing, op);
  }

  lemma OpenSerial(db: Db, t: Id, provider: Id, session: Option<SessionId>, external: Option<Id>, state: OperationState)
    requires SerialDb(db) && OpenEpoch(db, t, provider, session, external, state).Some?
    ensures SerialDb(OpenEpoch(db, t, provider, session, external, state).value)
  {
    OpenEpochView(db, t, provider, session, external, state);
  }

  lemma RecoverSerial(db: Db, t: Id, session: SessionId, r: Result)
    requires SerialDb(db) && EpochsOk(db.epochs) && RecoverSession(db, t, session, r).Some?
    ensures SerialDb(RecoverSession(db, t, session, r).value)
  {
    RecoverSessionView(db, t, session, r);
    if active :| active in db.epochs && IsNewestOpen(db, active) { RecoverWrites(db, t, session, r, active); }
    else { OpenSerial(db, t, db.sessions[session].provider, Some(session), None, ResumedState(r)); }
  }

  // ----- Every step -----

  /** What a step of the only call must show. */
  predicate Serves(v: World, t: Id) { SerialDb(v.db) && (t in v.calls ==> Current(v.db, v.calls[t])) }

  /** A step that changes nothing the epochs depend on. */
  predicate Passes(w: World, v: World, t: Id) { Calm(w.db, v.db) && (t in v.calls ==> Current(v.db, v.calls[t])) }

  lemma PassServes(w: World, v: World, t: Id)
    requires SerialDb(w.db) && Passes(w, v, t)
    ensures Serves(v, t)
  {
    CalmKeeps(w.db, v.db);
  }

  lemma FailoverPasses(w: World, v: World, t: Id, s: FailoverStage, i: Input)
    requires v == StepFailover(w, t, s, i)
    ensures Passes(w, v, t)
  {
    hide StartImport, FailHandoff, AcknowledgeImport, Promote;
  }

  lemma ImportServes(w: World, v: World, t: Id, plan: Plan)
    requires SerialDb(w.db) && EpochsOk(w.db.epochs) && InCharge(w.db, plan.outgoing) && v == StepImport(w, t, plan)
    ensures Serves(v, t)
  {
    if plan.op.Fenced? && StartImport(w.db, t, plan.provider, plan.op, plan.outgoing).Some? {
      ImportSerial(w.db, t, plan);
    }
  }

  lemma HandoffMovePasses(w: World, v: World, t: Id, s: HandoffStage, i: Input)
    requires CurrentInHandoff(w.db, s) && MovesExecution(s) && v == StepHandoff(w, t, s, i)
    ensures Passes(w, v, t)
  {
    hide EvaluateFailover, ExecuteFailover;
  }

  lemma HandoffPasses(w: World, v: World, t: Id, s: HandoffStage, i: Input)
    requires CurrentInHandoff(w.db, s) && !MovesExecution(s) && !s.HandoffUnblocked? && !s.HandoffImporting?
    requires v == StepHandoff(w, t, s, i)
    ensures Passes(w, v, t)
  {
    hide EvaluateFailover, ExecuteFailover;
  }

  /** The active epoch of an instance without a handoff under way is its only open epoch. */
  lemma HandoffStartPasses(w: World, v: World, t: Id, s: HandoffStage, i: Input)
    requires SerialDb(w.db) && EpochsOk(w.db.epochs) && !w.db.Blocked() && s.HandoffUnblocked?
    requires v == StepHandoff(w, t, s, i)
    ensures Passes(w, v, t)
  {
    hide EvaluateFailover, ExecuteFailover, StartImport, FailHandoff, AcknowledgeImport, Promote;
    forall e | e in w.db.epochs && Authoritative(w.db) == {e} ensures IsOpen(w.db, e) {
      assert e in Authoritative(w.db);
    }
  }

  lemma HandoffServes(w: World, v: World, t: Id, s: HandoffStage, i: Input)
    requires SerialDb(w.db) && EpochsOk(w.db.epochs) && CurrentInHandoff(w.db, s) && v == StepHandoff(w, t, s, i)
    ensures Serves(v, t)
  {
    hide StepImport, SerialDb;
    if s.HandoffImporting? { ImportServes(w, v, t, s.plan); }
    else {
      if s.HandoffUnblocked? { HandoffStartPasses(w, v, t, s, i); }
      else if MovesExecution(s) { HandoffMovePasses(w, v, t, s, i); }
      else { HandoffPasses(w, v, t, s, i); }
      PassServes(w, v, t);
    }
  }

  lemma AnswerServes(w: World, v: World, t: Id, p: Package, incoming: Epoch, r: Result, quarantine: bool)
    requires SerialDb(w.db) && DbOk(w.db, w.next) && Answerable(w.db, p, incoming)
    requires v == StepImportAnswer(w, t, p, incoming, r, quarantine)
    ensures Serves(v, t)
  {
    assert PackageOk(w.db, p.id);
    if ImportAccepted(w.db, p, incoming, r) {
      if AcknowledgeImport(w.db, p, incoming, r).Some? { AcknowledgeSerial(w.db, p, incoming, r); }
    } else if FailHandoff(w.db, p, incoming, r, quarantine).Some? { FailSerial(w.db, p, incoming, r, quarantine); }
  }

  lemma PromotionPasses(w: World, v: World, t: Id, s: CompletionStage, i: Input)
    requires EpochsOk(w.db.epochs) && DbOk(w.db, w.next) && CurrentInCompletion(w.db, s)
    requires !s.Complete? && !s.PromotionReady? && v == StepComplete(w, t, s, i)
    ensures Passes(w, v, t)
  {
    hide EvaluateFailover, ExecuteFailover, StepImport, StepImportAnswer, StepPromote;
    if s.Promotion? && s.handoff in w.db.packages { assert PackageOk(w.db, s.handoff); }
  }

  lemma PromotionServes(w: World, v: World, t: Id, p: Package, tr: Transition, incoming: Epoch, outgoing: Epoch)
    requires SerialDb(w.db) && CurrentInCompletion(w.db, PromotionReady(p, tr, incoming, outgoing))
    requires v == StepPromote(w, t, p, tr, incoming, outgoing)
    ensures Serves(v, t)
  {
    hide Promote, SerialDb;
    if Promote(w.db, p, tr, incoming, outgoing).Some? { PromoteSerial(w.db, p, tr, incoming, outgoing); }
  }

  lemma CompleteServes(w: World, v: World, t: Id, s: CompletionStage, i: Input)
    requires SerialDb(w.db) && EpochsOk(w.db.epochs) && DbOk(w.db, w.next) && CurrentInCompletion(w.db, s)
    requires v == StepComplete(w, t, s, i)
    ensures Serves(v, t)
  {
    hide EvaluateFailover, ExecuteFailover, StartImport, FailHandoff, AcknowledgeImport, Promote, StepImportAnswer,
        SerialDb, StepPromote, Serves;
    match s
    case Complete(p, incoming, r, quarantine) => AnswerServes(w, v, t, p, incoming, r, quarantine);
    case PromotionReady(p, tr, incoming, outgoing) => PromotionServes(w, v, t, p, tr, incoming, outgoing);
    case _ =>
      PromotionPasses(w, v, t, s, i);
      PassServes(w, v, t);
  }

  lemma ReconcilePasses(w: World, v: World, t: Id, s: ReconcileStage, i: Input)
    requires EpochsOk(w.db.epochs) && DbOk(w.db, w.next) && CurrentInReconcile(w.db, s)
    requires !s.ReconcileOpen? && v == StepReconcile(w, t, s, i)
    ensures Passes(w, v, t)
  {
    hide EvaluateFailover, ExecuteFailover;
    if s.Reconcile? && s.handoff in w.db.packages { assert PackageOk(w.db, s.handoff); }
  }

  lemma ReconcileServes(w: World, v: World, t: Id, s: ReconcileStage, i: Input)
    requires SerialDb(w.db) && EpochsOk(w.db.epochs) && DbOk(w.db, w.next) && CurrentInReconcile(w.db, s)
    requires v == StepReconcile(w, t, s, i)
    ensures Serves(v, t)
  {
    hide EvaluateFailover, ExecuteFailover, StartReconcile, SerialDb;
    match s
    case ReconcileOpen(p, tr, incoming, r) =>
      if StartReconcile(w.db, p, tr).Some? { ReconcileSerial(w.db, p, tr, incoming); }
    case _ =>
      ReconcilePasses(w, v, t, s, i);
      PassServes(w, v, t);
  }

  lemma RollbackPasses(w: World, v: World, t: Id, s: RollbackStage, i: Input)
    requires EpochsOk(w.db.epochs) && DbOk(w.db, w.next) && CurrentInRollback(w.db, s)
    requires !s.RollbackReady? && !s.RollbackBlocked? && v == StepRollback(w, t, s, i)
    ensures Passes(w, v, t)
  {
    hide EvaluateFailover, ExecuteFailover;
    if s.Rollback? && s.handoff in w.db.packages { assert PackageOk(w.db, s.handoff); }
  }

  lemma RollBackServes(w: World, v: World, t: Id, p: Package, tr: Transition, outgoing: Epoch, incoming: Epoch,
      op: Fence)
    requires SerialDb(w.db) && CurrentInRollback(w.db, RollbackReady(p, tr, outgoing, incoming, op))
    requires v == StepRollBack(w, t, p, tr, outgoing, incoming, op)
    ensures Serves(v, t)
  {
    if RollBack(w.db, p, tr, incoming, outgoing, op).Some? { RollBackSerial(w.db, p, tr, incoming, outgoing, op); }
  }

  lemma BlockServes(w: World, v: World, t: Id, p: Package, tr: Transition, incoming: Epoch)
    requires SerialDb(w.db) && CurrentInRollback(w.db, RollbackBlocked(p, tr, incoming))
    requires v == StepBlock(w, t, p, tr, incoming)
    ensures Serves(v, t)
  {
    hide BlockRollback, SerialDb;
    if BlockRollback(w.db, p, tr, incoming).Some? { BlockSerial(w.db, p, tr, incoming); }
  }

  lemma RollbackServes(w: World, v: World, t: Id, s: RollbackStage, i: Input)
    requires SerialDb(w.db) && EpochsOk(w.db.epochs) && DbOk(w.db, w.next) && CurrentInRollback(w.db, s)
    requires v == StepRollback(w, t, s, i)
    ensures Serves(v, t)
  {
    hide EvaluateFailover, ExecuteFailover, StartReconcile, BlockRollback, RollBack, SerialDb, StepRollBack,
        StepBlock, Serves, CurrentPackage, CurrentTransition;
    match s
    case RollbackReady(p, tr, outgoing, incoming, op) => RollBackServes(w, v, t, p, tr, outgoing, incoming, op);
    case RollbackBlocked(p, tr, incoming) => BlockServes(w, v, t, p, tr, incoming);
    case _ =>
      RollbackPasses(w, v, t, s, i);
      PassServes(w, v, t);
  }

  lemma ClaimCalm(w: World, v: World, t: Id, x: Execution, op: Fence, i: Input)
    requires v == StepClaim(w, t, x, op, i)
    ensures Passes(w, v, t)
  {
    hide EvaluateFailover, ExecuteFailover;
  }

  lemma RecordCalm(w: World, v: World, t: Id, x: Execution, op: Fence, a: Attempt, r: Result, called: bool)
    requires v == StepRecord(w, t, x, op, a, r, called)
    ensures Passes(w, v, t)
  {
    hide EvaluateFailover, ExecuteFailover;
  }

  lemma FinalCalm(w: World, v: World, t: Id, x: Execution, op: Fence, resume: Option<Id>)
    requires v == StepFinal(w, t, x, op, resume)
    ensures Passes(w, v, t)
  {
    if FinalizeRecovery(w.db, x, op, resume).Some? { FinalizeFrame(w.db, x, op, resume); }
  }

  lemma RecoveryPasses(w: World, v: World, t: Id, s: RecoveryStage, i: Input)
    requires v == StepRecovery(w, t, s, i)
    ensures Passes(w, v, t)
  {
    hide EvaluateFailover, ExecuteFailover;
    match s
    case RecoveryBound(x, op) => ClaimCalm(w, v, t, x, op, i);
    case RecoveryAnswered(x, op, a, r, called) => RecordCalm(w, v, t, x, op, a, r, called);
    case RecoveryFinal(x, op, resume) => FinalCalm(w, v, t, x, op, resume);
    case _ =>
  }

  lemma DiscoveryPasses(w: World, v: World, t: Id, op: Fence, i: Input)
    requires v == StepDiscovery(w, t, op, i)
    ensures Passes(w, v, t)
  {
    if i.flag && CommitDiscovery(w.db, op, i.sessions).Some? {
      SaveSessionsView(w.db, i.sessions);
      SessionsKept(w.db, i.sessions);
    }
  }

  lemma SessionServes(w: World, v: World, t: Id, s: SessionStage, i: Input)
    requires SerialDb(w.db) && EpochsOk(w.db.epochs) && v == StepSession(w, t, s, i)
    ensures Serves(v, t)
  {
    hide EvaluateFailover, ExecuteFailover, CommitDiscovery, OpenEpoch, RecoverSession;
    match s
    case DiscoverHeld(op) =>
      DiscoveryPasses(w, v, t, op, i);
      PassServes(w, v, t);
    case ActivateStarted(provider, external) =>
      if OpenEpoch(w.db, t, provider, None, external, Running).Some? {
        OpenSerial(w.db, t, provider, None, external, Running);
      }
    case Recover(session) =>
      if RecoverSession(w.db, t, session, i.result).Some? { RecoverSerial(w.db, t, session, i.result); }
    case _ =>
  }

  lemma AdvanceServes(w: World, v: World, t: Id, i: Input)
    requires SerialInv(w) && Moves(w, v, t, i)
    ensures Serves(v, t)
  {
    hide StepFailover, StepHandoff, StepComplete, StepReconcile, StepRollback, StepRecovery, StepSession,
        EvaluateFailover, ExecuteFailover;
    assert Current(w.db, w.calls[t]);
    match w.calls[t]
    case FailoverCall(s) =>
      FailoverPasses(w, v, t, s, i);
      PassServes(w, v, t);
    case HandoffCall(s) => HandoffServes(w, v, t, s, i);
    case CompletionCall(s) => CompleteServes(w, v, t, s, i);
    case ReconcileCall(s) => ReconcileServes(w, v, t, s, i);
    case RollbackCall(s) => RollbackServes(w, v, t, s, i);
    case RecoveryCall(s) =>
      RecoveryPasses(w, v, t, s, i);
      PassServes(w, v, t);
    case SessionCall(s) => SessionServes(w, v, t, s, i);
  }

  /** No other call is left, and this one's copies are current. */
  predicate AloneCurrent(v: World, t: Id) { forall u | u in v.calls :: u == t && Current(v.db, v.calls[u]) }

  lemma SerialAdvance(w: World, v: World, t: Id, i: Input)
    requires SerialInv(w) && Moves(w, v, t, i)
    ensures SerialDb(v.db) && AloneCurrent(v, t)
  {
    hide Step, StepCall, OrderInv;
    AdvanceProgress(w, v, t, i);
    AdvanceServes(w, v, t, i);
  }

  /** The part of the invariant that only serial runs keep. */
  ghost predicate OneCall(w: World) {
    && SerialDb(w.db)
    && (forall t, u | t in w.calls && u in w.calls :: t == u)
    && (forall t | t in w.calls :: Current(w.db, w.calls[t]))
  }

  lemma SerialStepServes(w: World, a: Action)
    requires SerialInv(w)
    ensures OneCall(SerialStep(w, a))
  {
    hide StepFailover, StepHandoff, StepComplete, StepReconcile, StepRollback, StepRecovery, StepSession, StepCall,
        SerialDb;
    match a
    case Begin(c) => assert IsEntry(c) ==> Current(w.db, c);
    case Crash(t) =>
    case Advance(t, i) => if t in w.calls { SerialAdvance(w, SerialStep(w, a), t, i); }
  }

  lemma SerialStepKeeps(w: World, a: Action)
    requires SerialInv(w)
    ensures SerialInv(SerialStep(w, a))
  {
    hide Step, StepCall;
    StepKeeps(w, a);
    StepKeepsOrder(w, a);
    SerialStepServes(w, a);
  }

  lemma {:induction false} SerialOk(instance: Id, actions: seq<Action>)
    ensures SerialInv(SerialRun(instance, actions))
  {
    hide Step, StepCall;
    if actions != [] {
      SerialOk(instance, actions[..|actions| - 1]);
      SerialStepKeeps(SerialRun(instance, actions[..|actions| - 1]), actions[|actions| - 1]);
    }
  }

  // ----- The theorems -----

  /** In a good state the authoritative epochs are the outgoing epoch while a handoff is under way, and
      at most one otherwise. */
  lemma AuthorityOf(db: Db, next: Id)
    requires SerialDb(db) && DbOk(db, next)
    ensures forall a, b | a in Authoritative(db) && b in Authoritative(db) :: a == b
    ensures db.Blocked() ==> Authoritative(db) == {db.transition.value.outgoing}
  {
    if db.Blocked() {
      var tr := db.transition.value;
      assert PackageOk(db, tr.handoff);
      assert tr.incoming in IncomingIds(db);
      assert tr.outgoing in Authoritative(db);
    }
  }

  /** At most one authoritative epoch; while a handoff is under way that is its outgoing epoch, which is
      open, and the fence is held exactly as the package records. */
  lemma OneAuthority(instance: Id, actions: seq<Action>)
    ensures var db := SerialRun(instance, actions).db;
      && (forall a, b | a in Authoritative(db) && b in Authoritative(db) :: a == b)
      && (db.Blocked() ==>
            && db.transition.value.handoff in db.packages
            && var p := db.packages[db.transition.value.handoff];
            && Authoritative(db) == {p.outgoing} && IsOpen(db, p.outgoing)
            && db.fence == Fenced(p.generation, p.owner))
  {
    hide Step, StepCall;
    SerialOk(instance, actions);
    var w := SerialRun(instance, actions);
    AuthorityOf(w.db, w.next);
    if w.db.Blocked() { assert PackageOk(w.db, w.db.transition.value.handoff); }
  }

  // ----- Promotion after a crash -----

  /** The handoff whose import is acknowledged, with its records as stored. */
  predicate HasAcknowledgement(db: Db, h: Id) {
    && AwaitsPromotion(db, h) && h in db.packages
    && db.transition.value.incoming in db.epochs && db.transition.value.outgoing in db.epochs
  }

  /** The promotion transaction on the records as stored. */
  function PromoteStored(db: Db, h: Id): Option<Db> {
    if !HasAcknowledgement(db, h) then None
    else
      var tr := db.transition.value;
      Promote(db, db.packages[h], tr, db.epochs[tr.incoming], db.epochs[tr.outgoing])
  }

  /** The promotion transaction commits on the records as stored. */
  lemma StoredPromotionCommits(db: Db, next: Id, h: Id)
    requires DbOk(db, next) && EpochsOk(db.epochs) && HasAcknowledgement(db, h)
    requires db.transition.value.incoming != db.transition.value.outgoing
    ensures PromoteStored(db, h).Some?
  {
    assert PackageOk(db, h);
    var tr, p := db.transition.value, db.packages[h];
    var a := SavePackage(db, p.(status := PkgAcknowledged)).value;
    var b := SaveEpoch(a,
        db.epochs[tr.outgoing].(state := Succeeded, closed := true, replacement := Some(tr.incoming))).value;
    var c := SaveEpoch(b, db.epochs[tr.incoming].(state := Running)).value;
    var d := SaveTransition(c, tr.(state := Completed)).value;
    assert OperationFor(d, p) == Some(db.fence);
  }

  /** In every acknowledged state each check of the promotion passes and its transaction commits. */
  lemma AcknowledgedCommits(db: Db, next: Id, h: Id)
    requires SerialDb(db) && DbOk(db, next) && EpochsOk(db.epochs) && AwaitsPromotion(db, h)
    ensures HasAcknowledgement(db, h) && PromoteStored(db, h).Some?
    ensures var incoming := db.epochs[db.transition.value.incoming];
      SessionBound(db, db.packages[h], incoming) && ResultBound(db, db.packages[h], incoming)
  {
    StoredPromotionCommits(db, next, h);
  }

  predicate IsPromotion(s: CompletionStage) { !s.Complete? }

  /** How many steps a promotion still needs. */
  function Left(s: CompletionStage): nat
    requires IsPromotion(s)
  {
    match s
    case Promotion(_) => 7
    case PromotionOf(_) => 6
    case PromotionAt(_, _) => 5
    case PromotionTo(_, _, _) => 4
    case PromotionFrom(_, _, _, _) => 3
    case PromotionSession(_, _, _, _) => 2
    case PromotionReady(_, _, _, _) => 1
  }

  function HandoffOf(s: CompletionStage): Id { if s.Promotion? then s.handoff else s.package.id }

  predicate Promoting(w: World, t: Id, h: Id, left: int) {
    && t in w.calls && w.calls[t].CompletionCall? && IsPromotion(w.calls[t].completion)
    && HandoffOf(w.calls[t].completion) == h && Left(w.calls[t].completion) == left
  }

  predicate IsCurrent(w: World, t: Id) { t in w.calls && Current(w.db, w.calls[t]) }

  /** Everything a promotion will look up is in place. */
  ghost predicate Prepared(db: Db, next: Id, h: Id) {
    && DbOk(db, next) && EpochsOk(db.epochs) && HasAcknowledgement(db, h) && PromoteStored(db, h).Some?
    && SessionBound(db, db.packages[h], db.epochs[db.transition.value.incoming])
    && ResultBound(db, db.packages[h], db.epochs[db.transition.value.incoming])
  }

  /** A promotion never stops on a check. */
  lemma PromotionMoves(w: World, v: World, t: Id, s: CompletionStage, i: Input)
    requires CurrentInCompletion(w.db, s) && IsPromotion(s) && Left(s) > 1 && v == StepComplete(w, t, s, i)
    requires EpochsOk(w.db.epochs) && HasAcknowledgement(w.db, HandoffOf(s))
    requires w.db.packages[HandoffOf(s)].id == HandoffOf(s)
    requires SessionBound(w.db, w.db.packages[HandoffOf(s)], w.db.epochs[w.db.transition.value.incoming])
    requires ResultBound(w.db, w.db.packages[HandoffOf(s)], w.db.epochs[w.db.transition.value.incoming])
    ensures v.db == w.db && v.next == w.next && v.calls - {t} == w.calls - {t} && t in v.calls
    ensures v.calls[t].CompletionCall?
    ensures var s' := v.calls[t].completion; IsPromotion(s') && Left(s') == Left(s) - 1 && HandoffOf(s') == HandoffOf(s)
  {
    hide StepImport, StepImportAnswer, StepPromote;
  }

  lemma PromotionEnds(w: World, v: World, t: Id, s: CompletionStage, i: Input)
    requires CurrentInCompletion(w.db, s) && s.PromotionReady? && v == StepComplete(w, t, s, i)
    requires HasAcknowledgement(w.db, s.package.id) && PromoteStored(w.db, s.package.id).Some?
    ensures v.db == PromoteStored(w.db, s.package.id).value && v.calls - {t} == w.calls - {t}
  {
  }

  lemma PromotionStep(w: World, v: World, t: Id, h: Id, left: int, i: Input)
    requires Promoting(w, t, h, left) && Prepared(w.db, w.next, h) && IsCurrent(w, t) && v == Step(w, Advance(t, i))
    ensures v.calls - {t} == w.calls - {t}
    ensures left == 1 ==> Some(v.db) == PromoteStored(w.db, h)
    ensures left > 1 ==> v.db == w.db && v.next == w.next && Promoting(v, t, h, left - 1) && IsCurrent(v, t)
  {
    hide StepFailover, StepHandoff, StepComplete, StepReconcile, StepRollback, StepRecovery, StepSession;
    var s := w.calls[t].completion;
    assert PackageOk(w.db, h);
    if left == 1 { PromotionEnds(w, v, t, s, i); }
    else {
      PromotionMoves(w, v, t, s, i);
      PromotionPasses(w, v, t, s, i);
    }
  }

  /** From any point of its promotion, a call that is left alone commits the stored promotion. */
  lemma {:induction false} PromotionRuns(w: World, t: Id, h: Id, inputs: seq<Input>)
    requires Promoting(w, t, h, |inputs|) && Prepared(w.db, w.next, h) && IsCurrent(w, t)
    ensures Some(Run(w, Steps(t, inputs)).db) == PromoteStored(w.db, h)
    ensures Run(w, Steps(t, inputs)).calls - {t} == w.calls - {t}
    decreases |inputs|
  {
    hide Step, StepCall;
    var v := Step(w, Advance(t, inputs[0]));
    PromotionStep(w, v, t, h, |inputs|, inputs[0]);
    AdvanceFirst(w, t, inputs);
    if |inputs| > 1 { PromotionRuns(v, t, h, inputs[1..]); }
  }

  /** Three reads take a reconciliation without a result to the promotion. */
  lemma ReconcileMoves(w: World, t: Id, h: Id, inputs: seq<Input>)
    requires Stands(w, t, ReconcileCall(Reconcile(h, None))) && |inputs| == 3
    requires HasAcknowledgement(w.db, h) && PackageOk(w.db, h) && w.db.transition.value.incoming == h
    requires !w.db.epochs[h].closed
    ensures Step(Step(Step(w, Advance(t, inputs[0])), Advance(t, inputs[1])), Advance(t, inputs[2]))
      == Goto(w, t, CompletionCall(Promotion(h)))
  {
    hide StepFailover, StepHandoff, StepRollback, StepRecovery, StepSession;
    var p, tr := w.db.packages[h], w.db.transition.value;
    var a := Step(w, Advance(t, inputs[0]));
    assert a == Goto(w, t, ReconcileCall(ReconcileOf(p, None)));
    var b := Step(a, Advance(t, inputs[1]));
    assert b == Goto(w, t, ReconcileCall(ReconcileAt(p, tr, None)));
  }

  lemma ReconcileRuns(w: World, t: Id, h: Id, inputs: seq<Input>)
    requires SerialDb(w.db) && DbOk(w.db, w.next) && EpochsOk(w.db.epochs) && AwaitsPromotion(w.db, h)
    requires Stands(w, t, ReconcileCall(Reconcile(h, None))) && |inputs| == 10
    ensures HasAcknowledgement(w.db, h) && Some(Run(w, Steps(t, inputs)).db) == PromoteStored(w.db, h)
  {
    hide Step, StepCall;
    AcknowledgedCommits(w.db, w.next, h);
    assert PackageOk(w.db, h);
    ReconcileMoves(w, t, h, inputs[..3]);
    var c := Goto(w, t, CompletionCall(Promotion(h)));
    ThreeFirst(w, t, inputs);
    PromotionRuns(c, t, h, inputs[3..]);
  }

  /** Reconciling without a result, begun with no other call running. */
  lemma ReconcileFromRest(w: World, v: World, h: Id, inputs: seq<Input>)
    requires SerialInv(w) && w.calls == map[] && AwaitsPromotion(w.db, h) && |inputs| == 10
    requires v == Step(w, Begin(ReconcileCall(Reconcile(h, None))))
    ensures HasAcknowledgement(w.db, h) && Some(Run(v, Steps(w.next, inputs)).db) == PromoteStored(w.db, h)
  {
    hide Step, StepCall, FenceInv, Invariant;
    BeginAtRest(w, v, h);
    ReconcileRuns(v, w.next, h, inputs);
  }

  lemma BeginAtRest(w: World, v: World, h: Id)
    requires SerialInv(w) && w.calls == map[] && v == Step(w, Begin(ReconcileCall(Reconcile(h, None))))
    ensures SerialDb(v.db) && DbOk(v.db, v.next) && EpochsOk(v.db.epochs) && v.db == w.db
    ensures Stands(v, w.next, ReconcileCall(Reconcile(h, None)))
  {
    hide StepCall;
    NextKeeps(w.db, w.next);
  }

  lemma PromotingAwaits(w: World, t: Id, h: Id, left: int)
    requires Promoting(w, t, h, left) && IsCurrent(w, t)
    ensures AwaitsPromotion(w.db, h)
  {
  }

  lemma SerialPromotion(w: World, t: Id, h: Id, inputs: seq<Input>)
    requires SerialInv(w) && Promoting(w, t, h, |inputs|)
    ensures HasAcknowledgement(w.db, h) && Some(Run(w, Steps(t, inputs)).db) == PromoteStored(w.db, h)
  {
    hide Step, Run, SerialDb, Promoting, Current;
    assert IsCurrent(w, t) by { StillCurrent(w, t, h, |inputs|); }
    PromotingAwaits(w, t, h, |inputs|);
    AcknowledgedCommits(w.db, w.next, h);
    PromotionRuns(w, t, h, inputs);
  }

  lemma StillCurrent(w: World, t: Id, h: Id, left: int)
    requires SerialInv(w) && Promoting(w, t, h, left)
    ensures IsCurrent(w, t)
  {
    hide SerialDb, Invariant, OrderInv, Current;
  }

  lemma CrashAtRest(w: World, t: Id)
    requires SerialInv(w) && t in w.calls
    ensures SerialInv(End(w, t)) && End(w, t).calls == map[]
  {
    hide CommitDiscovery, OpenEpoch, RecoverSession, StepCall, Invariant, OrderInv;
    SerialStepKeeps(w, Crash(t));
  }

  /** A crash anywhere in a promotion, followed by a reconciliation with no new result, reaches the same
      database as the promotion would have. */
  lemma CrashThenReconcile(instance: Id, actions: seq<Action>, t: Id, h: Id, rest: seq<Input>, later: seq<Input>)
    requires Promoting(SerialRun(instance, actions), t, h, |rest|) && |later| == 10
    ensures var w := SerialRun(instance, actions);
      var again := Step(Step(w, Crash(t)), Begin(ReconcileCall(Reconcile(h, None))));
      Run(w, Steps(t, rest)).db == Run(again, Steps(w.next, later)).db
  {
    hide StepCall, FenceInv, Invariant, OrderInv;
    SerialOk(instance, actions);
    CrashAndReconcile(SerialRun(instance, actions), t, h, rest, later);
  }

  lemma CrashAndReconcile(w: World, t: Id, h: Id, rest: seq<Input>, later: seq<Input>)
    requires SerialInv(w) && Promoting(w, t, h, |rest|) && |later| == 10
    ensures var again := Step(End(w, t), Begin(ReconcileCall(Reconcile(h, None))));
      Run(w, Steps(t, rest)).db == Run(again, Steps(w.next, later)).db
  {
    hide Step, StepCall, StartImport, FailHandoff, AcknowledgeImport, Promote, FenceInv, Invariant;
    SerialPromotion(w, t, h, rest);
    CrashAtRest(w, t);
    ReconcileFromRest(End(w, t), Step(End(w, t), Begin(ReconcileCall(Reconcile(h, None)))), h, later);
  }

  /** The handoff completed, the fence open at the next generation, the incoming epoch in charge. */
  predicate Promotes(db: Db, h: Id, after: Option<Db>) {
    && HasAcknowledgement(db, h) && after.Some?
    && after.value.transition == Some(db.transition.value.(state := Completed))
    && after.value.fence == Open(db.fence.generation + 1) && Authoritative(after.value) == {h}
    && db.transition.value.outgoing in after.value.epochs
    && after.value.epochs[db.transition.value.outgoing].replacement == Some(h)
  }

  /** What the stored promotion leaves. */
  lemma PromotionOutcome(db: Db, next: Id, h: Id)
    requires SerialDb(db) && DbOk(db, next) && EpochsOk(db.epochs) && AwaitsPromotion(db, h)
    ensures Promotes(db, h, PromoteStored(db, h))
  {
    hide Progress;
    AcknowledgedCommits(db, next, h);
    var tr, after := db.transition.value, PromoteStored(db, h).value;
    PromoteEffect(db, db.packages[h], tr, db.epochs[tr.incoming], db.epochs[tr.outgoing]);
    PromoteWrites(db, db.packages[h], tr, db.epochs[tr.incoming], db.epochs[tr.outgoing]);
    assert h in Authoritative(after);
  }

  /** In every acknowledged state with no call running, reconciling without a result completes the
      handoff. */
  lemma ReconcileCompletes(instance: Id, actions: seq<Action>, h: Id, inputs: seq<Input>)
    requires var w := SerialRun(instance, actions); w.calls == map[] && AwaitsPromotion(w.db, h) && |inputs| == 10
    ensures var w := SerialRun(instance, actions);
      var db := Run(Step(w, Begin(ReconcileCall(Reconcile(h, None)))), Steps(w.next, inputs)).db;
      && db.transition == Some(w.db.transition.value.(state := Completed))
        && db.fence == Open(w.db.fence.generation + 1)
      && Authoritative(db) == {h}
  {
    hide Step, StepCall, StartImport, FailHandoff, AcknowledgeImport, Promote;
    SerialOk(instance, actions);
    var w := SerialRun(instance, actions);
    ReconcileFromRest(w, Step(w, Begin(ReconcileCall(Reconcile(h, None)))), h, inputs);
    PromotionOutcome(w.db, w.next, h);
  }
}
