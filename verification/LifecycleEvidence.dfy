/** The evidence that packages carry, under every interleaving: a package never records an import result
    that the promotion would not accept, which steps take evidence away, and so exactly when an acknowledged
    handoff can be promoted. */
module LifecycleEvidence {
  import opened Contracts
  import opened Fences
  import opened LifecycleStore
  import opened LifecycleRuns
  import opened LifecycleFence
  import opened LifecycleHistory
  import opened LifecycleSafety
  import opened LifecycleOrdinals
  import opened LifecycleSerial
  import opened LifecycleAlone
  import M = AgentManager

  // ----- The invariant -----

  /** The result a package names is stored, accepted, bound to the package, and its session known. */
  predicate Evident(db: Db, p: Package) {
    p.importResult.Some? ==>
      && p.external.Some? && p.incomingSession in db.sessions && db.sessions[p.incomingSession].external == p.external
      && p.importResult.value in db.results
      && var r := db.results[p.importResult.value];
      && r.request == HandoffRequest(p.id) && r.id == p.importResult.value && r.instance == db.instance
      && r.provider == p.provider && r.session == p.incomingSession && r.epoch == p.incomingEpoch
      && r.external == p.external && IsAcknowledged(r.state)
  }

  /** The package a call has copied. */
  function CopyOf(c: Call): Option<Package> {
    match c
    case HandoffCall(s) => if s.HandoffImported? then Some(s.package) else None
    case CompletionCall(s) => if s.Promotion? then None else Some(s.package)
    case ReconcileCall(s) => if s.Reconcile? then None else Some(s.package)
    case RollbackCall(s) => if s.Rollback? then None else Some(s.package)
    case _ => None
  }

  /** The epoch for which a call will record an import answer. */
  function AnswersFor(c: Call): Option<Epoch> {
    match c
    case HandoffCall(s) => if s.HandoffImported? then Some(s.incoming) else None
    case CompletionCall(s) => if s.Complete? then Some(s.incoming) else None
    case ReconcileCall(s) => if s.ReconcileOpen? then Some(s.incoming) else None
    case _ => None
  }

  predicate Linked(p: Package, incoming: Epoch) {
    incoming.id == p.incomingEpoch && incoming.session == p.incomingSession
  }

  predicate CallEvident(db: Db, c: Call) {
    && (CopyOf(c).Some? ==> Evident(db, CopyOf(c).value))
    && (AnswersFor(c).Some? ==> CopyOf(c).Some? && Linked(CopyOf(c).value, AnswersFor(c).value))
  }

  /** The incoming epoch of a package uses the session and provider the package names. */
  predicate Homed(db: Db, p: Package) {
    && p.incomingEpoch in db.epochs && db.epochs[p.incomingEpoch].session == p.incomingSession
    && db.epochs[p.incomingEpoch].provider == p.provider
  }

  ghost predicate AllEvident(db: Db) { forall p | p in db.packages :: Evident(db, db.packages[p]) }

  ghost predicate AllHomed(db: Db) { forall p | p in db.packages :: Homed(db, db.packages[p]) }

  predicate HoldsEvident(w: World, t: Id) { t in w.calls ==> CallEvident(w.db, w.calls[t]) }

  ghost predicate EvidenceInv(w: World) {
    && AllEvident(w.db) && AllHomed(w.db)
    && (forall t | t in w.calls :: CallEvident(w.db, w.calls[t]))
  }

  // ----- What one step writes -----

  /** The package that a step of call `t` writes, if it commits one. */
  function WrittenByCompletion(db: Db, s: CompletionStage): Option<Package> {
    match s
    case Complete(p, incoming, r, quarantine) =>
      if ImportAccepted(db, p, incoming, r) then
        if AcknowledgeImport(db, p, incoming, r).Some?
        then Some(p.(status := PkgImportAcknowledged, importResult := Some(r.id), external := r.external)) else None
      else if FailHandoff(db, p, incoming, r, quarantine).Some?
      then Some(p.(status := if quarantine then PkgQuarantined else PkgBlocked)) else None
    case PromotionReady(p, tr, incoming, outgoing) =>
      if Promote(db, p, tr, incoming, outgoing).Some? then Some(p.(status := PkgAcknowledged)) else None
    case _ => None
  }

  function WrittenByRollback(db: Db, s: RollbackStage): Option<Package> {
    match s
    case RollbackReady(p, tr, outgoing, incoming, op) =>
      if RollBack(db, p, tr, incoming, outgoing, op).Some? then Some(p.(status := PkgRolledBack)) else None
    case RollbackBlocked(p, tr, incoming) =>
      if BlockRollback(db, p, tr, incoming).Some? then Some(p.(status := PkgRollbackBlocked)) else None
    case _ => None
  }

  function Written(db: Db, t: Id, c: Call): Option<Package> {
    match c
    case HandoffCall(s) =>
      if s.HandoffImporting? && s.plan.op.Fenced?
          && StartImport(db, t, s.plan.provider, s.plan.op, s.plan.outgoing).Some?
      then Some(NewPackage(db, t, s.plan.provider, s.plan.op, s.plan.outgoing.id)) else None
    case CompletionCall(s) => WrittenByCompletion(db, s)
    case ReconcileCall(s) =>
      if s.ReconcileOpen? && StartReconcile(db, s.package, s.transition).Some?
      then Some(s.package.(status := PkgReconciling)) else None
    case RollbackCall(s) => WrittenByRollback(db, s)
    case _ => None
  }

  /** The same for a call of this world. */
  function WrittenAt(w: World, t: Id): Option<Package> { if t in w.calls then Written(w.db, t, w.calls[t]) else None }

  function Put(packages: map<Id, Package>, p: Option<Package>): map<Id, Package> {
    if p.Some? then packages[p.value.id := p.value] else packages
  }

  /** A step keeps results and sessions and writes exactly that package. */
  predicate Writes(w: World, v: World, p: Option<Package>) {
    Keeps(w.db, v.db) && v.db.packages == Put(w.db.packages, p)
  }

  lemma FailoverWrites(w: World, v: World, t: Id, s: FailoverStage, i: Input)
    requires v == StepFailover(w, t, s, i)
    ensures Writes(w, v, None)
  {
    FailoverPasses(w, v, t, s, i);
  }

  lemma HandoffWrites(w: World, v: World, t: Id, s: HandoffStage, i: Input)
    requires v == StepHandoff(w, t, s, i)
    ensures Writes(w, v, Written(w.db, t, HandoffCall(s)))
  {
    hide StartImport, FailHandoff, AcknowledgeImport, Promote;
    if s.HandoffImporting? && s.plan.op.Fenced?
        && StartImport(w.db, t, s.plan.provider, s.plan.op, s.plan.outgoing).Some? {
      ImportEffect(w.db, t, s.plan);
      ImportKeepsRecords(w.db, t, s.plan);
    }
  }

  lemma ImportKeepsRecords(db: Db, t: Id, plan: Plan)
    requires plan.op.Fenced? && StartImport(db, t, plan.provider, plan.op, plan.outgoing).Some?
    ensures Keeps(db, StartImport(db, t, plan.provider, plan.op, plan.outgoing).value)
  {
  }

  lemma AcknowledgeKeepsRecords(db: Db, p: Package, incoming: Epoch, r: Result)
    requires AcknowledgeImport(db, p, incoming, r).Some?
    ensures Keeps(db, AcknowledgeImport(db, p, incoming, r).value)
  {
  }

  lemma FailKeepsRecords(db: Db, p: Package, incoming: Epoch, r: Result, quarantine: bool)
    requires FailHandoff(db, p, incoming, r, quarantine).Some?
    ensures Keeps(db, FailHandoff(db, p, incoming, r, quarantine).value)
  {
  }

  lemma AnswerWrites(w: World, v: World, t: Id, p: Package, incoming: Epoch, r: Result, quarantine: bool)
    requires v == StepImportAnswer(w, t, p, incoming, r, quarantine)
    ensures Writes(w, v, WrittenByCompletion(w.db, Complete(p, incoming, r, quarantine)))
  {
    if ImportAccepted(w.db, p, incoming, r) {
      if AcknowledgeImport(w.db, p, incoming, r).Some? {
        AcknowledgeEffect(w.db, p, incoming, r);
        AcknowledgeKeepsRecords(w.db, p, incoming, r);
      }
    } else if FailHandoff(w.db, p, incoming, r, quarantine).Some? {
      FailEffect(w.db, p, incoming, r, quarantine);
      FailKeepsRecords(w.db, p, incoming, r, quarantine);
    }
  }

  lemma PromoteWritesPackage(w: World, v: World, t: Id, p: Package, tr: Transition, incoming: Epoch, outgoing: Epoch)
    requires v == StepPromote(w, t, p, tr, incoming, outgoing)
    ensures Writes(w, v, WrittenByCompletion(w.db, PromotionReady(p, tr, incoming, outgoing)))
  {
    if Promote(w.db, p, tr, incoming, outgoing).Some? { PromoteEffect(w.db, p, tr, incoming, outgoing); }
  }

  lemma CompletionWrites(w: World, v: World, t: Id, s: CompletionStage, i: Input)
    requires v == StepComplete(w, t, s, i)
    ensures Writes(w, v, WrittenByCompletion(w.db, s))
  {
    hide EvaluateFailover, ExecuteFailover;
    match s
    case Complete(p, incoming, r, quarantine) => AnswerWrites(w, v, t, p, incoming, r, quarantine);
    case PromotionReady(p, tr, incoming, outgoing) => PromoteWritesPackage(w, v, t, p, tr, incoming, outgoing);
    case _ =>
  }

  lemma ReconcileWrites(w: World, v: World, t: Id, s: ReconcileStage, i: Input)
    requires v == StepReconcile(w, t, s, i)
    ensures Writes(w, v, Written(w.db, t, ReconcileCall(s)))
  {
    if s.ReconcileOpen? && StartReconcile(w.db, s.package, s.transition).Some? {
      ReconcileEffect(w.db, s.package, s.transition);
    }
  }

  lemma RollBackWritesPackage(w: World, v: World, t: Id, p: Package, tr: Transition, outgoing: Epoch,
      incoming: Epoch, op: Fence)
    requires v == StepRollBack(w, t, p, tr, outgoing, incoming, op)
    ensures Writes(w, v, WrittenByRollback(w.db, RollbackReady(p, tr, outgoing, incoming, op)))
  {
    if RollBack(w.db, p, tr, incoming, outgoing, op).Some? { RollBackEffect(w.db, p, tr, incoming, outgoing, op); }
  }

  lemma BlockWritesPackage(w: World, v: World, t: Id, p: Package, tr: Transition, incoming: Epoch)
    requires v == StepBlock(w, t, p, tr, incoming)
    ensures Writes(w, v, WrittenByRollback(w.db, RollbackBlocked(p, tr, incoming)))
  {
    if BlockRollback(w.db, p, tr, incoming).Some? { BlockEffect(w.db, p, tr, incoming); }
  }

  lemma RollbackWrites(w: World, v: World, t: Id, s: RollbackStage, i: Input)
    requires v == StepRollback(w, t, s, i)
    ensures Writes(w, v, WrittenByRollback(w.db, s))
  {
    match s
    case RollbackReady(p, tr, outgoing, incoming, op) => RollBackWritesPackage(w, v, t, p, tr, outgoing, incoming, op);
    case RollbackBlocked(p, tr, incoming) => BlockWritesPackage(w, v, t, p, tr, incoming);
    case _ =>
  }

  lemma SessionWrites(w: World, v: World, t: Id, s: SessionStage, i: Input)
    requires v == StepSession(w, t, s, i)
    ensures Writes(w, v, None)
  {
    match s
    case DiscoverHeld(op) => DiscoveryPasses(w, v, t, op, i);
    case ActivateStarted(provider, external) =>
      if OpenEpoch(w.db, t, provider, None, external, Running).Some? {
        OpenEpochView(w.db, t, provider, None, external, Running);
      }
    case Recover(session) =>
      if RecoverSession(w.db, t, session, i.result).Some? { RecoverSessionView(w.db, t, session, i.result); }
    case _ =>
  }

  /** Every step, whatever the interleaving. */
  lemma StepWrites(w: World, v: World, t: Id, i: Input)
    requires Moves(w, v, t, i)
    ensures Writes(w, v, WrittenAt(w, t))
  {
    hide StepFailover, StepHandoff, StepComplete, StepReconcile, StepRollback, StepRecovery, StepSession;
    match w.calls[t]
    case FailoverCall(s) => FailoverWrites(w, v, t, s, i);
    case HandoffCall(s) => HandoffWrites(w, v, t, s, i);
    case CompletionCall(s) => CompletionWrites(w, v, t, s, i);
    case ReconcileCall(s) => ReconcileWrites(w, v, t, s, i);
    case RollbackCall(s) => RollbackWrites(w, v, t, s, i);
    case RecoveryCall(s) => RecoveryPasses(w, v, t, s, i);
    case SessionCall(s) => SessionWrites(w, v, t, s, i);
  }

  // ----- Every step keeps the invariant -----

  lemma EvidentStays(db: Db, after: Db, p: Package)
    requires Keeps(db, after) && Evident(db, p)
    ensures Evident(after, p)
  {
  }

  /** An accepted answer makes evidence. */
  lemma AcknowledgedEvident(db: Db, p: Package, incoming: Epoch, r: Result)
    requires ImportAccepted(db, p, incoming, r) && Linked(p, incoming) && AcknowledgeImport(db, p, incoming, r).Some?
    ensures Evident(AcknowledgeImport(db, p, incoming, r).value,
                    p.(status := PkgImportAcknowledged, importResult := Some(r.id), external := r.external))
  {
    AcknowledgeWrites(db, p, incoming, r);
  }

  predicate WrittenEvidently(w: World, v: World, t: Id) {
    WrittenAt(w, t).Some? ==> Evident(v.db, WrittenAt(w, t).value)
  }

  lemma WrittenEvident(w: World, v: World, t: Id, i: Input)
    requires Moves(w, v, t, i) && HoldsEvident(w, t)
    ensures WrittenEvidently(w, v, t)
  {
    hide StepFailover, StepHandoff, StepReconcile, StepRollback, StepRecovery, StepSession;
    var c := w.calls[t];
    if c.CompletionCall? && c.completion.Complete?
       && ImportAccepted(w.db, c.completion.package, c.completion.incoming, c.completion.result) {
      if AcknowledgeImport(w.db, c.completion.package, c.completion.incoming, c.completion.result).Some? {
        AcknowledgedEvident(w.db, c.completion.package, c.completion.incoming, c.completion.result);
      }
    } else if WrittenAt(w, t).Some? {
      StepWrites(w, v, t, i);
      assert Evident(w.db, WrittenAt(w, t).value);
      EvidentStays(w.db, v.db, WrittenAt(w, t).value);
    }
  }

  /** What the continuation of a call holds. */
  lemma HandoffContinues(w: World, v: World, t: Id, s: HandoffStage, i: Input)
    requires Stands(w, t, HandoffCall(s)) && CallEvident(w.db, HandoffCall(s)) && v == StepHandoff(w, t, s, i)
    ensures HoldsEvident(v, t)
  {
    hide EvaluateFailover, ExecuteFailover;
  }

  lemma CompletionContinues(w: World, v: World, t: Id, s: CompletionStage, i: Input)
    requires Stands(w, t, CompletionCall(s)) && CallEvident(w.db, CompletionCall(s)) && v == StepComplete(w, t, s, i)
    requires AllEvident(w.db)
    ensures HoldsEvident(v, t)
  {
    hide Progress;
  }

  lemma ReopenContinues(w: World, v: World, t: Id, s: ReconcileStage, i: Input)
    requires s.ReconcileOpen? && CallEvident(w.db, ReconcileCall(s)) && v == StepReconcile(w, t, s, i)
    requires Stands(w, t, ReconcileCall(s))
    ensures HoldsEvident(v, t)
  {
    hide StartReconcile, Evident;
    ReconcileWrites(w, v, t, s, i);
    assert Evident(w.db, s.package.(status := PkgReconciling)) by { SameEvident(w.db, s.package, PkgReconciling); }
    EvidentStays(w.db, v.db, s.package.(status := PkgReconciling));
  }

  lemma SameEvident(db: Db, p: Package, status: PackageStatus)
    requires Evident(db, p)
    ensures Evident(db, p.(status := status))
  {
  }

  lemma ReconcileContinues(w: World, v: World, t: Id, s: ReconcileStage, i: Input)
    requires Stands(w, t, ReconcileCall(s)) && CallEvident(w.db, ReconcileCall(s)) && v == StepReconcile(w, t, s, i)
    requires AllEvident(w.db) && AllHomed(w.db) && CallOk(w.db, t, ReconcileCall(s)) && EpochsOk(w.db.epochs)
    ensures HoldsEvident(v, t)
  {
    hide StepReopen, SameBindings, Evident;
    if s.ReconcileOpen? { ReopenContinues(w, v, t, s, i); }
  }

  lemma RollbackContinues(w: World, v: World, t: Id, s: RollbackStage, i: Input)
    requires Stands(w, t, RollbackCall(s)) && CallEvident(w.db, RollbackCall(s)) && v == StepRollback(w, t, s, i)
    requires AllEvident(w.db)
    ensures HoldsEvident(v, t)
  {
  }

  /** The other calls hold no package. */
  lemma OthersContinue(w: World, v: World, t: Id, i: Input)
    requires Moves(w, v, t, i)
    requires w.calls[t].FailoverCall? || w.calls[t].RecoveryCall? || w.calls[t].SessionCall?
    ensures t in v.calls ==> CopyOf(v.calls[t]).None? && AnswersFor(v.calls[t]).None?
  {
    hide StepHandoff, StepComplete, StepReconcile, StepRollback, EvaluateFailover, ExecuteFailover, ClaimRecovery,
        RecoveryValid, RecordRecovery, FinalizeRecovery, MoveAttempt;
  }

  lemma ContinuationEvident(w: World, v: World, t: Id, i: Input)
    requires Invariant(w) && OrderInv(w) && EvidenceInv(w) && Moves(w, v, t, i)
    ensures HoldsEvident(v, t)
  {
    hide StepFailover, StepHandoff, StepComplete, StepReconcile, StepRollback, StepRecovery, StepSession;
    assert CallEvident(w.db, w.calls[t]) && CallOk(w.db, t, w.calls[t]);
    match w.calls[t]
    case HandoffCall(s) => HandoffContinues(w, v, t, s, i);
    case CompletionCall(s) => CompletionContinues(w, v, t, s, i);
    case ReconcileCall(s) => ReconcileContinues(w, v, t, s, i);
    case RollbackCall(s) => RollbackContinues(w, v, t, s, i);
    case _ => OthersContinue(w, v, t, i);
  }

  /** Only an import writes a package that was not there. */
  lemma OthersRewrite(db: Db, t: Id, c: Call)
    requires CallOk(db, t, c) && Written(db, t, c).Some? && !(c.HandoffCall? && c.handoff.HandoffImporting?)
    ensures Written(db, t, c).value.id in db.packages
  {
    hide StartImport, FailHandoff, AcknowledgeImport, Promote, StartReconcile, BlockRollback, RollBack;
  }

  lemma NewHomed(w: World, v: World, t: Id, i: Input)
    requires Moves(w, v, t, i)
    requires w.calls[t].HandoffCall? && w.calls[t].handoff.HandoffImporting? && Written(w.db, t, w.calls[t]).Some?
    ensures t in v.db.packages && Homed(v.db, v.db.packages[t])
  {
    hide StepFailover, StepComplete, StepReconcile, StepRollback, StepRecovery, StepSession;
    ImportWrites(w.db, t, w.calls[t].handoff.plan);
    ImportEffect(w.db, t, w.calls[t].handoff.plan);
  }

  lemma PackagesEvident(w: World, v: World, t: Id, i: Input)
    requires EvidenceInv(w) && Moves(w, v, t, i)
    ensures AllEvident(v.db)
  {
    hide Step, StepCall;
    StepWrites(w, v, t, i);
    var q := Written(w.db, t, w.calls[t]);
    if q.Some? { WrittenEvident(w, v, t, i); }
    forall p | p in v.db.packages ensures Evident(v.db, v.db.packages[p]) {
      if !(q.Some? && p == q.value.id) { EvidentStays(w.db, v.db, w.db.packages[p]); }
    }
  }

  lemma EvidenceAssembles(w: World, v: World, t: Id)
    requires EvidenceInv(w) && Keeps(w.db, v.db) && Evolves(w.db, v.db, t) && Grows(w.db.epochs, v.db.epochs)
    requires AllEvident(v.db)
    requires t in v.db.packages && t !in w.db.packages ==> Homed(v.db, v.db.packages[t])
    requires forall u | u in v.calls && u != t :: u in w.calls && v.calls[u] == w.calls[u]
    requires HoldsEvident(v, t)
    ensures EvidenceInv(v)
  {
    forall p | p in v.db.packages ensures Homed(v.db, v.db.packages[p]) {
      if p in w.db.packages { assert Homed(w.db, w.db.packages[p]); }
    }
    forall u | u in v.calls ensures CallEvident(v.db, v.calls[u]) {
      if u != t && CopyOf(w.calls[u]).Some? { EvidentStays(w.db, v.db, CopyOf(w.calls[u]).value); }
    }
  }

  lemma AdvanceKeepsEvidence(w: World, v: World, t: Id, i: Input)
    requires Invariant(w) && OrderInv(w) && EvidenceInv(w) && Moves(w, v, t, i)
    ensures EvidenceInv(v)
  {
    hide Step, StepCall, StartImport, FailHandoff, AcknowledgeImport, Promote;
    AdvanceProgress(w, v, t, i);
    AdvanceOrders(w, v, t, i);
    StepWrites(w, v, t, i);
    PackagesEvident(w, v, t, i);
    ContinuationEvident(w, v, t, i);
    if t in v.db.packages && t !in w.db.packages {
      assert CallOk(w.db, t, w.calls[t]);
      if !(w.calls[t].HandoffCall? && w.calls[t].handoff.HandoffImporting?) { OthersRewrite(w.db, t, w.calls[t]); }
      NewHomed(w, v, t, i);
    }
    EvidenceAssembles(w, v, t);
  }

  lemma EntryHoldsNothing(c: Call)
    requires IsEntry(c)
    ensures CopyOf(c).None? && AnswersFor(c).None?
  {
  }

  lemma StepKeepsEvidence(w: World, a: Action)
    requires Invariant(w) && OrderInv(w) && EvidenceInv(w)
    ensures EvidenceInv(Step(w, a))
  {
    hide StepCall, FenceInv, Invariant;
    match a
    case Begin(c) => if IsEntry(c) { EntryHoldsNothing(c); }
    case Crash(t) =>
    case Advance(t, i) => if t in w.calls { AdvanceKeepsEvidence(w, Step(w, a), t, i); }
  }

  ghost predicate Reachable(w: World) { Invariant(w) && OrderInv(w) && EvidenceInv(w) }

  lemma {:induction false} RunsKeepEvidence(instance: Id, actions: seq<Action>)
    ensures Reachable(Run(Start(instance), actions))
  {
    hide Step, StepCall;
    if actions != [] {
      var most := actions[..|actions| - 1];
      RunsKeepEvidence(instance, most);
      StepKeeps(Run(Start(instance), most), actions[|actions| - 1]);
      StepKeepsOrder(Run(Start(instance), most), actions[|actions| - 1]);
      StepKeepsEvidence(Run(Start(instance), most), actions[|actions| - 1]);
    }
  }

  // ----- When an acknowledged handoff can be promoted -----

  /** In every run, the records of an acknowledged handoff pass every check of its promotion, and the
      promotion commits, if and only if its package carries an import result. */
  lemma PromotesExactly(w: World, h: Id)
    requires Reachable(w) && AwaitsPromotion(w.db, h)
    ensures HasAcknowledgement(w.db, h)
    ensures Bound(w.db, w.db.packages[h], w.db.epochs[w.db.transition.value.incoming])
        <==> w.db.packages[h].importResult.Some?
    ensures M.Promotion(w.db, h).Some? <==> w.db.packages[h].importResult.Some?
  {
    hide EvaluateFailover, ExecuteFailover, StartImport, FailHandoff, AcknowledgeImport, Promote;
    var db, tr := w.db, w.db.transition.value;
    assert PackageOk(db, h) && Evident(db, db.packages[h]) && Homed(db, db.packages[h]);
    assert Ordered(db.epochs, db.packages[h].outgoing, db.packages[h].incomingEpoch);
    assert db.epochs[h].id == h;
    StoredPromotionCommits(db, w.next, h);
  }

  /** The call is about to record an accepted answer. */
  predicate RecordsAnswer(db: Db, c: Call) {
    && c.CompletionCall? && c.completion.Complete?
    && ImportAccepted(db, c.completion.package, c.completion.incoming, c.completion.result)
    && AcknowledgeImport(db, c.completion.package, c.completion.incoming, c.completion.result).Some?
  }

  /** The call is a rollback that read the transition as failed and is about to give up. */
  predicate GivesUp(db: Db, c: Call) {
    && c.RollbackCall? && c.rollback.RollbackBlocked? && c.rollback.transition.state == HandoffFailed
    && BlockRollback(db, c.rollback.package, c.rollback.transition, c.rollback.incoming).Some?
  }

  predicate IsAwaitingPromotion(db: Db) { db.transition.Some? && db.transition.value.state == ImportAcknowledged }

  /** Who moves the transition into, or leaves it in, the acknowledged state. */
  predicate Leaves(w: World, v: World, t: Id, c: Call) {
    && (RecordsAnswer(w.db, c) ==>
      w.db.transition.Some? && v.db.transition == Some(w.db.transition.value.(state := ImportAcknowledged)))
    && (GivesUp(w.db, c) ==> v.db.transition == w.db.transition)
    && (!RecordsAnswer(w.db, c) && IsAwaitingPromotion(v.db) ==>
          v.db.transition == w.db.transition && (Written(w.db, t, c).Some? ==> GivesUp(w.db, c)))
  }

  lemma HandoffLeaves(w: World, v: World, t: Id, s: HandoffStage, i: Input)
    requires v == StepHandoff(w, t, s, i)
    ensures Leaves(w, v, t, HandoffCall(s))
  {
    hide EvaluateFailover, ExecuteFailover;
    if s.HandoffImporting? && s.plan.op.Fenced?
        && StartImport(w.db, t, s.plan.provider, s.plan.op, s.plan.outgoing).Some? {
      ImportEffect(w.db, t, s.plan);
    }
  }

  lemma AnswerLeaves(w: World, v: World, t: Id, p: Package, incoming: Epoch, r: Result, quarantine: bool)
    requires v == StepImportAnswer(w, t, p, incoming, r, quarantine)
    ensures Leaves(w, v, t, CompletionCall(Complete(p, incoming, r, quarantine)))
  {
    if ImportAccepted(w.db, p, incoming, r) {
      if AcknowledgeImport(w.db, p, incoming, r).Some? { AcknowledgeEffect(w.db, p, incoming, r); }
    } else if FailHandoff(w.db, p, incoming, r, quarantine).Some? { FailEffect(w.db, p, incoming, r, quarantine); }
  }

  lemma CompletionLeaves(w: World, v: World, t: Id, s: CompletionStage, i: Input)
    requires v == StepComplete(w, t, s, i)
    ensures Leaves(w, v, t, CompletionCall(s))
  {
    hide Progress;
    match s
    case Complete(p, incoming, r, quarantine) => AnswerLeaves(w, v, t, p, incoming, r, quarantine);
    case PromotionReady(p, tr, incoming, outgoing) =>
      if Promote(w.db, p, tr, incoming, outgoing).Some? { PromoteEffect(w.db, p, tr, incoming, outgoing); }
    case _ =>
  }

  lemma ReconcileLeaves(w: World, v: World, t: Id, s: ReconcileStage, i: Input)
    requires v == StepReconcile(w, t, s, i)
    ensures Leaves(w, v, t, ReconcileCall(s))
  {
    if s.ReconcileOpen? && StartReconcile(w.db, s.package, s.transition).Some? {
      ReconcileEffect(w.db, s.package, s.transition);
    }
  }

  lemma BlockLeaves(w: World, v: World, t: Id, p: Package, tr: Transition, incoming: Epoch)
    requires v == StepBlock(w, t, p, tr, incoming)
    ensures Leaves(w, v, t, RollbackCall(RollbackBlocked(p, tr, incoming)))
  {
  }

  lemma RollbackLeaves(w: World, v: World, t: Id, s: RollbackStage, i: Input)
    requires v == StepRollback(w, t, s, i)
    ensures Leaves(w, v, t, RollbackCall(s))
  {
    hide EvaluateFailover, ExecuteFailover, StartReconcile, BlockRollback, RollBack;
    match s
    case RollbackReady(p, tr, outgoing, incoming, op) =>
      if RollBack(w.db, p, tr, incoming, outgoing, op).Some? { RollBackEffect(w.db, p, tr, incoming, outgoing, op); }
    case RollbackBlocked(p, tr, incoming) => BlockLeaves(w, v, t, p, tr, incoming);
    case _ =>
  }

  lemma SessionLeaves(w: World, v: World, t: Id, s: SessionStage, i: Input)
    requires v == StepSession(w, t, s, i)
    ensures v.db.transition == w.db.transition
  {
    match s
    case DiscoverHeld(op) => DiscoveryPasses(w, v, t, op, i);
    case ActivateStarted(provider, external) =>
      if OpenEpoch(w.db, t, provider, None, external, Running).Some? {
        OpenEpochView(w.db, t, provider, None, external, Running);
      }
    case Recover(session) =>
      if RecoverSession(w.db, t, session, i.result).Some? { RecoverSessionView(w.db, t, session, i.result); }
    case _ =>
  }

  predicate LeavesAt(w: World, v: World, t: Id) { t in w.calls && Leaves(w, v, t, w.calls[t]) }

  lemma StepLeaves(w: World, v: World, t: Id, i: Input)
    requires Moves(w, v, t, i)
    ensures LeavesAt(w, v, t)
  {
    hide StepFailover, StepHandoff, StepComplete, StepReconcile, StepRollback, StepRecovery, StepSession;
    match w.calls[t]
    case FailoverCall(s) => FailoverPasses(w, v, t, s, i);
    case HandoffCall(s) => HandoffLeaves(w, v, t, s, i);
    case CompletionCall(s) => CompletionLeaves(w, v, t, s, i);
    case ReconcileCall(s) => ReconcileLeaves(w, v, t, s, i);
    case RollbackCall(s) => RollbackLeaves(w, v, t, s, i);
    case RecoveryCall(s) => RecoveryPasses(w, v, t, s, i);
    case SessionCall(s) => SessionLeaves(w, v, t, s, i);
  }

  // ----- The theorems -----

  /** An acknowledged handoff can be promoted. */
  predicate Completable(db: Db) { IsAwaitingPromotion(db) ==> M.Promotion(db, db.transition.value.handoff).Some? }

  /** The call acknowledges another handoff than the one it has an answer for, and that one has none. */
  predicate AcknowledgesAstray(db: Db, c: Call) {
    && RecordsAnswer(db, c) && db.transition.Some? && db.transition.value.handoff != c.completion.package.id
    && db.transition.value.handoff in db.packages && db.packages[db.transition.value.handoff].importResult.None?
  }

  /** The call gives up on a handoff that was acknowledged since, with a copy from before. */
  predicate GivesUpStale(db: Db, c: Call) {
    GivesUp(db, c) && AwaitsPromotion(db, c.rollback.package.id) && c.rollback.package.importResult.None?
  }

  predicate Strays(w: World, a: Action) {
    a.Advance? && a.id in w.calls && StraysCall(w.db, w.calls[a.id])
  }

  /** The call is about to write a copy of package `h` that carries no evidence, other than to add some. */
  predicate WritesOldCopy(db: Db, t: Id, c: Call, h: Id) {
    && CopyOf(c).Some? && CopyOf(c).value.id == h && CopyOf(c).value.importResult.None?
    && Written(db, t, c).Some? && !RecordsAnswer(db, c)
  }

  lemma WrittenIsCopy(db: Db, t: Id, c: Call)
    requires Written(db, t, c).Some? && !(c.HandoffCall? && c.handoff.HandoffImporting?)
    ensures CopyOf(c).Some? && Written(db, t, c).value.id == CopyOf(c).value.id
    ensures RecordsAnswer(db, c) ==> Written(db, t, c).value.importResult.Some?
    ensures !RecordsAnswer(db, c) ==> Written(db, t, c).value.importResult == CopyOf(c).value.importResult
  {
  }

  /** The same in terms of the package alone. */
  predicate HasEvidence(db: Db) {
    IsAwaitingPromotion(db) ==>
      db.transition.value.handoff in db.packages && db.packages[db.transition.value.handoff].importResult.Some?
  }

  lemma CompletableIs(w: World)
    requires Reachable(w)
    ensures Completable(w.db) <==> HasEvidence(w.db)
  {
    if IsAwaitingPromotion(w.db) { PromotesExactly(w, w.db.transition.value.handoff); }
  }

  predicate StraysAt(w: World, t: Id) { t in w.calls && StraysCall(w.db, w.calls[t]) }

  predicate StraysCall(db: Db, c: Call) { AcknowledgesAstray(db, c) || GivesUpStale(db, c) }

  lemma AcknowledgedKept(w: World, v: World, t: Id, c: Call)
    requires TransitionOk(w.db) && Writes(w, v, Written(w.db, t, c)) && Leaves(w, v, t, c) && RecordsAnswer(w.db, c)
    ensures HasEvidence(v.db) <==> !StraysCall(w.db, c)
  {
    WrittenIsCopy(w.db, t, c);
  }

  lemma OthersKept(w: World, v: World, t: Id, c: Call)
    requires TransitionOk(w.db) && HasEvidence(w.db) && Writes(w, v, Written(w.db, t, c)) && Leaves(w, v, t, c)
    requires !RecordsAnswer(w.db, c)
    ensures HasEvidence(v.db) <==> !StraysCall(w.db, c)
  {
    if GivesUp(w.db, c) { WrittenIsCopy(w.db, t, c); }
  }

  lemma KeptHere(w: World, v: World, t: Id, i: Input)
    requires DbOk(w.db, w.next) && HasEvidence(w.db) && Moves(w, v, t, i)
    ensures HasEvidence(v.db) <==> !StraysAt(w, t)
  {
    hide Step, StepCall;
    StepWrites(w, v, t, i);
    StepLeaves(w, v, t, i);
    if RecordsAnswer(w.db, w.calls[t]) {
      AcknowledgedKept(w, v, t, w.calls[t]);
    } else {
      OthersKept(w, v, t, w.calls[t]);
    }
  }

  /** In every run: an acknowledged handoff stays one that can be promoted, and a handoff just acknowledged
      is one, except after exactly two kinds of steps: an answer for one handoff acknowledges another that
      has none, or a rollback gives up with a copy of the package from before the acknowledgement. */
  lemma CompletableKeptExactly(instance: Id, actions: seq<Action>, a: Action)
    requires Completable(Run(Start(instance), actions).db)
    ensures var w := Run(Start(instance), actions);
      Completable(Step(w, a).db) <==> !Strays(w, a)
  {
    hide StepCall, OrderInv;
    RunsKeepEvidence(instance, actions);
    var w := Run(Start(instance), actions);
    StepKeeps(w, a);
    StepKeepsOrder(w, a);
    StepKeepsEvidence(w, a);
    CompletableIs(w);
    CompletableIs(Step(w, a));
    if a.Advance? && a.id in w.calls { KeptHere(w, Step(w, a), a.id, a.input); }
  }

  /** No step of the run goes astray. */
  ghost predicate Straight(instance: Id, actions: seq<Action>) {
    forall k | 0 <= k < |actions| :: !Strays(Run(Start(instance), actions[..k]), actions[k])
  }

  /** In every interleaving without such a step, every acknowledged state can be promoted. */
  lemma {:induction false} AcknowledgedCanBePromoted(instance: Id, actions: seq<Action>)
    requires Straight(instance, actions)
    ensures Completable(Run(Start(instance), actions).db)
  {
    hide Step, StepCall;
    if actions != [] {
      var most := actions[..|actions| - 1];
      forall k | 0 <= k < |most| ensures !Strays(Run(Start(instance), most[..k]), most[k]) {
        assert most[..k] == actions[..k] && most[k] == actions[k];
      }
      AcknowledgedCanBePromoted(instance, most);
      CompletableKeptExactly(instance, most, actions[|actions| - 1]);
    }
  }

  lemma CopyWritten(w: World, v: World, t: Id, c: Call, h: Id)
    requires CallOk(w.db, t, c) && Writes(w, v, Written(w.db, t, c)) && h in w.db.packages
    requires w.db.packages[h].importResult.Some?
    ensures h in v.db.packages && (v.db.packages[h].importResult.None? <==> WritesOldCopy(w.db, t, c, h))
  {
    if c.HandoffCall? && c.handoff.HandoffImporting? { assert t !in w.db.packages; }
    else if Written(w.db, t, c).Some? { WrittenIsCopy(w.db, t, c); }
  }

  lemma DroppedHere(w: World, v: World, t: Id, i: Input, h: Id)
    requires FenceInv(w) && Moves(w, v, t, i)
    requires h in w.db.packages && w.db.packages[h].importResult.Some?
    ensures h in v.db.packages && (v.db.packages[h].importResult.None? <==> WritesOldCopy(w.db, t, w.calls[t], h))
  {
    hide Step, StepCall;
    StepWrites(w, v, t, i);
    CopyWritten(w, v, t, w.calls[t], h);
  }

  /** In every run, a step takes the evidence of a package away if and only if it writes back a copy that
      was read before the evidence was recorded. */
  lemma EvidenceDroppedExactly(instance: Id, actions: seq<Action>, t: Id, i: Input, h: Id)
    requires var w := Run(Start(instance), actions);
      t in w.calls && h in w.db.packages && w.db.packages[h].importResult.Some?
    ensures var w := Run(Start(instance), actions);
      var v := Step(w, Advance(t, i));
      h in v.db.packages && (v.db.packages[h].importResult.None? <==> WritesOldCopy(w.db, t, w.calls[t], h))
  {
    hide StepCall, FenceInv, OrderInv;
    RunsKeepEvidence(instance, actions);
    var w := Run(Start(instance), actions);
    DroppedHere(w, Step(w, Advance(t, i)), t, i, h);
  }

  /** In every run, reconciling an acknowledged handoff without a new result reaches exactly what its
      promotion would have reached if and only if the package carries its evidence and the incoming epoch
      has not been closed; otherwise it raises and changes nothing. */
  lemma ReconcilesExactly(instance: Id, actions: seq<Action>, h: Id)
    requires AwaitsPromotion(Run(Start(instance), actions).db, h)
    ensures var db := Run(Start(instance), actions).db;
      && h in db.packages && h in db.epochs
      && (if db.packages[h].importResult.Some? && !db.epochs[h].closed
          then M.Promotion(db, h).Some? && M.Reconciliation(db, h, None) == (M.Promotion(db, h).value, M.Done)
          else M.Reconciliation(db, h, None) == (db, M.Raised))
  {
    hide Step, StepCall, EvaluateFailover, ExecuteFailover, StartImport, FailHandoff, AcknowledgeImport, Promote,
        OrderInv;
    RunsKeepEvidence(instance, actions);
    var w := Run(Start(instance), actions);
    PromotesExactly(w, h);
    assert PackageOk(w.db, h) && Homed(w.db, w.db.packages[h]);
  }

  /** The answer repeats the recorded one in everything that binds it. */
  predicate Repeats(db: Db, h: Id, r: Result) {
    && h in db.packages && db.packages[h].importResult.Some? && db.packages[h].importResult.value in db.results
    && var d := db.results[db.packages[h].importResult.value];
    && r.id == d.id && r.request == d.request && r.instance == d.instance && r.provider == d.provider
    && r.session == d.session && r.epoch == d.epoch && r.external == d.external && r.state == d.state
  }

  lemma RepeatsHere(db: Db, h: Id, r: Result)
    requires AwaitsPromotion(db, h)
    ensures M.Reconciliation(db, h, Some(r))
      == if Repeats(db, h, r) then M.Reconciliation(db, h, None) else (db, M.Raised)
  {
    hide M.Promotion, M.Completion, StartReconcile;
  }

  /** In every run, reconciling an acknowledged handoff with an answer does what reconciling it without one does
      if the answer repeats the recorded import result in all eight fields that bind it; with any other answer
      it raises and changes nothing. The recorded result itself is always such an answer. */
  lemma RepeatedAnswerExactly(instance: Id, actions: seq<Action>, h: Id, r: Result, inputs: seq<Input>)
    requires AwaitsPromotion(Run(Start(instance), actions).db, h) && |inputs| >= 12
    ensures var w := Run(Start(instance), actions);
      && h in w.db.packages
      && (w.db.packages[h].importResult.Some? ==>
            w.db.packages[h].importResult.value in w.db.results
            && Repeats(w.db, h, w.db.results[w.db.packages[h].importResult.value]))
      && Run(Step(w, Begin(ReconcileCall(Reconcile(h, Some(r))))), Steps(w.next, inputs)).db
         == if Repeats(w.db, h, r)
            then Run(Step(w, Begin(ReconcileCall(Reconcile(h, None)))), Steps(w.next, inputs)).db else w.db
  {
    hide StepCall, M.Reconciliation, OrderInv;
    RunsKeepEvidence(instance, actions);
    var w := Run(Start(instance), actions);
    PromotesExactly(w, h);
    assert Evident(w.db, w.db.packages[h]);
    RepeatsHere(w.db, h, r);
    ReconcileAlone(Step(w, Begin(ReconcileCall(Reconcile(h, Some(r))))), w.next, h, Some(r), inputs);
    ReconcileAlone(Step(w, Begin(ReconcileCall(Reconcile(h, None)))), w.next, h, None, inputs);
  }
}
