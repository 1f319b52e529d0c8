/** The order of epochs: ordinals are distinct and replacements lead forward, under every interleaving. */
module LifecycleOrdinals {
  import opened Contracts
  import opened Fences
  import opened LifecycleStore
  import opened LifecycleRuns
  import opened LifecycleFence
  import opened LifecycleHistory
  import opened LifecycleSafety

  type Epochs = map<Id, Epoch>

  /** Epoch `a` exists, `b` exists, and `b` has the larger ordinal. */
  predicate Ordered(epochs: Epochs, a: Id, b: Id) {
    a in epochs && b in epochs && epochs[a].ordinal < epochs[b].ordinal
  }

  /** A copy of an epoch, perhaps stale: it still names an epoch of that ordinal, and a replacement it
      carries still lies ahead. */
  predicate Sound(epochs: Epochs, e: Epoch) {
    && e.id in epochs && epochs[e.id].ordinal == e.ordinal
    && (e.replacement.Some? ==> Ordered(epochs, e.id, e.replacement.value))
  }

  ghost predicate EpochsOk(epochs: Epochs) {
    && (forall e | e in epochs :: epochs[e].id == e && Sound(epochs, epochs[e]))
    && (forall a, b | a in epochs && b in epochs && a != b :: epochs[a].ordinal != epochs[b].ordinal)
  }

  /** No epoch disappears or changes its ordinal, session or provider. */
  ghost predicate Grows(epochs: Epochs, after: Epochs) {
    forall e | e in epochs ::
      && e in after && after[e].ordinal == epochs[e].ordinal && after[e].session == epochs[e].session
      && after[e].provider == epochs[e].provider
  }

  // ----- What calls carry -----

  /** The epochs a call has copied, and the outgoing and incoming epoch ids a promotion looked up. */
  datatype Copies = Copies(outgoing: Option<Epoch>, incoming: Option<Epoch>, pair: Option<(Id, Id)>)

  const NO_COPIES := Copies(None, None, None)

  function CopiesInHandoff(s: HandoffStage): Copies {
    match s
    case Handoff(_, _) => NO_COPIES
    case HandoffUnblocked(_, _) => NO_COPIES
    case HandoffFrom(_, _, outgoing) => Copies(Some(outgoing), None, None)
    case HandoffImported(_, incoming) => Copies(None, Some(incoming), None)
    case _ => Copies(Some(s.plan.outgoing), None, None)
  }

  function CopiesInCompletion(s: CompletionStage): Copies {
    match s
    case Complete(_, incoming, _, _) => Copies(None, Some(incoming), None)
    case Promotion(_) => NO_COPIES
    case PromotionOf(_) => NO_COPIES
    case PromotionAt(_, tr) => Copies(None, None, Some((tr.outgoing, tr.incoming)))
    case PromotionTo(_, tr, incoming) => Copies(None, Some(incoming), Some((tr.outgoing, incoming.id)))
    case _ => Copies(Some(s.outgoing), Some(s.incoming), Some((s.outgoing.id, s.incoming.id)))
  }

  function CopiesInReconcile(s: ReconcileStage): Copies {
    if s.ReconcileOpen? then Copies(None, Some(s.incoming), None) else NO_COPIES
  }

  function CopiesInRollback(s: RollbackStage): Copies {
    match s
    case Rollback(_) => NO_COPIES
    case RollbackOf(_) => NO_COPIES
    case RollbackAt(_, _) => NO_COPIES
    case RollbackFrom(_, _, outgoing) => Copies(Some(outgoing), None, None)
    case RollbackBlocked(_, _, incoming) => Copies(None, Some(incoming), None)
    case _ => Copies(Some(s.outgoing), Some(s.incoming), None)
  }

  function CopiesOf(c: Call): Copies {
    match c
    case HandoffCall(s) => CopiesInHandoff(s)
    case CompletionCall(s) => CopiesInCompletion(s)
    case ReconcileCall(s) => CopiesInReconcile(s)
    case RollbackCall(s) => CopiesInRollback(s)
    case _ => NO_COPIES
  }

  predicate CopiesOk(epochs: Epochs, c: Copies) {
    && (c.outgoing.Some? ==> Sound(epochs, c.outgoing.value))
    && (c.incoming.Some? ==> Sound(epochs, c.incoming.value))
    && (c.pair.Some? ==> Ordered(epochs, c.pair.value.0, c.pair.value.1))
  }

  ghost predicate OrderInv(w: World) {
    && EpochsOk(w.db.epochs)
    && (forall p | p in w.db.packages ::
      Ordered(w.db.epochs, w.db.packages[p].outgoing, w.db.packages[p].incomingEpoch))
    && (forall t | t in w.calls :: CopiesOk(w.db.epochs, CopiesOf(w.calls[t])))
  }

  // ----- Writing epochs -----

  /** Saving a sound copy. */
  lemma PutKeeps(epochs: Epochs, e: Epoch)
    requires EpochsOk(epochs) && Sound(epochs, e) && PutEpoch(epochs, e).Some?
    ensures var after := PutEpoch(epochs, e).value; EpochsOk(after) && Grows(epochs, after)
  {
  }

  lemma NextIsNew(db: Db)
    ensures forall e | e in db.epochs :: db.epochs[e].ordinal < NextOrdinal(db)
  {
    forall e | e in db.epochs ensures db.epochs[e].ordinal < NextOrdinal(db) {
      assert db.epochs[e].ordinal in Ordinals(db.epochs);
    }
  }

  /** Saving a new epoch with the next ordinal. */
  lemma SaveNewKeeps(db: Db, e: Epoch)
    requires EpochsOk(db.epochs) && e.ordinal == NextOrdinal(db) && e.replacement.None? && SaveEpoch(db, e).Some?
    ensures var after := SaveEpoch(db, e).value;
      && after == db.(epochs := after.epochs) && EpochsOk(after.epochs) && Grows(db.epochs, after.epochs)
      && e.id !in db.epochs && e.id in after.epochs && after.epochs[e.id] == e
  {
    NextIsNew(db);
  }

  lemma SoundStays(epochs: Epochs, after: Epochs, e: Epoch)
    requires Grows(epochs, after) && Sound(epochs, e)
    ensures Sound(after, e)
  {
  }

  lemma CopiesStay(epochs: Epochs, after: Epochs, c: Copies)
    requires Grows(epochs, after) && CopiesOk(epochs, c)
    ensures CopiesOk(after, c)
  {
  }

  lemma ImportOrders(db: Db, t: Id, plan: Plan)
    requires EpochsOk(db.epochs) && Sound(db.epochs, plan.outgoing)
    requires plan.op.Fenced? && StartImport(db, t, plan.provider, plan.op, plan.outgoing).Some?
    ensures var after := StartImport(db, t, plan.provider, plan.op, plan.outgoing).value;
      && EpochsOk(after.epochs) && Grows(db.epochs, after.epochs) && Ordered(after.epochs, plan.outgoing.id, t)
      && Sound(after.epochs, IncomingEpoch(db, t, plan.provider))
  {
    var incoming := IncomingEpoch(db, t, plan.provider);
    var a := EnsureSession(db, incoming.session, plan.provider, None);
    var b := BeginTransition(a, Transition(t, plan.outgoing.id, t, Importing)).value;
    var c := SavePackage(b, NewPackage(db, t, plan.provider, plan.op, plan.outgoing.id)).value;
    assert c.epochs == db.epochs;
    NextIsNew(db);
    SaveNewKeeps(c, incoming);
  }

  lemma FailWrites(db: Db, p: Package, incoming: Epoch, r: Result, quarantine: bool)
    requires FailHandoff(db, p, incoming, r, quarantine).Some?
    ensures var a :=
        PutEpoch(db.epochs, incoming.(state := if quarantine then Quarantined else OpBlocked, closed := quarantine));
      a.Some? && FailHandoff(db, p, incoming, r, quarantine).value.epochs == a.value
  {
  }

  lemma FailOrders(db: Db, p: Package, incoming: Epoch, r: Result, quarantine: bool)
    requires EpochsOk(db.epochs) && Sound(db.epochs, incoming) && FailHandoff(db, p, incoming, r, quarantine).Some?
    ensures var after := FailHandoff(db, p, incoming, r, quarantine).value.epochs;
      EpochsOk(after) && Grows(db.epochs, after)
  {
    FailWrites(db, p, incoming, r, quarantine);
    PutKeeps(db.epochs, incoming.(state := if quarantine then Quarantined else OpBlocked, closed := quarantine));
  }

  /** The epoch writes of a promotion. */
  lemma PromoteWrites(db: Db, p: Package, t: Transition, incoming: Epoch, outgoing: Epoch)
    requires Promote(db, p, t, incoming, outgoing).Some?
    ensures var a :=
        PutEpoch(db.epochs, outgoing.(state := Succeeded, closed := true, replacement := Some(incoming.id)));
      && a.Some? && var b := PutEpoch(a.value, incoming.(state := Running));
      && b.Some? && Promote(db, p, t, incoming, outgoing).value.epochs == b.value
  {
  }

  lemma PromoteOrders(db: Db, p: Package, t: Transition, incoming: Epoch, outgoing: Epoch)
    requires EpochsOk(db.epochs) && Sound(db.epochs, incoming) && Sound(db.epochs, outgoing)
    requires Ordered(db.epochs, outgoing.id, incoming.id) && Promote(db, p, t, incoming, outgoing).Some?
    ensures var after := Promote(db, p, t, incoming, outgoing).value.epochs;
      EpochsOk(after) && Grows(db.epochs, after)
  {
    PromoteWrites(db, p, t, incoming, outgoing);
    var closed := outgoing.(state := Succeeded, closed := true, replacement := Some(incoming.id));
    TwoPutsKeep(db.epochs, closed, incoming.(state := Running));
  }

  lemma TwoPutsKeep(epochs: Epochs, d: Epoch, e: Epoch)
    requires EpochsOk(epochs) && Sound(epochs, d) && Sound(epochs, e)
    requires PutEpoch(epochs, d).Some? && PutEpoch(PutEpoch(epochs, d).value, e).Some?
    ensures var after := PutEpoch(PutEpoch(epochs, d).value, e).value; EpochsOk(after) && Grows(epochs, after)
  {
    PutKeeps(epochs, d);
    SoundStays(epochs, PutEpoch(epochs, d).value, e);
    PutKeeps(PutEpoch(epochs, d).value, e);
  }

  lemma BlockWrites(db: Db, p: Package, t: Transition, incoming: Epoch)
    requires BlockRollback(db, p, t, incoming).Some?
    ensures var a := PutEpoch(db.epochs, incoming.(state := OpBlocked));
      a.Some? && BlockRollback(db, p, t, incoming).value.epochs == a.value
  {
  }

  lemma BlockOrders(db: Db, p: Package, t: Transition, incoming: Epoch)
    requires EpochsOk(db.epochs) && Sound(db.epochs, incoming) && BlockRollback(db, p, t, incoming).Some?
    ensures var after := BlockRollback(db, p, t, incoming).value.epochs;
      EpochsOk(after) && Grows(db.epochs, after)
  {
    BlockWrites(db, p, t, incoming);
    PutKeeps(db.epochs, incoming.(state := OpBlocked));
  }

  /** The epoch writes of a rollback. */
  lemma RollBackWrites(db: Db, p: Package, t: Transition, incoming: Epoch, outgoing: Epoch, op: Fence)
    requires RollBack(db, p, t, incoming, outgoing, op).Some?
    ensures var a := if incoming.closed then Some(db.epochs)
                     else PutEpoch(db.epochs, incoming.(state := Cancelled, closed := true));
      && a.Some? && var b := PutEpoch(a.value, outgoing.(state := Running));
      && b.Some? && RollBack(db, p, t, incoming, outgoing, op).value.epochs == b.value
  {
  }

  lemma RollBackOrders(db: Db, p: Package, t: Transition, incoming: Epoch, outgoing: Epoch, op: Fence)
    requires EpochsOk(db.epochs) && Sound(db.epochs, incoming) && Sound(db.epochs, outgoing)
    requires RollBack(db, p, t, incoming, outgoing, op).Some?
    ensures var after := RollBack(db, p, t, incoming, outgoing, op).value.epochs;
      EpochsOk(after) && Grows(db.epochs, after)
  {
    RollBackWrites(db, p, t, incoming, outgoing, op);
    if incoming.closed { PutKeeps(db.epochs, outgoing.(state := Running)); }
    else { TwoPutsKeep(db.epochs, incoming.(state := Cancelled, closed := true), outgoing.(state := Running)); }
  }

  lemma OpenOrders(db: Db, t: Id, provider: Id, session: Option<SessionId>, external: Option<Id>, state: OperationState)
    requires EpochsOk(db.epochs) && OpenEpoch(db, t, provider, session, external, state).Some?
    ensures var after := OpenEpoch(db, t, provider, session, external, state).value.epochs;
      EpochsOk(after) && Grows(db.epochs, after)
  {
    var ordinal := NextOrdinal(db);
    var chosen := if session.Some? then session.value else Derived(provider, ordinal);
    var a := EnsureSession(db, chosen, provider, external);
    assert a.epochs == db.epochs;
    SaveNewKeeps(a, Epoch(t, chosen, provider, ordinal, state, false, None));
  }

  /** Closing every open epoch but the newest, in favour of the newest. */
  lemma QuarantineOrders(db: Db, active: Id)
    requires EpochsOk(db.epochs) && IsNewestOpen(db, active)
    ensures EpochsOk(QuarantineOthers(db.epochs, active)) && Grows(db.epochs, QuarantineOthers(db.epochs, active))
  {
    var after := QuarantineOthers(db.epochs, active);
    forall e | e in after ensures after[e].id == e && Sound(after, after[e]) {
      assert Sound(db.epochs, db.epochs[e]);
      if !db.epochs[e].closed && e != active { assert IsOpen(db, e); }
    }
  }

  /** With an open epoch, `recover` closes the others and at most changes the state of the newest. */
  lemma RecoverWrites(db: Db, t: Id, session: SessionId, r: Result, active: Id)
    requires EpochsOk(db.epochs) && RecoverSession(db, t, session, r).Some?
    requires active in db.epochs && IsNewestOpen(db, active)
    ensures !db.Blocked()
    ensures var after := RecoverSession(db, t, session, r).value.epochs;
      var tidy := QuarantineOthers(db.epochs, active);
      after == tidy || after == tidy[active := tidy[active].(state := ResumedState(r))]
  {
    assert forall x | x in db.epochs && IsNewestOpen(db, x) :: x == active;
    var tidy := db.(epochs := QuarantineOthers(db.epochs, active));
    var e := tidy.epochs[active];
    if !NeedsResume(e, session) || !ResumeBound(db, session, r) {
      assert RecoverSession(db, t, session, r) == Some(tidy);
    }
    else { assert RecoverSession(db, t, session, r)
             == SaveEpoch(tidy, e.(state := ResumedState(r))); }
  }

  lemma RecoverOrders(db: Db, t: Id, session: SessionId, r: Result)
    requires EpochsOk(db.epochs) && RecoverSession(db, t, session, r).Some?
    ensures var after := RecoverSession(db, t, session, r).value.epochs;
      EpochsOk(after) && Grows(db.epochs, after)
  {
    if active :| active in db.epochs && IsNewestOpen(db, active) {
      RecoverWrites(db, t, session, r, active);
      QuarantineOrders(db, active);
      ResumeOrders(QuarantineOthers(db.epochs, active), active, ResumedState(r));
    } else { OpenOrders(db, t, db.sessions[session].provider, Some(session), None, ResumedState(r)); }
  }

  lemma ResumeOrders(epochs: Epochs, active: Id, state: OperationState)
    requires EpochsOk(epochs) && active in epochs
    ensures var after := epochs[active := epochs[active].(state := state)]; EpochsOk(after) && Grows(epochs, after)
  {
    var after := epochs[active := epochs[active].(state := state)];
    forall e | e in after ensures after[e].id == e && Sound(after, after[e]) { assert Sound(epochs, epochs[e]); }
  }

  // ----- Every step keeps the order -----

  /** What a step of call `t` must show: good epochs, nothing lost, a sound continuation, and an ordered
      package if it made one. */
  ghost predicate Advances(w: World, v: World, t: Id) {
    && EpochsOk(v.db.epochs) && Grows(w.db.epochs, v.db.epochs)
    && (t in v.calls ==> CopiesOk(v.db.epochs, CopiesOf(v.calls[t])))
    && (t in v.db.packages && t !in w.db.packages ==>
          Ordered(v.db.epochs, v.db.packages[t].outgoing, v.db.packages[t].incomingEpoch))
  }

  /** Steps that leave the epochs alone and make no package. */
  predicate Quiet(w: World, v: World, t: Id) {
    && v.db.epochs == w.db.epochs && v.db.packages.Keys == w.db.packages.Keys
    && (t in v.calls ==> CopiesOk(w.db.epochs, CopiesOf(v.calls[t])))
  }

  lemma QuietAdvances(w: World, v: World, t: Id)
    requires OrderInv(w) && Quiet(w, v, t)
    ensures Advances(w, v, t)
  {
  }

  lemma FailoverQuiet(w: World, v: World, t: Id, s: FailoverStage, i: Input)
    requires v == StepFailover(w, t, s, i)
    ensures Quiet(w, v, t)
  {
    hide EvaluateFailover, ExecuteFailover;
    if s.ExecuteChecked? {
      if ExecuteFailover(w.db, t, s.decision, s.original, i.evidence, i.now, i.later).Some? {
        ExecuteFrame(w.db, t, s.decision, s.original, i);
      }
    }
  }

  lemma FailoverAdvances(w: World, v: World, t: Id, s: FailoverStage, i: Input)
    requires OrderInv(w) && v == StepFailover(w, t, s, i)
    ensures Advances(w, v, t)
  {
    hide StepFailover, OrderInv, Quiet, Advances;
    FailoverQuiet(w, v, t, s, i);
    QuietAdvances(w, v, t);
  }

  lemma ImportAdvances(w: World, v: World, t: Id, plan: Plan)
    requires EpochsOk(w.db.epochs) && Sound(w.db.epochs, plan.outgoing) && v == StepImport(w, t, plan)
    ensures Advances(w, v, t)
  {
    hide StartImport, FailHandoff, AcknowledgeImport, Promote;
    if plan.op.Fenced? && StartImport(w.db, t, plan.provider, plan.op, plan.outgoing).Some? {
      ImportOrders(w.db, t, plan);
      ImportEffect(w.db, t, plan);
    }
  }

  lemma MoveFrame(db: Db, e: Id, from: ExecutionState, to: ExecutionState, resume: Option<Id>)
    requires MoveExecution(db, e, from, to, resume).Some?
    ensures var after := MoveExecution(db, e, from, to, resume).value; after == db.(executions := after.executions)
  {
  }

  predicate MovesExecution(s: HandoffStage) { s.HandoffReserved? || s.HandoffUnusable? || s.HandoffCheckpointed? }

  lemma HandoffMoveQuiet(w: World, v: World, t: Id, s: HandoffStage, i: Input)
    requires CopiesOk(w.db.epochs, CopiesInHandoff(s)) && MovesExecution(s) && v == StepHandoff(w, t, s, i)
    ensures Quiet(w, v, t)
  {
    hide Sound, StepImport, MoveExecution, Authoritative;
    var from := if s.HandoffReserved? then ExReserved else Draining;
    var to := if s.HandoffReserved? then Draining else if s.HandoffUnusable? then BlockedPreimport
    else TransitionStarted;
    if MoveExecution(w.db, t, from, to, None).Some? { MoveFrame(w.db, t, from, to, None); }
  }

  lemma HandoffFromQuiet(w: World, v: World, t: Id, s: HandoffStage, i: Input)
    requires CopiesOk(w.db.epochs, CopiesInHandoff(s)) && s.HandoffFrom? && v == StepHandoff(w, t, s, i)
    ensures Quiet(w, v, t)
  {
    hide StepImport, MoveExecution, Authoritative, IsAcknowledged;
    assert t in v.calls ==> CopiesOf(v.calls[t]) == Copies(Some(s.outgoing), None, None);
  }

  lemma HandoffReadQuiet(w: World, v: World, t: Id, s: HandoffStage, i: Input)
    requires CopiesOk(w.db.epochs, CopiesInHandoff(s)) && v == StepHandoff(w, t, s, i)
    requires s.Handoff? || s.HandoffDraining? || s.HandoffDrained? || s.HandoffImported?
    ensures Quiet(w, v, t)
  {
    hide StepImport, MoveExecution, ReserveOperation, Authoritative, IsAcknowledged;
  }

  lemma HandoffQuiet(w: World, v: World, t: Id, s: HandoffStage, i: Input)
    requires CopiesOk(w.db.epochs, CopiesInHandoff(s)) && !MovesExecution(s) && !s.HandoffUnblocked?
    requires !s.HandoffImporting?
    requires v == StepHandoff(w, t, s, i)
    ensures Quiet(w, v, t)
  {
    hide StepHandoff, Quiet, CopiesOk;
    if s.HandoffFrom? { HandoffFromQuiet(w, v, t, s, i); } else { HandoffReadQuiet(w, v, t, s, i); }
  }

  lemma HandoffUnblockedQuiet(w: World, v: World, t: Id, s: HandoffStage, i: Input)
    requires EpochsOk(w.db.epochs) && s.HandoffUnblocked? && v == StepHandoff(w, t, s, i)
    ensures Quiet(w, v, t)
  {
    hide EvaluateFailover, ExecuteFailover;
  }

  lemma HandoffAdvances(w: World, v: World, t: Id, s: HandoffStage, i: Input)
    requires OrderInv(w) && CopiesOk(w.db.epochs, CopiesInHandoff(s)) && v == StepHandoff(w, t, s, i)
    ensures Advances(w, v, t)
  {
    hide Advances, Quiet, StepImport;
    if s.HandoffImporting? { ImportAdvances(w, v, t, s.plan); }
    else {
      if s.HandoffUnblocked? { HandoffUnblockedQuiet(w, v, t, s, i); }
      else if MovesExecution(s) { HandoffMoveQuiet(w, v, t, s, i); }
      else { HandoffQuiet(w, v, t, s, i); }
      QuietAdvances(w, v, t);
    }
  }

  lemma AcknowledgeEpochs(db: Db, p: Package, incoming: Epoch, r: Result)
    requires AcknowledgeImport(db, p, incoming, r).Some?
    ensures AcknowledgeImport(db, p, incoming, r).value.epochs == db.epochs
  {
  }

  lemma ImportAnswerAdvances(w: World, v: World, t: Id, p: Package, incoming: Epoch, r: Result, quarantine: bool)
    requires EpochsOk(w.db.epochs) && Sound(w.db.epochs, incoming) && p.id in w.db.packages
    requires v == StepImportAnswer(w, t, p, incoming, r, quarantine)
    ensures Advances(w, v, t)
  {
    hide AcknowledgeImport, FailHandoff, ImportAccepted, EpochsOk;
    if ImportAccepted(w.db, p, incoming, r) {
      if AcknowledgeImport(w.db, p, incoming, r).Some? {
        AcknowledgeEffect(w.db, p, incoming, r);
        AcknowledgeEpochs(w.db, p, incoming, r);
      }
    } else if FailHandoff(w.db, p, incoming, r, quarantine).Some? {
      FailEffect(w.db, p, incoming, r, quarantine);
      FailOrders(w.db, p, incoming, r, quarantine);
    }
  }

  lemma PromoteAdvances(w: World, v: World, t: Id, p: Package, tr: Transition, incoming: Epoch, outgoing: Epoch)
    requires OrderInv(w) && Sound(w.db.epochs, incoming) && Sound(w.db.epochs, outgoing) && p.id in w.db.packages
    requires Ordered(w.db.epochs, outgoing.id, incoming.id) && v == StepPromote(w, t, p, tr, incoming, outgoing)
    ensures Advances(w, v, t)
  {
    if Promote(w.db, p, tr, incoming, outgoing).Some? {
      PromoteEffect(w.db, p, tr, incoming, outgoing);
      PromoteOrders(w.db, p, tr, incoming, outgoing);
    }
  }

  /** The transition's epochs are ordered because its package's are. */
  lemma TransitionOrdered(w: World)
    requires OrderInv(w) && DbOk(w.db, w.next) && w.db.transition.Some?
    ensures Ordered(w.db.epochs, w.db.transition.value.outgoing, w.db.transition.value.incoming)
  {
    assert PackageOk(w.db, w.db.transition.value.handoff);
  }

  lemma CompleteQuiet(w: World, v: World, t: Id, s: CompletionStage, i: Input)
    requires EpochsOk(w.db.epochs) && CopiesOk(w.db.epochs, CopiesInCompletion(s))
    requires w.db.transition.Some? ==>
        Ordered(w.db.epochs, w.db.transition.value.outgoing, w.db.transition.value.incoming)
    requires !s.Complete? && !s.PromotionReady? && v == StepComplete(w, t, s, i)
    ensures Quiet(w, v, t)
  {
    hide EvaluateFailover, ExecuteFailover, StartImport, FailHandoff, AcknowledgeImport, Promote, SessionBound,
        ResultBound, StepImportAnswer, StepPromote;
  }

  lemma CompleteAdvances(w: World, v: World, t: Id, s: CompletionStage, i: Input)
    requires OrderInv(w) && DbOk(w.db, w.next) && (s.Promotion? || PackageCopy(w.db, s.package))
    requires CopiesOk(w.db.epochs, CopiesInCompletion(s)) && v == StepComplete(w, t, s, i)
    ensures Advances(w, v, t)
  {
    hide StepImportAnswer, StepPromote, Advances, Quiet, EpochsOk;
    match s
    case Complete(p, incoming, r, quarantine) => ImportAnswerAdvances(w, v, t, p, incoming, r, quarantine);
    case PromotionReady(p, tr, incoming, outgoing) => PromoteAdvances(w, v, t, p, tr, incoming, outgoing);
    case _ =>
      if w.db.transition.Some? { TransitionOrdered(w); }
      CompleteQuiet(w, v, t, s, i);
      QuietAdvances(w, v, t);
  }

  lemma ReopenQuiet(w: World, v: World, t: Id, p: Package, tr: Transition, incoming: Epoch, r: Result)
    requires p.id in w.db.packages && Sound(w.db.epochs, incoming) && v == StepReopen(w, t, p, tr, incoming, r)
    ensures Quiet(w, v, t)
  {
  }

  lemma ReconcileQuiet(w: World, v: World, t: Id, s: ReconcileStage, i: Input)
    requires EpochsOk(w.db.epochs) && !s.ReconcileOpen? && v == StepReconcile(w, t, s, i)
    ensures Quiet(w, v, t)
  {
    hide EvaluateFailover, ExecuteFailover, StartReconcile, BlockRollback, RollBack, StepReopen, SameBindings;
  }

  lemma ReconcileAdvances(w: World, v: World, t: Id, s: ReconcileStage, i: Input)
    requires OrderInv(w) && (s.Reconcile? || PackageCopy(w.db, s.package))
    requires CopiesOk(w.db.epochs, CopiesInReconcile(s)) && v == StepReconcile(w, t, s, i)
    ensures Advances(w, v, t)
  {
    hide Advances, Quiet;
    if s.ReconcileOpen? { ReopenQuiet(w, v, t, s.package, s.transition, s.incoming, s.result); }
    else { ReconcileQuiet(w, v, t, s, i); }
    QuietAdvances(w, v, t);
  }

  lemma RollBackAdvances(w: World, v: World, t: Id, p: Package, tr: Transition, outgoing: Epoch, incoming: Epoch,
      op: Fence)
    requires OrderInv(w) && Sound(w.db.epochs, incoming) && Sound(w.db.epochs, outgoing) && p.id in w.db.packages
    requires v == StepRollBack(w, t, p, tr, outgoing, incoming, op)
    ensures Advances(w, v, t)
  {
    if RollBack(w.db, p, tr, incoming, outgoing, op).Some? {
      RollBackEffect(w.db, p, tr, incoming, outgoing, op);
      RollBackOrders(w.db, p, tr, incoming, outgoing, op);
    }
  }

  lemma BlockAdvances(w: World, v: World, t: Id, p: Package, tr: Transition, incoming: Epoch)
    requires OrderInv(w) && Sound(w.db.epochs, incoming) && p.id in w.db.packages
    requires v == StepBlock(w, t, p, tr, incoming)
    ensures Advances(w, v, t)
  {
    if BlockRollback(w.db, p, tr, incoming).Some? {
      BlockEffect(w.db, p, tr, incoming);
      BlockOrders(w.db, p, tr, incoming);
    }
  }

  lemma RollbackQuiet(w: World, v: World, t: Id, s: RollbackStage, i: Input)
    requires EpochsOk(w.db.epochs) && CopiesOk(w.db.epochs, CopiesInRollback(s))
    requires !s.RollbackReady? && !s.RollbackBlocked? && v == StepRollback(w, t, s, i)
    ensures Quiet(w, v, t)
  {
    hide EvaluateFailover, ExecuteFailover, StepRollBack, StepBlock, SessionBound, DurablyAcknowledged, OperationFor;
  }

  lemma RollbackAdvances(w: World, v: World, t: Id, s: RollbackStage, i: Input)
    requires OrderInv(w) && (s.Rollback? || PackageCopy(w.db, s.package))
    requires CopiesOk(w.db.epochs, CopiesInRollback(s)) && v == StepRollback(w, t, s, i)
    ensures Advances(w, v, t)
  {
    hide StepRollBack, StepBlock, Advances, Quiet, EpochsOk;
    match s
    case RollbackReady(p, tr, outgoing, incoming, op) => RollBackAdvances(w, v, t, p, tr, outgoing, incoming, op);
    case RollbackBlocked(p, tr, incoming) => BlockAdvances(w, v, t, p, tr, incoming);
    case _ =>
      RollbackQuiet(w, v, t, s, i);
      QuietAdvances(w, v, t);
  }

  lemma ClaimQuiet(w: World, v: World, t: Id, x: Execution, op: Fence, i: Input)
    requires v == StepClaim(w, t, x, op, i)
    ensures Quiet(w, v, t)
  {
    hide EvaluateFailover, ExecuteFailover, RecoveryValid;
  }

  lemma RecordQuiet(w: World, v: World, t: Id, x: Execution, op: Fence, a: Attempt, r: Result, called: bool)
    requires v == StepRecord(w, t, x, op, a, r, called)
    ensures Quiet(w, v, t)
  {
  }

  lemma FinalQuiet(w: World, v: World, t: Id, x: Execution, op: Fence, resume: Option<Id>)
    requires v == StepFinal(w, t, x, op, resume)
    ensures Quiet(w, v, t)
  {
    if FinalizeRecovery(w.db, x, op, resume).Some? { FinalizeFrame(w.db, x, op, resume); }
  }

  lemma RecoveryQuiet(w: World, v: World, t: Id, s: RecoveryStage, i: Input)
    requires v == StepRecovery(w, t, s, i)
    ensures Quiet(w, v, t)
  {
    hide EvaluateFailover, ExecuteFailover, RecoveryValid;
    match s
    case RecoveryBound(x, op) => ClaimQuiet(w, v, t, x, op, i);
    case RecoveryAnswered(x, op, a, r, called) => RecordQuiet(w, v, t, x, op, a, r, called);
    case RecoveryFinal(x, op, resume) => FinalQuiet(w, v, t, x, op, resume);
    case _ =>
  }

  lemma RecoveryAdvances(w: World, v: World, t: Id, s: RecoveryStage, i: Input)
    requires OrderInv(w) && v == StepRecovery(w, t, s, i)
    ensures Advances(w, v, t)
  {
    RecoveryQuiet(w, v, t, s, i);
    QuietAdvances(w, v, t);
  }

  lemma SessionAdvances(w: World, v: World, t: Id, s: SessionStage, i: Input)
    requires OrderInv(w) && v == StepSession(w, t, s, i)
    ensures Advances(w, v, t)
  {
    hide EvaluateFailover;
    match s
    case DiscoverHeld(op) =>
      if i.flag && CommitDiscovery(w.db, op, i.sessions).Some? { SaveSessionsView(w.db, i.sessions); }
    case ActivateStarted(provider, external) =>
      if OpenEpoch(w.db, t, provider, None, external, Running).Some? {
        OpenEpochView(w.db, t, provider, None, external, Running);
        OpenOrders(w.db, t, provider, None, external, Running);
      }
    case Recover(session) =>
      if RecoverSession(w.db, t, session, i.result).Some? {
        RecoverSessionView(w.db, t, session, i.result);
        RecoverOrders(w.db, t, session, i.result);
      }
    case _ =>
  }

  lemma AdvanceOrders(w: World, v: World, t: Id, i: Input)
    requires Invariant(w) && OrderInv(w) && Moves(w, v, t, i)
    ensures Advances(w, v, t)
  {
    hide StepFailover, StepHandoff, StepComplete, StepReconcile, StepRollback, StepRecovery, StepSession;
    assert CallOk(w.db, t, w.calls[t]);
    match w.calls[t]
    case FailoverCall(s) => FailoverAdvances(w, v, t, s, i);
    case HandoffCall(s) => HandoffAdvances(w, v, t, s, i);
    case CompletionCall(s) => CompleteAdvances(w, v, t, s, i);
    case ReconcileCall(s) => ReconcileAdvances(w, v, t, s, i);
    case RollbackCall(s) => RollbackAdvances(w, v, t, s, i);
    case RecoveryCall(s) => RecoveryAdvances(w, v, t, s, i);
    case SessionCall(s) => SessionAdvances(w, v, t, s, i);
  }

  lemma OrdersAssemble(w: World, v: World, t: Id)
    requires OrderInv(w) && Advances(w, v, t) && Evolves(w.db, v.db, t)
    requires forall u | u in v.calls && u != t :: u in w.calls && v.calls[u] == w.calls[u]
    ensures OrderInv(v)
  {
    hide Sound;
    forall u | u in v.calls ensures CopiesOk(v.db.epochs, CopiesOf(v.calls[u])) {
      if u != t { CopiesStay(w.db.epochs, v.db.epochs, CopiesOf(w.calls[u])); }
    }
  }

  lemma AdvanceKeepsOrder(w: World, v: World, t: Id, i: Input)
    requires Invariant(w) && OrderInv(w) && Moves(w, v, t, i)
    ensures OrderInv(v)
  {
    hide Step, StepCall;
    AdvanceProgress(w, v, t, i);
    AdvanceOrders(w, v, t, i);
    OrdersAssemble(w, v, t);
  }

  lemma EntryCarriesNothing(c: Call)
    requires IsEntry(c)
    ensures CopiesOf(c) == NO_COPIES
  {
  }

  lemma StepKeepsOrder(w: World, a: Action)
    requires Invariant(w) && OrderInv(w)
    ensures OrderInv(Step(w, a))
  {
    hide StepCall, FenceInv, Invariant;
    match a
    case Begin(c) => if IsEntry(c) { EntryCarriesNothing(c); }
    case Crash(t) =>
    case Advance(t, i) => if t in w.calls { AdvanceKeepsOrder(w, Step(w, a), t, i); }
  }

  lemma {:induction false} RunKeepsOrder(instance: Id, actions: seq<Action>)
    ensures OrderInv(Run(Start(instance), actions))
  {
    hide Step, StepCall;
    if actions != [] {
      RunKeepsOrder(instance, actions[..|actions| - 1]);
      ReachableOk(instance, actions[..|actions| - 1]);
      StepKeepsOrder(Run(Start(instance), actions[..|actions| - 1]), actions[|actions| - 1]);
    }
  }

  // ----- The theorems -----

  lemma ReachableEpochs(instance: Id, actions: seq<Action>)
    ensures EpochsOk(Run(Start(instance), actions).db.epochs)
  {
    hide Step, StepCall;
    RunKeepsOrder(instance, actions);
  }

  lemma OrdinalsDistinct(instance: Id, actions: seq<Action>, a: Id, b: Id)
    ensures var epochs := Run(Start(instance), actions).db.epochs;
      a in epochs && b in epochs && epochs[a].ordinal == epochs[b].ordinal ==> a == b
  {
    hide Step, StepCall;
    RunKeepsOrder(instance, actions);
  }

  lemma ReplacementsLeadForward(instance: Id, actions: seq<Action>, e: Id)
    ensures var epochs := Run(Start(instance), actions).db.epochs;
      e in epochs && epochs[e].replacement.Some? ==> Ordered(epochs, e, epochs[e].replacement.value)
  {
    hide Step, StepCall;
    RunKeepsOrder(instance, actions);
  }

  /** Each epoch of the path is replaced by the next. */
  predicate ReplacementPath(epochs: Epochs, path: seq<Id>) {
    && (forall k | 0 <= k < |path| :: path[k] in epochs)
    && (forall k | 0 <= k < |path| - 1 :: epochs[path[k]].replacement == Some(path[k + 1]))
  }

  lemma {:induction false} PathClimbs(epochs: Epochs, path: seq<Id>, i: nat, j: nat)
    requires EpochsOk(epochs) && ReplacementPath(epochs, path) && i < j < |path|
    ensures epochs[path[i]].ordinal < epochs[path[j]].ordinal
    decreases j
  {
    assert Sound(epochs, epochs[path[j - 1]]) && epochs[path[j - 1]].replacement == Some(path[j - 1 + 1]);
    if i < j - 1 { PathClimbs(epochs, path, i, j - 1); }
  }

  /** Following replacements never comes back. */
  lemma ReplacementsAcyclic(instance: Id, actions: seq<Action>, path: seq<Id>)
    requires ReplacementPath(Run(Start(instance), actions).db.epochs, path)
    ensures Distinct(path)
  {
    hide Step, StepCall;
    RunKeepsOrder(instance, actions);
    var epochs := Run(Start(instance), actions).db.epochs;
    forall i, j | 0 <= i < j < |path| ensures path[i] != path[j] { PathClimbs(epochs, path, i, j); }
  }

  /** Following replacements to the end; the ordinals bound the walk. */
  ghost function Latest(epochs: Epochs, e: Id): (last: Id)
    requires EpochsOk(epochs) && e in epochs
    ensures last in epochs && epochs[last].replacement.None? && epochs[e].ordinal <= epochs[last].ordinal
    decreases MaxOf(Ordinals(epochs)) - epochs[e].ordinal
  {
    if epochs[e].replacement.None? then e
    else
      var next := epochs[e].replacement.value;
      assert Sound(epochs, epochs[e]);
      assert epochs[next].ordinal in Ordinals(epochs);
      Latest(epochs, next)
  }
}
