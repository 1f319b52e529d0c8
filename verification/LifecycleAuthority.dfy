/** Who is in charge, under every interleaving: exactly which steps take an instance with at most one
    authoritative epoch to one with several. */
module LifecycleAuthority {
  import opened Contracts
  import opened Fences
  import opened LifecycleStore
  import opened LifecycleRuns
  import opened LifecycleFence
  import opened LifecycleHistory
  import opened LifecycleSafety
  import opened LifecycleOrdinals
  import opened LifecycleSerial
  import opened LifecycleRaces
  import opened LifecycleEvidence
  import opened LifecycleGivingUp

  // ----- Writing one epoch -----

  /** The authoritative epochs, given which ids some handoff opened. */
  function InChargeOf(epochs: Epochs, ids: set<Id>): set<Id> {
    set e | e in epochs && !epochs[e].closed && !(e in ids && IsAwaiting(epochs[e].state))
  }

  predicate Rules(e: Epoch, ids: set<Id>) { !e.closed && !(e.id in ids && IsAwaiting(e.state)) }

  lemma IsInCharge(db: Db)
    ensures Authoritative(db) == InChargeOf(db.epochs, IncomingIds(db))
  {
  }

  lemma WriteOne(epochs: Epochs, ids: set<Id>, e: Epoch)
    ensures InChargeOf(epochs[e.id := e], ids)
        == InChargeOf(epochs, ids) - {e.id} + (if Rules(e, ids) then {e.id} else {})
  {
  }

  /** Apart from an import, no step changes which epochs were opened by a handoff. */
  lemma IncomingStays(db: Db, after: Db, t: Id)
    requires Evolves(db, after, t) && (t in after.packages ==> t in db.packages)
    ensures IncomingIds(after) == IncomingIds(db)
  {
    forall p | p in db.packages ensures p in after.packages
        && after.packages[p].incomingEpoch == db.packages[p].incomingEpoch {}
  }

  // ----- The steps -----

  /** The step puts nobody new in charge. */
  ghost predicate Shrinks(w: World, v: World) { Authoritative(v.db) <= Authoritative(w.db) }

  lemma CalmSame(db: Db, after: Db)
    requires after.epochs == db.epochs && after.packages == db.packages
    ensures Authoritative(after) == Authoritative(db)
  {
    assert IncomingIds(after) == IncomingIds(db);
  }

  lemma SameShrinks(w: World, v: World, t: Id)
    requires Evolves(w.db, v.db, t) && (t in v.db.packages ==> t in w.db.packages) && v.db.epochs == w.db.epochs
    ensures Shrinks(w, v)
  {
    IncomingStays(w.db, v.db, t);
    IsInCharge(w.db);
    IsInCharge(v.db);
  }

  lemma ImportShrinks(w: World, v: World, t: Id, plan: Plan)
    requires v == StepImport(w, t, plan) && plan.op.Fenced?
    requires StartImport(w.db, t, plan.provider, plan.op, plan.outgoing).Some?
    requires t !in w.db.packages
    ensures Shrinks(w, v)
  {
    ImportEffect(w.db, t, plan);
    ImportWrites(w.db, t, plan);
    assert t in IncomingIds(v.db) by { assert v.db.packages[t].incomingEpoch == t; }
    forall e | e in Authoritative(v.db) ensures e in Authoritative(w.db) {
      assert e != t;
      if e in IncomingIds(w.db) {
        var p :| p in w.db.packages && w.db.packages[p].incomingEpoch == e;
        assert v.db.packages[p].incomingEpoch == e;
      }
    }
  }

  /** Writing an incoming epoch that waits or is closed. */
  lemma WaitingShrinks(w: World, v: World, t: Id, e: Epoch)
    requires Evolves(w.db, v.db, t) && (t in v.db.packages ==> t in w.db.packages)
    requires v.db.epochs == w.db.epochs[e.id := e] && e.id in IncomingIds(w.db) && IsAwaiting(e.state)
    ensures Shrinks(w, v)
  {
    IncomingStays(w.db, v.db, t);
    IsInCharge(w.db);
    IsInCharge(v.db);
    WriteOne(w.db.epochs, IncomingIds(w.db), e);
  }

  lemma AnswerShrinks(w: World, v: World, t: Id, p: Package, incoming: Epoch, r: Result, quarantine: bool)
    requires Evolves(w.db, v.db, t) && PackageCopy(w.db, p) && incoming.id == p.incomingEpoch
    requires v == StepImportAnswer(w, t, p, incoming, r, quarantine)
    ensures Shrinks(w, v)
  {
    assert p.incomingEpoch in IncomingIds(w.db) by { assert w.db.packages[p.id].incomingEpoch == p.incomingEpoch; }
    if ImportAccepted(w.db, p, incoming, r) {
      if AcknowledgeImport(w.db, p, incoming, r).Some? {
        AcknowledgeEffect(w.db, p, incoming, r);
        AcknowledgeWrites(w.db, p, incoming, r);
      }
      SameShrinks(w, v, t);
    } else if FailHandoff(w.db, p, incoming, r, quarantine).Some? {
      FailEffect(w.db, p, incoming, r, quarantine);
      FailWrites(w.db, p, incoming, r, quarantine);
      WaitingShrinks(w, v, t, incoming.(state := if quarantine then Quarantined else OpBlocked, closed := quarantine));
    } else { SameShrinks(w, v, t); }
  }

  lemma BlockShrinks(w: World, v: World, t: Id, p: Package, tr: Transition, incoming: Epoch)
    requires Evolves(w.db, v.db, t) && PackageCopy(w.db, p) && incoming.id == p.incomingEpoch
    requires v == StepBlock(w, t, p, tr, incoming)
    ensures Shrinks(w, v)
  {
    if BlockRollback(w.db, p, tr, incoming).Some? { BlockAuthority(w.db, p, tr, incoming); }
    else { SameShrinks(w, v, t); }
  }

  /** A promotion puts its incoming epoch in charge, if it is open, in place of its outgoing one. */
  lemma PromoteChanges(w: World, v: World, t: Id, p: Package, tr: Transition, incoming: Epoch, outgoing: Epoch)
    requires Evolves(w.db, v.db, t) && PackageCopy(w.db, p) && v == StepPromote(w, t, p, tr, incoming, outgoing)
    requires Promote(w.db, p, tr, incoming, outgoing).Some? && outgoing.id != incoming.id
    requires incoming.id !in Authoritative(w.db)
    ensures Authoritative(v.db) == Authoritative(w.db) - {outgoing.id} + (if incoming.closed then {} else {incoming.id})
  {
    PromoteEffect(w.db, p, tr, incoming, outgoing);
    PromoteWrites(w.db, p, tr, incoming, outgoing);
    IncomingStays(w.db, v.db, t);
    IsInCharge(w.db);
    IsInCharge(v.db);
    var closed := outgoing.(state := Succeeded, closed := true, replacement := Some(incoming.id));
    WriteOne(w.db.epochs, IncomingIds(w.db), closed);
    WriteOne(w.db.epochs[outgoing.id := closed], IncomingIds(w.db), incoming.(state := Running));
  }

  /** A rollback puts its outgoing epoch in charge. */
  lemma RollBackChanges(w: World, v: World, t: Id, p: Package, tr: Transition, incoming: Epoch, outgoing: Epoch,
      op: Fence)
    requires Evolves(w.db, v.db, t) && PackageCopy(w.db, p) && v == StepRollBack(w, t, p, tr, outgoing, incoming, op)
    requires RollBack(w.db, p, tr, incoming, outgoing, op).Some? && outgoing.id != incoming.id
    requires incoming.id !in Authoritative(w.db) && !outgoing.closed
    ensures Authoritative(v.db) == Authoritative(w.db) + {outgoing.id}
  {
    RollBackEffect(w.db, p, tr, incoming, outgoing, op);
    RollBackWrites(w.db, p, tr, incoming, outgoing, op);
    IncomingStays(w.db, v.db, t);
    IsInCharge(w.db);
    IsInCharge(v.db);
    var gone := incoming.(state := Cancelled, closed := true);
    var epochs := if incoming.closed then w.db.epochs else w.db.epochs[incoming.id := gone];
    WriteOne(w.db.epochs, IncomingIds(w.db), gone);
    WriteOne(epochs, IncomingIds(w.db), outgoing.(state := Running));
  }

  // ----- Opening and recovering -----

  predicate AtMost(s: set<Id>, x: Id) { forall e | e in s :: e == x }

  lemma OpenLeavesOne(db: Db, t: Id, provider: Id, session: Option<SessionId>, external: Option<Id>,
      state: OperationState)
    requires EpochsOk(db.epochs) && OpenEpoch(db, t, provider, session, external, state).Some?
    ensures AtMost(Authoritative(OpenEpoch(db, t, provider, session, external, state).value), t)
  {
    OpenAdds(db, t, provider, session, external, state);
  }

  lemma RecoverLeavesOne(db: Db, t: Id, session: SessionId, r: Result)
    requires EpochsOk(db.epochs) && RecoverSession(db, t, session, r).Some?
    ensures OneAuthoritative(RecoverSession(db, t, session, r).value)
  {
    hide Progress;
    var after := RecoverSession(db, t, session, r).value;
    if active :| active in db.epochs && IsNewestOpen(db, active) {
      RecoverWrites(db, t, session, r, active);
      assert forall e | e in Authoritative(after) :: e == active;
    } else {
      OpenLeavesOne(db, t, db.sessions[session].provider, Some(session), None, ResumedState(r));
    }
  }

  lemma SessionReading(w: World, v: World, t: Id, s: SessionStage, i: Input)
    requires !s.ActivateStarted? && !s.Recover? && v == StepSession(w, t, s, i)
    ensures v.db.epochs == w.db.epochs && v.db.packages == w.db.packages
  {
    if s.DiscoverHeld? { DiscoveryPasses(w, v, t, s.op, i); }
  }

  lemma SessionLeavesOne(w: World, v: World, t: Id, s: SessionStage, i: Input)
    requires OneAuthoritative(w.db) && EpochsOk(w.db.epochs) && v == StepSession(w, t, s, i)
    ensures OneAuthoritative(v.db)
  {
    if s.ActivateStarted? {
      if OpenEpoch(w.db, t, s.provider, None, s.external, Running).Some? {
        OpenLeavesOne(w.db, t, s.provider, None, s.external, Running);
      }
    } else if s.Recover? {
      if RecoverSession(w.db, t, s.session, i.result).Some? { RecoverLeavesOne(w.db, t, s.session, i.result); }
    } else {
      SessionReading(w, v, t, s, i);
      CalmSame(w.db, v.db);
    }
  }

  // ----- Exactly when a step splits the authority -----

  /** Somebody other than this epoch is in charge. */
  predicate AnotherRules(db: Db, e: Id) { exists x | x in Authoritative(db) :: x != e }

  /** The call is about to commit a promotion to an open epoch, or a rollback, while somebody other than its
      outgoing epoch is in charge. */
  predicate SplitsCall(db: Db, c: Call) {
    || (c.CompletionCall? && c.completion.PromotionReady? && !c.completion.incoming.closed
        && Promote(db, c.completion.package, c.completion.transition, c.completion.incoming,
          c.completion.outgoing).Some?
        && AnotherRules(db, c.completion.outgoing.id))
    || (c.RollbackCall? && c.rollback.RollbackReady?
        && RollBack(db, c.rollback.package, c.rollback.transition, c.rollback.incoming, c.rollback.outgoing,
          c.rollback.op).Some?
        && AnotherRules(db, c.rollback.outgoing.id))
  }

  predicate Splits(w: World, a: Action) { a.Advance? && a.id in w.calls && SplitsCall(w.db, w.calls[a.id]) }

  lemma Shrunk(w: World, v: World)
    requires OneAuthoritative(w.db) && Shrinks(w, v)
    ensures OneAuthoritative(v.db)
  {
  }

  lemma HandoffShrinks(w: World, v: World, t: Id, s: HandoffStage, i: Input)
    requires Justified(w.db, t, KnowsInHandoff(s)) && v == StepHandoff(w, t, s, i)
    ensures Shrinks(w, v)
  {
    hide StartImport, FailHandoff, AcknowledgeImport, Promote;
    if s.HandoffImporting? && s.plan.op.Fenced?
        && StartImport(w.db, t, s.plan.provider, s.plan.op, s.plan.outgoing).Some? {
      ImportShrinks(w, v, t, s.plan);
    } else { CalmSame(w.db, v.db); }
  }

  lemma ReconcileShrinks(w: World, v: World, t: Id, s: ReconcileStage, i: Input)
    requires Evolves(w.db, v.db, t) && (s.Reconcile? || PackageCopy(w.db, s.package)) && v == StepReconcile(w, t, s, i)
    ensures Shrinks(w, v)
  {
    if s.ReconcileOpen? && StartReconcile(w.db, s.package, s.transition).Some? {
      ReconcileEffect(w.db, s.package, s.transition);
    }
    SameShrinks(w, v, t);
  }

  /** The incoming epoch of a handoff under way is not in charge. */
  lemma WaitingIsNot(db: Db, next: Id)
    requires Waits(db) && DbOk(db, next) && db.Blocked()
    ensures db.transition.value.incoming !in Authoritative(db)
  {
    var h := db.transition.value.handoff;
    assert PackageOk(db, h);
    assert h in IncomingIds(db);
  }

  /** What is known of a promotion that commits. */
  lemma PromotionFacts(w: World, t: Id, s: CompletionStage)
    requires FenceInv(w) && OrderInv(w) && WaitInv(w) && Stands(w, t, CompletionCall(s)) && s.PromotionReady?
    requires Promote(w.db, s.package, s.transition, s.incoming, s.outgoing).Some?
    ensures PackageCopy(w.db, s.package) && s.outgoing.id != s.incoming.id && s.incoming.id !in Authoritative(w.db)
  {
    hide Promote, Authoritative, EpochsOk;
    assert CallOk(w.db, t, w.calls[t]) && CallLinked(w.calls[t]) && CopiesOk(w.db.epochs, CopiesOf(w.calls[t]));
    PromoteEffect(w.db, s.package, s.transition, s.incoming, s.outgoing);
    WaitingIsNot(w.db, w.next);
  }

  lemma PromotionChanges(w: World, v: World, t: Id, p: Package, tr: Transition, incoming: Epoch, outgoing: Epoch)
    requires OneAuthoritative(w.db) && Evolves(w.db, v.db, t) && PackageCopy(w.db, p)
    requires outgoing.id != incoming.id && incoming.id !in Authoritative(w.db)
    requires Promote(w.db, p, tr, incoming, outgoing).Some? && v == StepPromote(w, t, p, tr, incoming, outgoing)
    ensures OneAuthoritative(v.db) <==> incoming.closed || !AnotherRules(w.db, outgoing.id)
  {
    hide Promote, Evolves, Authoritative;
    PromoteChanges(w, v, t, p, tr, incoming, outgoing);
    SplitsByAdding(Authoritative(w.db), Authoritative(v.db), outgoing.id, incoming.id, incoming.closed);
  }

  lemma PromotionSplits(w: World, v: World, t: Id, s: CompletionStage)
    requires Reachable(w) && WaitInv(w) && OneAuthoritative(w.db) && Evolves(w.db, v.db, t)
    requires Stands(w, t, CompletionCall(s)) && s.PromotionReady?
    requires v == StepPromote(w, t, s.package, s.transition, s.incoming, s.outgoing)
    ensures OneAuthoritative(v.db) <==> !SplitsCall(w.db, w.calls[t])
  {
    hide Promote, Evolves, Authoritative, OneAuthoritative, OrderInv, EvidenceInv, WaitInv, FenceInv, PackageCopy,
        AnotherRules;
    if Promote(w.db, s.package, s.transition, s.incoming, s.outgoing).Some? {
      PromotionFacts(w, t, s);
      PromotionChanges(w, v, t, s.package, s.transition, s.incoming, s.outgoing);
    } else { OneStays(w.db, v.db); }
  }

  lemma OneStays(db: Db, after: Db)
    requires OneAuthoritative(db) && after == db
    ensures OneAuthoritative(after)
  {
  }

  lemma SplitsByAdding(before: set<Id>, after: set<Id>, outgoing: Id, incoming: Id, closed: bool)
    requires incoming !in before && incoming != outgoing && forall a, b | a in before && b in before :: a == b
    requires after == before - {outgoing} + (if closed then {} else {incoming})
    ensures (forall a, b | a in after && b in after :: a == b) <==> closed || forall x | x in before :: x == outgoing
  {
    if !closed && exists x | x in before :: x != outgoing {
      var x :| x in before && x != outgoing;
      assert x in after && incoming in after;
    }
  }

  lemma SplitsByReturning(before: set<Id>, after: set<Id>, outgoing: Id)
    requires forall a, b | a in before && b in before :: a == b
    requires after == before + {outgoing}
    ensures (forall a, b | a in after && b in after :: a == b) <==> forall x | x in before :: x == outgoing
  {
    if exists x | x in before :: x != outgoing {
      var x :| x in before && x != outgoing;
      assert x in after && outgoing in after;
    }
  }

  lemma RollbackSplits(w: World, v: World, t: Id, s: RollbackStage)
    requires Reachable(w) && WaitInv(w) && OneAuthoritative(w.db) && Evolves(w.db, v.db, t)
    requires Stands(w, t, RollbackCall(s)) && s.RollbackReady?
    requires v == StepRollBack(w, t, s.package, s.transition, s.outgoing, s.incoming, s.op)
    ensures OneAuthoritative(v.db) <==> !SplitsCall(w.db, w.calls[t])
  {
    hide StartReconcile, BlockRollback, RollBack, OrderInv, EvidenceInv;
    assert CallOk(w.db, t, w.calls[t]) && CallLinked(w.calls[t]);
    if RollBack(w.db, s.package, s.transition, s.incoming, s.outgoing, s.op).Some? {
      RollBackEffect(w.db, s.package, s.transition, s.incoming, s.outgoing, s.op);
      WaitingIsNot(w.db, w.next);
      TransitionOrdered(w);
      RollBackChanges(w, v, t, s.package, s.transition, s.incoming, s.outgoing, s.op);
      SplitsByReturning(Authoritative(w.db), Authoritative(v.db), s.outgoing.id);
    } else { CalmSame(w.db, v.db); }
  }

  lemma CompletionReading(w: World, v: World, t: Id, s: CompletionStage, i: Input)
    requires !s.Complete? && !s.PromotionReady? && v == StepComplete(w, t, s, i)
    ensures v.db == w.db
  {
  }

  lemma AnsweringShrinks(w: World, v: World, t: Id, s: CompletionStage, i: Input)
    requires FenceInv(w) && EvidenceInv(w) && Evolves(w.db, v.db, t)
    requires Stands(w, t, CompletionCall(s)) && s.Complete? && v == StepComplete(w, t, s, i)
    ensures Shrinks(w, v)
  {
    assert CallOk(w.db, t, w.calls[t]) && CallEvident(w.db, w.calls[t]);
    AnswerShrinks(w, v, t, s.package, s.incoming, s.result, s.quarantine);
  }

  lemma CompletionSplits(w: World, v: World, t: Id, s: CompletionStage, i: Input)
    requires Reachable(w) && WaitInv(w) && OneAuthoritative(w.db) && Evolves(w.db, v.db, t)
    requires Stands(w, t, CompletionCall(s)) && v == StepComplete(w, t, s, i)
    ensures OneAuthoritative(v.db) <==> !SplitsCall(w.db, w.calls[t])
  {
    hide EvaluateFailover, ExecuteFailover, StartImport, FailHandoff, AcknowledgeImport, Promote, StartReconcile,
        BlockRollback, RollBack, StepImport, StepImportAnswer, StepPromote, OrderInv, EvidenceInv;
    if s.PromotionReady? { PromotionSplits(w, v, t, s); }
    else if s.Complete? {
      AnsweringShrinks(w, v, t, s, i);
      Shrunk(w, v);
    } else { CompletionReading(w, v, t, s, i); }
  }

  lemma RollbackReading(w: World, v: World, t: Id, s: RollbackStage, i: Input)
    requires !s.RollbackReady? && !s.RollbackBlocked? && v == StepRollback(w, t, s, i)
    ensures v.db == w.db
  {
  }

  lemma GivingUpShrinks(w: World, v: World, t: Id, s: RollbackStage, i: Input)
    requires FenceInv(w) && WaitInv(w) && Evolves(w.db, v.db, t)
    requires Stands(w, t, RollbackCall(s)) && s.RollbackBlocked? && v == StepRollback(w, t, s, i)
    ensures Shrinks(w, v)
  {
    hide StartReconcile, BlockRollback, RollBack;
    assert CallOk(w.db, t, w.calls[t]) && CallLinked(w.calls[t]) && PackageOk(w.db, s.package.id);
    BlockShrinks(w, v, t, s.package, s.transition, s.incoming);
  }

  lemma RollbackCallSplits(w: World, v: World, t: Id, s: RollbackStage, i: Input)
    requires Reachable(w) && WaitInv(w) && OneAuthoritative(w.db) && Evolves(w.db, v.db, t)
    requires Stands(w, t, RollbackCall(s)) && v == StepRollback(w, t, s, i)
    ensures OneAuthoritative(v.db) <==> !SplitsCall(w.db, w.calls[t])
  {
    hide EvaluateFailover, ExecuteFailover, StartReconcile, BlockRollback, RollBack, FenceInv;
    if s.RollbackReady? { RollbackSplits(w, v, t, s); }
    else if s.RollbackBlocked? {
      GivingUpShrinks(w, v, t, s, i);
      Shrunk(w, v);
    } else { RollbackReading(w, v, t, s, i); }
  }

  lemma AdvanceSplits(w: World, v: World, t: Id, i: Input)
    requires Reachable(w) && WaitInv(w) && OneAuthoritative(w.db) && Moves(w, v, t, i)
    ensures OneAuthoritative(v.db) <==> !SplitsCall(w.db, w.calls[t])
  {
    hide StepFailover, StepHandoff, StepComplete, StepReconcile, StepRollback, StepRecovery, StepSession;
    AdvanceProgress(w, v, t, i);
    assert CallOk(w.db, t, w.calls[t]);
    match w.calls[t]
    case FailoverCall(s) =>
      FailoverPasses(w, v, t, s, i);
      CalmSame(w.db, v.db);
    case HandoffCall(s) =>
      HandoffShrinks(w, v, t, s, i);
      Shrunk(w, v);
    case CompletionCall(s) => CompletionSplits(w, v, t, s, i);
    case ReconcileCall(s) =>
      ReconcileShrinks(w, v, t, s, i);
      Shrunk(w, v);
    case RollbackCall(s) => RollbackCallSplits(w, v, t, s, i);
    case RecoveryCall(s) =>
      RecoveryPasses(w, v, t, s, i);
      CalmSame(w.db, v.db);
    case SessionCall(s) => SessionLeavesOne(w, v, t, s, i);
  }

  /** In every run, a step leads from at most one authoritative epoch to several if and only if it commits
      the promotion of an open incoming epoch, or a rollback, at a moment when an epoch other than the
      outgoing one of that handoff is in charge. */
  lemma AuthoritySplitsExactly(instance: Id, actions: seq<Action>, a: Action)
    requires OneAuthoritative(Run(Start(instance), actions).db)
    ensures var w := Run(Start(instance), actions); OneAuthoritative(Step(w, a).db) <==> !Splits(w, a)
  {
    hide StepCall, FenceInv, Invariant, OrderInv;
    RunsKeepEvidence(instance, actions);
    RunsWait(instance, actions);
    var w := Run(Start(instance), actions);
    if a.Advance? && a.id in w.calls { AdvanceSplits(w, Step(w, a), a.id, a.input); }
  }

  /** Every promotion and rollback of the run finds nobody but its outgoing epoch in charge. */
  ghost predicate Orderly(instance: Id, actions: seq<Action>) {
    forall k | 0 <= k < |actions| :: !Splits(Run(Start(instance), actions[..k]), actions[k])
  }

  /** In every such interleaving, at most one epoch is ever authoritative. */
  lemma {:induction false} OneAuthorityThroughout(instance: Id, actions: seq<Action>)
    requires Orderly(instance, actions)
    ensures OneAuthoritative(Run(Start(instance), actions).db)
  {
    hide Step, StepCall;
    if actions != [] {
      var most := actions[..|actions| - 1];
      forall k | 0 <= k < |most| ensures !Splits(Run(Start(instance), most[..k]), most[k]) {
        assert most[..k] == actions[..k] && most[k] == actions[k];
      }
      OneAuthorityThroughout(instance, most);
      AuthoritySplitsExactly(instance, most, actions[|actions| - 1]);
    }
  }
}
