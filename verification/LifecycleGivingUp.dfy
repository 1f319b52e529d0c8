/** Rollbacks that give up. A rollback whose cancellation cannot be verified writes its copies of the
    incoming epoch and the package, and leaves the transition alone if it had read it as failed
    (src/overseer/agent_manager.py:1390-1416). Exactly when that takes authority or evidence away from a
    handoff that went on in the meantime, and a run for each. */
module LifecycleGivingUp {
  import opened Contracts
  import opened Fences
  import opened LifecycleStore
  import opened LifecycleRuns
  import opened LifecycleFence
  import opened LifecycleHistory
  import opened LifecycleSafety
  import opened LifecycleOrdinals
  import opened LifecycleSerial
  import opened LifecycleRaces
  import opened LifecycleAlone
  import opened LifecycleEvidence
  import opened LifecycleStray
  import M = AgentManager

  // ----- Two more invariants of every run -----

  /** A rollback works on the transition and the epochs of its own package. */
  predicate RollbackLinked(s: RollbackStage) {
    && (!s.Rollback? && !s.RollbackOf? ==>
          s.transition.handoff == s.package.id && s.transition.incoming == s.package.id
              && IsBlocking(s.transition.state))
    && (s.RollbackTo? || s.RollbackHeld? || s.RollbackCancelled? || s.RollbackReady? || s.RollbackBlocked? ==>
          s.incoming.id == s.package.id)
    && (s.RollbackFrom? || s.RollbackTo? || s.RollbackHeld? || s.RollbackCancelled? || s.RollbackReady? ==>
          s.outgoing.id == s.transition.outgoing && !s.outgoing.closed)
  }

  /** A promotion works on the incoming epoch of the transition it read. */
  predicate CompletionLinked(s: CompletionStage) {
    s.PromotionTo? || s.PromotionFrom? || s.PromotionSession? || s.PromotionReady? ==>
        s.incoming.id == s.transition.incoming
  }

  predicate CallLinked(c: Call) {
    && (c.RollbackCall? ==> RollbackLinked(c.rollback))
    && (c.CompletionCall? ==> CompletionLinked(c.completion))
  }

  /** The incoming epoch of a handoff under way is not in charge. */
  predicate Waits(db: Db) {
    db.Blocked() ==>
      && db.transition.value.handoff in db.epochs
      && (db.epochs[db.transition.value.handoff].closed || IsAwaiting(db.epochs[db.transition.value.handoff].state))
  }

  ghost predicate WaitInv(w: World) { Waits(w.db) && forall t | t in w.calls :: CallLinked(w.calls[t]) }

  lemma RollbackLinks(w: World, v: World, t: Id, s: RollbackStage, i: Input)
    requires Stands(w, t, RollbackCall(s)) && RollbackLinked(s) && TransitionOk(w.db) && EpochsOk(w.db.epochs)
    requires v == StepRollback(w, t, s, i)
    ensures t in v.calls ==> CallLinked(v.calls[t])
  {
    hide EvaluateFailover, ExecuteFailover;
  }

  lemma HandoffLinks(w: World, v: World, t: Id, s: HandoffStage, i: Input)
    requires v == StepHandoff(w, t, s, i) && t in w.calls && CallLinked(w.calls[t])
    ensures t in v.calls ==> CallLinked(v.calls[t])
  {
  }

  lemma CompletionLinks(w: World, v: World, t: Id, s: CompletionStage, i: Input)
    requires v == StepComplete(w, t, s, i) && Stands(w, t, CompletionCall(s)) && CallLinked(w.calls[t])
    requires EpochsOk(w.db.epochs)
    ensures t in v.calls ==> CallLinked(v.calls[t])
  {
  }

  lemma ReconcileLinks(w: World, v: World, t: Id, s: ReconcileStage, i: Input)
    requires v == StepReconcile(w, t, s, i) && t in w.calls && CallLinked(w.calls[t])
    ensures t in v.calls ==> CallLinked(v.calls[t])
  {
  }

  lemma OthersLink(w: World, v: World, t: Id, i: Input)
    requires Moves(w, v, t, i)
    requires w.calls[t].FailoverCall? || w.calls[t].RecoveryCall? || w.calls[t].SessionCall?
    ensures t in v.calls ==> !v.calls[t].RollbackCall? && !v.calls[t].CompletionCall?
  {
    hide StepHandoff, StepReconcile, EvaluateFailover, ExecuteFailover, ClaimRecovery, RecoveryValid, RecordRecovery,
        FinalizeRecovery, MoveAttempt;
  }

  lemma StepLinks(w: World, v: World, t: Id, i: Input)
    requires t in w.calls && CallLinked(w.calls[t]) && TransitionOk(w.db) && EpochsOk(w.db.epochs)
    requires v == StepCall(w, t, w.calls[t], i)
    ensures t in v.calls ==> CallLinked(v.calls[t])
  {
    hide StepFailover, StepHandoff, StepComplete, StepReconcile, StepRollback, StepRecovery, StepSession;
    match w.calls[t]
    case HandoffCall(s) => HandoffLinks(w, v, t, s, i);
    case CompletionCall(s) => CompletionLinks(w, v, t, s, i);
    case ReconcileCall(s) => ReconcileLinks(w, v, t, s, i);
    case RollbackCall(s) => RollbackLinks(w, v, t, s, i);
    case _ => OthersLink(w, v, t, i);
  }

  // Writing epochs while a handoff is under way.

  lemma ImportWaits(w: World, v: World, t: Id, plan: Plan)
    requires Waits(w.db) && v == StepImport(w, t, plan)
    ensures Waits(v.db)
  {
    if plan.op.Fenced? && StartImport(w.db, t, plan.provider, plan.op, plan.outgoing).Some? {
      ImportEffect(w.db, t, plan);
      ImportWrites(w.db, t, plan);
    }
  }

  lemma HandoffWaits(w: World, v: World, t: Id, s: HandoffStage, i: Input)
    requires Waits(w.db) && v == StepHandoff(w, t, s, i)
    ensures Waits(v.db)
  {
    if s.HandoffImporting? { ImportWaits(w, v, t, s.plan); } else { HandoffTouches(w, v, t, s, i); }
  }

  lemma HandoffTouches(w: World, v: World, t: Id, s: HandoffStage, i: Input)
    requires !s.HandoffImporting? && v == StepHandoff(w, t, s, i)
    ensures v.db.epochs == w.db.epochs && v.db.transition == w.db.transition
  {
  }

  lemma AnswerWaits(w: World, v: World, t: Id, p: Package, incoming: Epoch, r: Result, quarantine: bool)
    requires Waits(w.db) && v == StepImportAnswer(w, t, p, incoming, r, quarantine)
    ensures Waits(v.db)
  {
    if ImportAccepted(w.db, p, incoming, r) {
      if AcknowledgeImport(w.db, p, incoming, r).Some? {
        AcknowledgeEffect(w.db, p, incoming, r);
        AcknowledgeWrites(w.db, p, incoming, r);
      }
    } else if FailHandoff(w.db, p, incoming, r, quarantine).Some? {
      FailEffect(w.db, p, incoming, r, quarantine);
      FailWrites(w.db, p, incoming, r, quarantine);
    }
  }

  lemma CompletionWaits(w: World, v: World, t: Id, s: CompletionStage, i: Input)
    requires Waits(w.db) && v == StepComplete(w, t, s, i)
    ensures Waits(v.db)
  {
    match s
    case Complete(p, incoming, r, quarantine) => AnswerWaits(w, v, t, p, incoming, r, quarantine);
    case PromotionReady(p, tr, incoming, outgoing) =>
      if Promote(w.db, p, tr, incoming, outgoing).Some? { PromoteEffect(w.db, p, tr, incoming, outgoing); }
    case _ =>
  }

  lemma ReconcileWaits(w: World, v: World, t: Id, s: ReconcileStage, i: Input)
    requires Waits(w.db) && v == StepReconcile(w, t, s, i)
    ensures Waits(v.db)
  {
    if s.ReconcileOpen? && StartReconcile(w.db, s.package, s.transition).Some? {
      ReconcileEffect(w.db, s.package, s.transition);
      assert v.db.epochs == w.db.epochs;
    }
  }

  lemma BlockWaits(w: World, v: World, t: Id, p: Package, tr: Transition, incoming: Epoch)
    requires Waits(w.db) && v == StepBlock(w, t, p, tr, incoming)
    ensures Waits(v.db)
  {
    if BlockRollback(w.db, p, tr, incoming).Some? {
      BlockEffect(w.db, p, tr, incoming);
      BlockWrites(w.db, p, tr, incoming);
    }
  }

  lemma RollbackWaits(w: World, v: World, t: Id, s: RollbackStage, i: Input)
    requires Waits(w.db) && v == StepRollback(w, t, s, i)
    ensures Waits(v.db)
  {
    match s
    case RollbackReady(p, tr, outgoing, incoming, op) =>
      if RollBack(w.db, p, tr, incoming, outgoing, op).Some? { RollBackEffect(w.db, p, tr, incoming, outgoing, op); }
    case RollbackBlocked(p, tr, incoming) => BlockWaits(w, v, t, p, tr, incoming);
    case _ =>
  }

  lemma OpenAdds(db: Db, t: Id, provider: Id, session: Option<SessionId>, external: Option<Id>, state: OperationState)
    requires EpochsOk(db.epochs) && OpenEpoch(db, t, provider, session, external, state).Some?
    ensures var after := OpenEpoch(db, t, provider, session, external, state).value;
      && after.transition == db.transition && t !in db.epochs && t in after.epochs
      && after.epochs == db.epochs[t := after.epochs[t]]
  {
    NextIsNew(db);
  }

  lemma OpenWaits(db: Db, t: Id, provider: Id, session: Option<SessionId>, external: Option<Id>, state: OperationState)
    requires Waits(db) && EpochsOk(db.epochs) && OpenEpoch(db, t, provider, session, external, state).Some?
    ensures Waits(OpenEpoch(db, t, provider, session, external, state).value)
  {
    OpenAdds(db, t, provider, session, external, state);
  }

  lemma SessionWaits(w: World, v: World, t: Id, s: SessionStage, i: Input)
    requires Waits(w.db) && EpochsOk(w.db.epochs) && v == StepSession(w, t, s, i)
    ensures Waits(v.db)
  {
    match s
    case DiscoverHeld(op) => DiscoveryPasses(w, v, t, op, i);
    case ActivateStarted(provider, external) =>
      if OpenEpoch(w.db, t, provider, None, external, Running).Some? {
        OpenWaits(w.db, t, provider, None, external, Running);
      }
    case Recover(session) =>
      if RecoverSession(w.db, t, session, i.result).Some? { RecoverSessionView(w.db, t, session, i.result); }
    case _ =>
  }

  lemma StepWaits(w: World, v: World, t: Id, i: Input)
    requires Waits(w.db) && EpochsOk(w.db.epochs) && Moves(w, v, t, i)
    ensures Waits(v.db)
  {
    hide StepFailover, StepHandoff, StepComplete, StepReconcile, StepRollback, StepRecovery, StepSession;
    match w.calls[t]
    case FailoverCall(s) => FailoverPasses(w, v, t, s, i);
    case HandoffCall(s) => HandoffWaits(w, v, t, s, i);
    case CompletionCall(s) => CompletionWaits(w, v, t, s, i);
    case ReconcileCall(s) => ReconcileWaits(w, v, t, s, i);
    case RollbackCall(s) => RollbackWaits(w, v, t, s, i);
    case RecoveryCall(s) => RecoveryPasses(w, v, t, s, i);
    case SessionCall(s) => SessionWaits(w, v, t, s, i);
  }

  lemma WaitStep(w: World, a: Action)
    requires Invariant(w) && OrderInv(w) && WaitInv(w)
    ensures WaitInv(Step(w, a))
  {
    hide StepCall;
    match a
    case Begin(c) =>
    case Crash(t) =>
    case Advance(t, i) =>
      if t in w.calls {
        AdvanceProgress(w, Step(w, a), t, i);
        StepLinks(w, Step(w, a), t, i);
        StepWaits(w, Step(w, a), t, i);
      }
  }

  lemma {:induction false} RunsWait(instance: Id, actions: seq<Action>)
    ensures WaitInv(Run(Start(instance), actions))
  {
    hide Step, StepCall;
    if actions != [] {
      var most := actions[..|actions| - 1];
      RunsWait(instance, most);
      ReachableOk(instance, most);
      RunKeepsOrder(instance, most);
      WaitStep(Run(Start(instance), most), actions[|actions| - 1]);
    }
  }

  // ----- Exactly what giving up takes away -----

  /** The call is a rollback about to give up, and its transaction commits. */
  predicate AboutToGiveUp(w: World, t: Id) {
    && t in w.calls && w.calls[t].RollbackCall? && w.calls[t].rollback.RollbackBlocked?
    && BlockRollback(w.db, w.calls[t].rollback.package, w.calls[t].rollback.transition,
      w.calls[t].rollback.incoming).Some?
  }

  /** Giving up removes its incoming epoch, and nothing else, from those in charge. */
  lemma BlockAuthority(db: Db, p: Package, tr: Transition, incoming: Epoch)
    requires BlockRollback(db, p, tr, incoming).Some? && PackageCopy(db, p) && incoming.id == p.incomingEpoch
    ensures Authoritative(BlockRollback(db, p, tr, incoming).value) == Authoritative(db) - {incoming.id}
  {
    var after := BlockRollback(db, p, tr, incoming).value;
    BlockEffect(db, p, tr, incoming);
    BlockWrites(db, p, tr, incoming);
    assert incoming.id in IncomingIds(after) by { assert after.packages[p.id].incomingEpoch == incoming.id; }
    forall e ensures e in IncomingIds(after) <==> e in IncomingIds(db) {
      if e in IncomingIds(db) {
        var q :| q in db.packages && db.packages[q].incomingEpoch == e;
        assert after.packages[q].incomingEpoch == e;
      }
      if e in IncomingIds(after) {
        var q :| q in after.packages && after.packages[q].incomingEpoch == e;
        assert db.packages[q].incomingEpoch == e;
      }
    }
  }

  lemma GivingUpAuthority(w: World, t: Id, i: Input)
    requires FenceInv(w) && WaitInv(w) && AboutToGiveUp(w, t)
    ensures Authoritative(Step(w, Advance(t, i)).db) == Authoritative(w.db) - {w.calls[t].rollback.package.id}
    ensures !AcknowledgesAstray(w.db, w.calls[t])
  {
    hide EvaluateFailover, ExecuteFailover, StartReconcile, BlockRollback, RollBack;
    var s := w.calls[t].rollback;
    assert CallLinked(w.calls[t]) && CallOk(w.db, t, w.calls[t]) && PackageOk(w.db, s.package.id);
    BlockAuthority(w.db, s.package, s.transition, s.incoming);
  }

  /** In every run: a rollback that gives up leaves those in charge, and the promotability of an acknowledged
      handoff, as they are if and only if its incoming epoch has not come to be in charge since, and the
      handoff has not been acknowledged since with evidence that the rollback's copy lacks. */
  lemma GivingUpKeepsExactly(instance: Id, actions: seq<Action>, t: Id, i: Input)
    requires var w := Run(Start(instance), actions); AboutToGiveUp(w, t) && Completable(w.db)
    ensures var w, v := Run(Start(instance), actions), Step(Run(Start(instance), actions), Advance(t, i));
      var s := w.calls[t].rollback;
      && Authoritative(v.db) == Authoritative(w.db) - {s.package.id}
      && (Authoritative(v.db) == Authoritative(w.db) && Completable(v.db)
          <==> s.package.id !in Authoritative(w.db) && !GivesUpStale(w.db, w.calls[t]))
  {
    hide Step, StepCall, FenceInv;
    RunsWait(instance, actions);
    ReachableOk(instance, actions);
    GivingUpAuthority(Run(Start(instance), actions), t, i);
    CompletableKeptExactly(instance, actions, Advance(t, i));
  }

  /** As long as the stored transition is still the one it read, giving up takes nothing away. */
  lemma GivingUpInTime(instance: Id, actions: seq<Action>, t: Id, i: Input)
    requires var w := Run(Start(instance), actions);
      AboutToGiveUp(w, t) && Completable(w.db) && w.db.transition == Some(w.calls[t].rollback.transition)
    ensures var w, v := Run(Start(instance), actions), Step(Run(Start(instance), actions), Advance(t, i));
      Authoritative(v.db) == Authoritative(w.db) && Completable(v.db)
  {
    hide Step, StepCall;
    GivingUpKeepsExactly(instance, actions, t, i);
    RunsWait(instance, actions);
    ReachableOk(instance, actions);
    var w := Run(Start(instance), actions);
    var h := w.calls[t].rollback.package.id;
    assert CallLinked(w.calls[t]) && CallOk(w.db, t, w.calls[t]) && PackageOk(w.db, h);
    assert h in IncomingIds(w.db);
  }

  // ----- The runs -----

  // Handoff 1 is imported and refused; a rollback of it reads everything and is about to give up; then a
  // reconciliation reopens the handoff and acknowledges it.

  function Refusal(instance: Id): Result {
    Result(9, OtherRequest(0), instance, Named(0), 1, 2, OpFailed, None, None, false)
  }

  function Failed1(instance: Id): Db {
    var db := Imported1(instance);
    db.(results := map[9 := Refusal(instance)],
        epochs := db.epochs[1 := db.epochs[1].(state := OpBlocked)],
        packages := db.packages[1 := db.packages[1].(status := PkgBlocked)],
        transition := Some(Transition(1, 0, 1, HandoffFailed)))
  }

  lemma Refuses(instance: Id)
    ensures var db := Imported1(instance);
      && !ImportAccepted(db, db.packages[1], db.epochs[1], Refusal(instance))
      && FailHandoff(db, db.packages[1], db.epochs[1], Refusal(instance), false) == Some(Failed1(instance))
  {
    var db, r := Imported1(instance), Refusal(instance);
    NextIsNew(ActiveDb(instance));
    var a := db.(results := map[9 := r]);
    assert SaveResult(db, r) == Some(a) by { assert db.results[9 := r] == map[9 := r]; }
    var b := a.(epochs := Failed1(instance).epochs);
    assert SaveEpoch(a, db.epochs[1].(state := OpBlocked, closed := false)) == Some(b);
    var c := b.(packages := Failed1(instance).packages);
    assert SavePackage(b, db.packages[1].(status := PkgBlocked)) == Some(c);
  }

  lemma StageFailed(instance: Id) returns (actions: seq<Action>)
    ensures var w := Run(Start(instance), actions); w.db == Failed1(instance) && w.calls == map[] && w.next == 2
  {
    hide Step, StepCall;
    actions := Stage0(instance);
    var w, i := Run(Start(instance), actions), Agree(Refusal(instance));
    RefusedHere(w, instance);
    RunLast(Start(instance), actions, Advance(1, i));
    RunLast(Start(instance), actions + [Advance(1, i)], Advance(1, i));
    actions := actions + [Advance(1, i)] + [Advance(1, i)];
  }

  lemma RefusedHere(w: World, instance: Id)
    requires var db := Imported1(instance);
      w.db == db && w.calls == map[1 := HandoffCall(HandoffImported(db.packages[1], db.epochs[1]))]
    ensures var i := Agree(Refusal(instance));
      var v := Step(Step(w, Advance(1, i)), Advance(1, i));
      v.db == Failed1(instance) && v.calls == map[] && v.next == w.next
  {
    hide StepFailover, StepReconcile, StepRollback, StepRecovery, StepSession, StartImport, FailHandoff,
        AcknowledgeImport, Promote;
    var db, r := Imported1(instance), Refusal(instance);
    Refuses(instance);
    var a := Goto(w, 1, CompletionCall(Complete(db.packages[1], db.epochs[1], r, false)));
    assert Step(w, Advance(1, Agree(r))) == a;
    assert Step(a, Advance(1, Agree(r))) == StepImportAnswer(a, 1, db.packages[1], db.epochs[1], r, false);
    assert a.calls - {1} == map[];
  }

  /** The rollback that will be late. */
  function LateRollback(instance: Id): Call {
    var db := Failed1(instance);
    RollbackCall(RollbackBlocked(db.packages[1], db.transition.value, db.epochs[1]))
  }

  lemma RollbackReads(w: World, t: Id, instance: Id, i: Input)
    requires w.db == Failed1(instance) && Stands(w, t, RollbackCall(Rollback(1)))
    ensures Thrice(w, Advance(t, i))
      == Goto(w, t, RollbackCall(RollbackFrom(w.db.packages[1], w.db.transition.value, w.db.epochs[0])))
  {
    hide StepFailover, StepHandoff, StepComplete, StepReconcile, StepRecovery, StepSession;
    var p, tr := w.db.packages[1], w.db.transition.value;
    var a := Goto(w, t, RollbackCall(RollbackOf(p)));
    var b := Goto(w, t, RollbackCall(RollbackAt(p, tr)));
    assert Step(w, Advance(t, i)) == a;
    assert Step(a, Advance(t, i)) == b;
  }

  lemma RollbackReadsOn(w: World, t: Id, instance: Id, i: Input)
    requires w.db == Failed1(instance) && t in w.calls
    requires w.calls[t] == RollbackCall(RollbackFrom(w.db.packages[1], w.db.transition.value, w.db.epochs[0]))
    ensures Thrice(w, Advance(t, i)) == Goto(w, t, LateRollback(instance))
  {
    hide StepFailover, StepHandoff, StepComplete, StepReconcile, StepRecovery, StepSession;
    var p, tr := w.db.packages[1], w.db.transition.value;
    var a := Goto(w, t, RollbackCall(RollbackTo(p, tr, w.db.epochs[0], w.db.epochs[1])));
    var b := Goto(w, t, RollbackCall(RollbackHeld(p, tr, w.db.epochs[0], w.db.epochs[1], w.db.fence)));
    assert Step(w, Advance(t, i)) == a;
    assert Step(a, Advance(t, i)) == b;
  }

  ghost function Thrice(w: World, a: Action): World { Step(Step(Step(w, a), a), a) }

  lemma SixSame(w: World, t: Id, i: Input)
    ensures Run(w, Steps(t, Repeat(i, 6))) == Thrice(Thrice(w, Advance(t, i)), Advance(t, i))
  {
    hide Step, StepCall;
    var inputs := Repeat(i, 6);
    ThreeFirst(w, t, inputs);
    ThreeFirst(Thrice(w, Advance(t, i)), t, inputs[3..]);
    assert Steps(t, inputs[3..][3..]) == [];
  }

  lemma SixTo(w: World, t: Id, i: Input, c: Call, d: Call)
    requires Thrice(w, Advance(t, i)) == Goto(w, t, c)
    requires Thrice(Goto(w, t, c), Advance(t, i)) == Goto(Goto(w, t, c), t, d)
    ensures Run(w, Steps(t, Repeat(i, 6))) == Goto(w, t, d)
  {
    hide Step, StepCall;
    SixSame(w, t, i);
    assert w.calls[t := c][t := d] == w.calls[t := d];
  }

  lemma RollbackIsLate(w: World, t: Id, instance: Id, i: Input)
    requires w.db == Failed1(instance) && Stands(w, t, RollbackCall(Rollback(1)))
    ensures Run(w, Steps(t, Repeat(i, 6))) == Goto(w, t, LateRollback(instance))
  {
    hide Step, StepCall;
    var c := RollbackCall(RollbackFrom(w.db.packages[1], w.db.transition.value, w.db.epochs[0]));
    RollbackReads(w, t, instance, i);
    RollbackReadsOn(Goto(w, t, c), t, instance, i);
    SixTo(w, t, i, c, LateRollback(instance));
  }

  lemma StageLate(instance: Id) returns (actions: seq<Action>)
    ensures var w := Run(Start(instance), actions);
      w.db == Failed1(instance) && w.calls == map[2 := LateRollback(instance)] && w.next == 3
  {
    hide StepCall;
    actions := StageFailed(instance);
    var i := I(instance);
    RunLast(Start(instance), actions, Begin(RollbackCall(Rollback(1))));
    actions := actions + [Begin(RollbackCall(Rollback(1)))];
    RollbackIsLate(Run(Start(instance), actions), 2, instance, i);
    RunJoin(Start(instance), actions, Steps(2, Repeat(i, 6)));
    actions := actions + Steps(2, Repeat(i, 6));
  }

  /** The reconciliation, about to record its answer. */
  function Reconciler(instance: Id): Call {
    CompletionCall(Complete(ReopenedDb(Failed1(instance), 1).packages[1], Failed1(instance).epochs[1],
        TheAnswer(instance), true))
  }

  lemma StageReopened(instance: Id) returns (actions: seq<Action>)
    ensures var w := Run(Start(instance), actions);
      w.db == ReopenedDb(Failed1(instance), 1)
          && w.calls == map[2 := LateRollback(instance), 3 := Reconciler(instance)] && w.next == 4
  {
    hide StepCall;
    actions := StageLate(instance);
    var i, r := I(instance), TheAnswer(instance);
    RunLast(Start(instance), actions, Begin(ReconcileCall(Reconcile(1, Some(r)))));
    actions := actions + [Begin(ReconcileCall(Reconcile(1, Some(r))))];
    var v := Run(Start(instance), actions);
    Reopens(v, 3, 1, r, i);
    RunJoin(Start(instance), actions, Steps(3, Repeat(i, 4)));
    actions := actions + Steps(3, Repeat(i, 4));
  }

  /** The handoff is acknowledged while the rollback still holds what it read. */
  lemma StageAcknowledged(instance: Id) returns (actions: seq<Action>)
    ensures var w := Run(Start(instance), actions);
      && w.calls == map[2 := LateRollback(instance), 3 := CompletionCall(Promotion(1))] && w.next == 4
      && AwaitsPromotion(w.db, 1) && w.db.epochs == Failed1(instance).epochs
      && 1 in w.db.packages && w.db.packages[1].importResult.Some?
      && w.db.packages[1].outgoing == 0 && w.db.packages[1].provider == 2
  {
    hide Step, StepCall;
    actions := StageReopened(instance);
    var w, i := Run(Start(instance), actions), I(instance);
    ReconcilerRecords(w, instance, i);
    RunLast(Start(instance), actions, Advance(3, i));
    actions := actions + [Advance(3, i)];
  }

  lemma ReconcilerRecords(w: World, instance: Id, i: Input)
    requires w.db == ReopenedDb(Failed1(instance), 1)
    requires w.calls == map[2 := LateRollback(instance), 3 := Reconciler(instance)]
    ensures var v := Step(w, Advance(3, i));
      && v.calls == map[2 := LateRollback(instance), 3 := CompletionCall(Promotion(1))] && v.next == w.next
      && AwaitsPromotion(v.db, 1) && v.db.epochs == Failed1(instance).epochs
      && 1 in v.db.packages && v.db.packages[1].importResult.Some?
      && v.db.packages[1].outgoing == 0 && v.db.packages[1].provider == 2
  {
    hide StepFailover, StepHandoff, StepReconcile, StepRollback, StepRecovery, StepSession, StartImport, FailHandoff,
        AcknowledgeImport, Promote;
    var db, r := w.db, TheAnswer(instance);
    var p, incoming := db.packages[1], Failed1(instance).epochs[1];
    AnswerFits(db, p, incoming, r, instance);
    AcknowledgeEffect(db, p, incoming, r);
    AcknowledgeWrites(db, p, incoming, r);
    assert Step(w, Advance(3, i)) == StepImportAnswer(w, 3, p, incoming, r, true);
  }

  lemma AnswerFits(db: Db, p: Package, incoming: Epoch, r: Result, instance: Id)
    requires db == ReopenedDb(Failed1(instance), 1) && p == db.packages[1] && incoming == Failed1(instance).epochs[1]
    requires r == TheAnswer(instance)
    ensures ImportAccepted(db, p, incoming, r) && AcknowledgeImport(db, p, incoming, r).Some?
  {
    assert SaveResult(db, r).Some?;
  }

  /** The late rollback can still write. */
  lemma StillWrites(db: Db, instance: Id)
    requires 1 in db.packages && db.packages[1].outgoing == 0 && db.packages[1].provider == 2
    requires db.epochs.Keys == {0, 1} && db.epochs[1] == Failed1(instance).epochs[1].(state := db.epochs[1].state)
    requires db.epochs[0].ordinal == Failed1(instance).epochs[0].ordinal
    ensures var late := LateRollback(instance).rollback;
      BlockRollback(db, late.package, late.transition, late.incoming).Some?
  {
    var late := LateRollback(instance).rollback;
    NextIsNew(ActiveDb(instance));
    assert PutEpoch(db.epochs, late.incoming.(state := OpBlocked)).Some?;
  }

  /** The call that acknowledged crashes. */
  lemma StageCrashed(instance: Id) returns (actions: seq<Action>)
    ensures var w := Run(Start(instance), actions);
      && Stands(w, 2, LateRollback(instance)) && AwaitsPromotion(w.db, 1) && w.db.epochs == Failed1(instance).epochs
      && 1 in w.db.packages && w.db.packages[1].importResult.Some?
      && w.db.packages[1].outgoing == 0 && w.db.packages[1].provider == 2
  {
    hide StepCall;
    actions := StageAcknowledged(instance);
    RunLast(Start(instance), actions, Crash(3));
    actions := actions + [Crash(3)];
  }

  lemma StaleHere(w: World, instance: Id)
    requires Stands(w, 2, LateRollback(instance)) && AwaitsPromotion(w.db, 1) && w.db.epochs == Failed1(instance).epochs
    requires 1 in w.db.packages && w.db.packages[1].outgoing == 0 && w.db.packages[1].provider == 2
    ensures GivesUpStale(w.db, w.calls[2])
  {
    StillWrites(w.db, instance);
  }

  lemma StaysAcknowledged(w: World, i: Input)
    requires 2 in w.calls && GivesUpStale(w.db, w.calls[2]) && AwaitsPromotion(w.db, 1)
    ensures AwaitsPromotion(Step(w, Advance(2, i)).db, 1)
  {
    hide StepCall;
    StepLeaves(w, Step(w, Advance(2, i)), 2, i);
  }

  /** A rollback gives up after a reconciliation has acknowledged the handoff and crashed: the evidence is
      gone, and the acknowledged handoff can no longer be promoted. */
  lemma GivingUpDropsEvidence(instance: Id) returns (actions: seq<Action>, last: Action)
    ensures var db, after := Run(Start(instance), actions).db, Step(Run(Start(instance), actions), last).db;
      && AwaitsPromotion(db, 1) && M.Promotion(db, 1).Some?
      && AwaitsPromotion(after, 1) && M.Promotion(after, 1).None?
  {
    hide Step, StepCall, FenceInv, Invariant, OrderInv, EvidenceInv;
    actions := StageCrashed(instance);
    last := Advance(2, I(instance));
    var w := Run(Start(instance), actions);
    StaleHere(w, instance);
    RunsKeepEvidence(instance, actions);
    PromotesExactly(w, 1);
    CompletableKeptExactly(instance, actions, last);
    StaysAcknowledged(w, I(instance));
  }

  lemma IsPrepared(w: World, h: Id)
    requires Reachable(w) && AwaitsPromotion(w.db, h) && h in w.db.packages && w.db.packages[h].importResult.Some?
    ensures Prepared(w.db, w.next, h)
  {
    PromotesExactly(w, h);
  }

  /** Everything is promoted, and the late rollback is still there. */
  predicate PromotedBehind(w: World, instance: Id) {
    && Stands(w, 2, LateRollback(instance)) && !w.db.Blocked() && Authoritative(w.db) == {1}
    && 1 in w.db.packages && w.db.packages[1].outgoing == 0 && w.db.packages[1].provider == 2
    && w.db.epochs.Keys == {0, 1} && w.db.epochs[1] == Failed1(instance).epochs[1].(state := w.db.epochs[1].state)
    && w.db.epochs[0].ordinal == Failed1(instance).epochs[0].ordinal
  }

  lemma PromotedWorld(w: World, v: World, instance: Id)
    requires w.calls == map[2 := LateRollback(instance), 3 := CompletionCall(Promotion(1))]
    requires v.calls - {3} == w.calls - {3}
    requires DbOk(w.db, w.next) && HasAcknowledgement(w.db, 1) && PromoteStored(w.db, 1) == Some(v.db)
    requires w.db.epochs == Failed1(instance).epochs && w.db.packages[1].outgoing == 0 && w.db.packages[1].provider == 2
    ensures PromotedBehind(v, instance)
  {
    hide Progress;
    PromotedHere(w.db, w.next, instance);
    assert 2 in w.calls - {3};
  }

  lemma PromotionFollows(w: World, inputs: seq<Input>)
    requires Prepared(w.db, w.next, 1) && Stands(w, 3, CompletionCall(Promotion(1))) && |inputs| == 7
    ensures PromoteStored(w.db, 1) == Some(Run(w, Steps(3, inputs)).db)
    ensures Run(w, Steps(3, inputs)).calls - {3} == w.calls - {3}
  {
    hide Step, StepCall;
    PromotionRuns(w, 3, 1, inputs);
  }

  lemma StagePromoted(instance: Id) returns (actions: seq<Action>)
    ensures PromotedBehind(Run(Start(instance), actions), instance)
  {
    hide StepCall, Step, PromotedBehind, Reachable;
    actions := StageAcknowledged(instance);
    var w, inputs := Run(Start(instance), actions), Repeat(I(instance), 7);
    RunsKeepEvidence(instance, actions);
    PromotedFrom(w, instance, inputs);
    RunJoin(Start(instance), actions, Steps(3, inputs));
    actions := actions + Steps(3, inputs);
  }

  lemma PromotedFrom(w: World, instance: Id, inputs: seq<Input>)
    requires Reachable(w) && w.calls == map[2 := LateRollback(instance), 3 := CompletionCall(Promotion(1))]
    requires AwaitsPromotion(w.db, 1) && w.db.epochs == Failed1(instance).epochs && 1 in w.db.packages
    requires w.db.packages[1].importResult.Some? && w.db.packages[1].outgoing == 0 && w.db.packages[1].provider == 2
    requires |inputs| == 7
    ensures PromotedBehind(Run(w, Steps(3, inputs)), instance)
  {
    hide StepCall, Step, Run, PromotedBehind, OrderInv, EvidenceInv, FenceInv, Prepared;
    IsPrepared(w, 1);
    PromotionFollows(w, inputs);
    PromotedWorld(w, Run(w, Steps(3, inputs)), instance);
  }

  lemma PromotedHere(db: Db, next: Id, instance: Id)
    requires DbOk(db, next) && HasAcknowledgement(db, 1) && PromoteStored(db, 1).Some?
    requires db.epochs == Failed1(instance).epochs
    requires db.packages[1].outgoing == 0 && db.packages[1].provider == 2
    ensures var after := PromoteStored(db, 1).value;
      && !after.Blocked() && Authoritative(after) == {1}
      && 1 in after.packages && after.packages[1].outgoing == 0 && after.packages[1].provider == 2
      && after.epochs.Keys == {0, 1} && after.epochs[1] == db.epochs[1].(state := Running)
      && after.epochs[0].ordinal == db.epochs[0].ordinal
  {
    hide StartImport, FailHandoff, AcknowledgeImport, Promote;
    var after, tr := PromoteStored(db, 1).value, db.transition.value;
    assert PackageOk(db, 1);
    PromoteEffect(db, db.packages[1], tr, db.epochs[1], db.epochs[0]);
    PromoteWrites(db, db.packages[1], tr, db.epochs[1], db.epochs[0]);
    assert 1 in Authoritative(after);
  }

  /** A rollback gives up after a reconciliation has promoted the handoff: the only epoch in charge is
      blocked, and nobody is in charge. */
  lemma GivingUpRemovesAuthority(instance: Id) returns (actions: seq<Action>, last: Action)
    ensures var db, after := Run(Start(instance), actions).db, Step(Run(Start(instance), actions), last).db;
      Authoritative(db) == {1} && Authoritative(after) == {}
  {
    hide Step, StepCall;
    actions := StagePromoted(instance);
    last := Advance(2, I(instance));
    var w := Run(Start(instance), actions);
    StillWrites(w.db, instance);
    GivingUpKeepsExactly(instance, actions, 2, I(instance));
  }
}
