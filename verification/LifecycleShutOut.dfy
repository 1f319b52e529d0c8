/** An acknowledged handoff that a reconciliation cannot finish. A reconciliation looks at the incoming epoch
    before it reopens the handoff (src/overseer/agent_manager.py:1292-1351); a refusal in between closes that
    epoch, and the acknowledgement goes through all the same. A run in which it does, and what then remains:
    reconciling raises, and promoting leaves nobody in charge. */
module LifecycleShutOut {
  import opened Contracts
  import opened Fences
  import opened LifecycleStore
  import opened LifecycleRuns
  import opened LifecycleFence
  import opened LifecycleHistory
  import opened LifecycleSafety
  import opened LifecycleOrdinals
  import opened LifecycleSerial
  import opened LifecycleRaces
  import opened LifecycleAlone
  import opened LifecycleEvidence
  import opened LifecycleStray
  import opened LifecycleGivingUp
  import M = AgentManager

  /** The reconciliation that has read everything and is about to reopen. */
  function Reader(instance: Id): Call {
    var db := Imported1(instance);
    ReconcileCall(ReconcileOpen(db.packages[1], db.transition.value, db.epochs[1], TheAnswer(instance)))
  }

  lemma ThreeSame(w: World, t: Id, i: Input)
    ensures Run(w, Steps(t, Repeat(i, 3))) == Thrice(w, Advance(t, i))
  {
    hide Step, StepCall;
    var inputs := Repeat(i, 3);
    ThreeFirst(w, t, inputs);
    assert Steps(t, inputs[3..]) == [];
  }

  lemma StageRead(instance: Id) returns (actions: seq<Action>)
    ensures var w := Run(Start(instance), actions);
      w.db == Imported1(instance) && w.calls == map[2 := Reader(instance)] && w.next == 3
  {
    hide StepCall;
    actions := Stage1(instance);
    var i, r := I(instance), TheAnswer(instance);
    RunLast(Start(instance), actions, Begin(ReconcileCall(Reconcile(1, Some(r)))));
    actions := actions + [Begin(ReconcileCall(Reconcile(1, Some(r))))];
    ReopensTwice(instance);
    ReopenReads(Run(Start(instance), actions), 2, 1, r, i);
    ThreeSame(Run(Start(instance), actions), 2, i);
    RunJoin(Start(instance), actions, Steps(2, Repeat(i, 3)));
    actions := actions + Steps(2, Repeat(i, 3));
  }

  /** Another reconciliation brings a refusal. */
  function Refuser(instance: Id): Call {
    CompletionCall(Complete(Reopened1(instance).packages[1], Imported1(instance).epochs[1], Refusal(instance), true))
  }

  lemma StageRefused(instance: Id) returns (actions: seq<Action>)
    ensures var w := Run(Start(instance), actions);
      w.db == Reopened1(instance) && w.calls == map[2 := Reader(instance), 3 := Refuser(instance)] && w.next == 4
  {
    hide StepCall;
    actions := StageRead(instance);
    var i, r := I(instance), Refusal(instance);
    RunLast(Start(instance), actions, Begin(ReconcileCall(Reconcile(1, Some(r)))));
    actions := actions + [Begin(ReconcileCall(Reconcile(1, Some(r))))];
    ReopensTwice(instance);
    Reopens(Run(Start(instance), actions), 3, 1, r, i);
    RunJoin(Start(instance), actions, Steps(3, Repeat(i, 4)));
    actions := actions + Steps(3, Repeat(i, 4));
  }

  function Closed1(instance: Id): Db {
    var db := Reopened1(instance);
    db.(results := map[9 := Refusal(instance)],
        epochs := db.epochs[1 := db.epochs[1].(state := Quarantined, closed := true)],
        packages := db.packages[1 := db.packages[1].(status := PkgQuarantined)],
        transition := Some(Transition(1, 0, 1, HandoffFailed)))
  }

  lemma Closes(instance: Id)
    ensures var db := Reopened1(instance);
      && !ImportAccepted(db, db.packages[1], db.epochs[1], Refusal(instance))
      && FailHandoff(db, db.packages[1], db.epochs[1], Refusal(instance), true) == Some(Closed1(instance))
  {
    var db, r := Reopened1(instance), Refusal(instance);
    NextIsNew(ActiveDb(instance));
    var a := db.(results := map[9 := r]);
    assert SaveResult(db, r) == Some(a) by { assert db.results[9 := r] == map[9 := r]; }
    var b := a.(epochs := Closed1(instance).epochs);
    assert SaveEpoch(a, db.epochs[1].(state := Quarantined, closed := true)) == Some(b);
    var c := b.(packages := Closed1(instance).packages);
    assert SavePackage(b, db.packages[1].(status := PkgQuarantined)) == Some(c);
  }

  lemma StageClosed(instance: Id) returns (actions: seq<Action>)
    ensures var w := Run(Start(instance), actions); w.db == Closed1(instance) && w.calls == map[2 := Reader(instance)]
  {
    hide Step, StepCall;
    actions := StageRefused(instance);
    ClosesHere(Run(Start(instance), actions), instance, I(instance));
    RunLast(Start(instance), actions, Advance(3, I(instance)));
    actions := actions + [Advance(3, I(instance))];
  }

  lemma ClosesHere(w: World, instance: Id, i: Input)
    requires w.db == Reopened1(instance) && w.calls == map[2 := Reader(instance), 3 := Refuser(instance)]
    ensures var v := Step(w, Advance(3, i)); v.db == Closed1(instance) && v.calls == map[2 := Reader(instance)]
  {
    hide StepFailover, StepHandoff, StepReconcile, StepRollback, StepRecovery, StepSession, StartImport, FailHandoff,
        AcknowledgeImport, Promote;
    Closes(instance);
    var db := Reopened1(instance);
    assert Step(w, Advance(3, i)) == StepImportAnswer(w, 3, db.packages[1], db.epochs[1], Refusal(instance), true);
    assert w.calls - {3} == map[2 := Reader(instance)];
  }

  /** The first reconciliation reopens the handoff with what it had read. */
  function ReopenedLate(instance: Id): Db {
    Closed1(instance).(transition := Some(Transition(1, 0, 1, LifecycleStore.Reconciling)),
                       packages := map[1 := Reopened1(instance).packages[1]])
  }

  lemma ReopensLate(w: World, instance: Id, i: Input)
    requires w.db == Closed1(instance) && w.calls == map[2 := Reader(instance)]
    ensures var v := Step(w, Advance(2, i)); v.db == ReopenedLate(instance) && v.calls == map[2 := Late(instance)]
  {
    hide StepFailover, StepHandoff, StepComplete, StepRollback, StepRecovery, StepSession;
    var db := Imported1(instance);
    var p, tr := db.packages[1], db.transition.value;
    var a := w.db.(transition := Some(tr.(state := LifecycleStore.Reconciling)));
    assert SaveTransition(w.db, tr.(state := LifecycleStore.Reconciling)) == Some(a);
    assert SavePackage(a, p.(status := PkgReconciling)) == Some(ReopenedLate(instance)) by {
      assert a.packages[1 := p.(status := PkgReconciling)] == ReopenedLate(instance).packages;
    }
    assert Step(w, Advance(2, i)) == StepReopen(w, 2, p, tr, db.epochs[1], TheAnswer(instance));
    assert w.calls[2 := Late(instance)] == map[2 := Late(instance)];
  }

  lemma StageReopenedLate(instance: Id) returns (actions: seq<Action>)
    ensures var w := Run(Start(instance), actions);
    w.db == ReopenedLate(instance) && w.calls == map[2 := Late(instance)]
  {
    hide Step, StepCall;
    actions := StageClosed(instance);
    ReopensLate(Run(Start(instance), actions), instance, I(instance));
    RunLast(Start(instance), actions, Advance(2, I(instance)));
    actions := actions + [Advance(2, I(instance))];
  }

  /** And acknowledges it, closed as its epoch is. */
  lemma AcknowledgesClosed(w: World, instance: Id, i: Input)
    requires w.db == ReopenedLate(instance) && w.calls == map[2 := Late(instance)]
    ensures var db := Step(w, Advance(2, i)).db;
      && AwaitsPromotion(db, 1) && db.epochs == Closed1(instance).epochs
      && 1 in db.packages && db.packages[1].importResult.Some? && db.packages[1].outgoing == 0
  {
    hide StepFailover, StepHandoff, StepReconcile, StepRollback, StepRecovery, StepSession;
    var db, p, incoming, r := w.db, Reopened1(instance).packages[1], Reopened1(instance).epochs[1], TheAnswer(instance);
    assert ImportAccepted(db, p, incoming, r) && AcknowledgeImport(db, p, incoming, r).Some?;
    AcknowledgeEffect(db, p, incoming, r);
    AcknowledgeWrites(db, p, incoming, r);
    assert Step(w, Advance(2, i)) == StepImportAnswer(w, 2, p, incoming, r, true);
  }

  lemma StageShutOut(instance: Id) returns (actions: seq<Action>)
    ensures var db := Run(Start(instance), actions).db;
      && AwaitsPromotion(db, 1) && db.epochs == Closed1(instance).epochs
      && 1 in db.packages && db.packages[1].importResult.Some? && db.packages[1].outgoing == 0
  {
    hide Step, StepCall;
    actions := StageReopenedLate(instance);
    AcknowledgesClosed(Run(Start(instance), actions), instance, I(instance));
    RunLast(Start(instance), actions, Advance(2, I(instance)));
    actions := actions + [Advance(2, I(instance))];
  }

  lemma NobodyInCharge(db: Db, next: Id, instance: Id)
    requires DbOk(db, next) && HasAcknowledgement(db, 1) && PromoteStored(db, 1).Some?
    requires db.epochs == Closed1(instance).epochs
    requires db.packages[1].outgoing == 0
    ensures Authoritative(PromoteStored(db, 1).value) == {}
  {
    var tr := db.transition.value;
    assert PackageOk(db, 1);
    PromoteWrites(db, db.packages[1], tr, db.epochs[tr.incoming], db.epochs[tr.outgoing]);
  }

  /** A run that ends in an acknowledged handoff which cannot be reconciled any more, and whose promotion
      would close the old epoch without putting the new one in charge. */
  lemma AcknowledgedButShutOut(instance: Id) returns (actions: seq<Action>)
    ensures var db := Run(Start(instance), actions).db;
      && AwaitsPromotion(db, 1) && M.Reconciliation(db, 1, None) == (db, M.Raised)
      && M.Promotion(db, 1).Some? && Authoritative(M.Promotion(db, 1).value) == {}
  {
    hide Step, StepCall, StartImport, FailHandoff, AcknowledgeImport, Promote, OrderInv;
    actions := StageShutOut(instance);
    ReconcilesExactly(instance, actions, 1);
    RunsKeepEvidence(instance, actions);
    var w := Run(Start(instance), actions);
    PromotesExactly(w, 1);
    NobodyInCharge(w.db, w.next, instance);
  }
}
