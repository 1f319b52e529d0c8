/** Acknowledgements that go astray. `_persist_import_acknowledgement` writes its evidence to the package
    it was given, but acknowledges whatever transition is stored by then
    (src/overseer/agent_manager.py:1542-1571). Exactly when that leaves a handoff that can be promoted, and
    an interleaving in which it does not. */
module LifecycleStray {
  import opened Contracts
  import opened Fences
  import opened LifecycleStore
  import opened LifecycleRuns
  import opened LifecycleFence
  import opened LifecycleHistory
  import opened LifecycleSafety
  import opened LifecycleOrdinals
  import opened LifecycleSerial
  import opened LifecycleRaces
  import opened LifecycleAlone
  import opened LifecycleEvidence
  import M = AgentManager

  // ----- Exactly when an acknowledgement binds -----

  /** In every run: a call that records an accepted answer for its package acknowledges whatever transition
      is stored, and that handoff passes every check of its promotion, which then commits, if and only if it
      is the one that was answered or its package carried evidence before. */
  lemma AcknowledgementBindsExactly(instance: Id, actions: seq<Action>, t: Id, i: Input)
    requires var w := Run(Start(instance), actions); t in w.calls && RecordsAnswer(w.db, w.calls[t])
    ensures var w, v := Run(Start(instance), actions), Step(Run(Start(instance), actions), Advance(t, i));
      && w.db.transition.Some? && var h := w.db.transition.value.handoff;
      && h in w.db.packages && HasAcknowledgement(v.db, h)
      && (Bound(v.db, v.db.packages[h], v.db.epochs[v.db.transition.value.incoming])
          <==> h == w.calls[t].completion.package.id || w.db.packages[h].importResult.Some?)
      && (M.Promotion(v.db, h).Some? <==> Bound(v.db, v.db.packages[h], v.db.epochs[v.db.transition.value.incoming]))
  {
    hide StepCall, OrderInv;
    RunsKeepEvidence(instance, actions);
    var w := Run(Start(instance), actions);
    StepKeeps(w, Advance(t, i));
    StepKeepsOrder(w, Advance(t, i));
    StepKeepsEvidence(w, Advance(t, i));
    AnswerLands(w, Step(w, Advance(t, i)), t, i);
    PromotesExactly(Step(w, Advance(t, i)), w.db.transition.value.handoff);
  }

  lemma AnswerLands(w: World, v: World, t: Id, i: Input)
    requires DbOk(w.db, w.next) && t in w.calls && RecordsAnswer(w.db, w.calls[t]) && v == StepCall(w, t, w.calls[t], i)
    ensures w.db.transition.Some? && w.db.transition.value.handoff in w.db.packages
    ensures var h := w.db.transition.value.handoff;
      && AwaitsPromotion(v.db, h) && h in v.db.packages
      && (v.db.packages[h].importResult.Some?
        <==> h == w.calls[t].completion.package.id || w.db.packages[h].importResult.Some?)
  {
    hide Step, StepCall;
    StepWrites(w, v, t, i);
    StepLeaves(w, v, t, i);
    WrittenIsCopy(w.db, t, w.calls[t]);
  }

  // ----- A run in which it goes astray -----

  /** A manual handoff up to its import, left there. */
  lemma Halfway(w: World, t: Id, provider: Id, outgoing: Epoch, i: Input)
    requires Stands(w, t, HandoffCall(HandoffFrom(provider, None, outgoing))) && i.flag
    requires EpochsOk(w.db.epochs) && Clear(w.db, t, provider, outgoing)
    ensures var v, db := Run(w, Steps(t, Repeat(i, 6))), ImportedDb(w.db, t, provider, outgoing);
      && v.db == db && v.next == w.next
      && v.calls == w.calls[t := HandoffCall(HandoffImported(db.packages[t], db.epochs[t]))]
  {
    hide Step, StepCall;
    var inputs, a := Repeat(i, 6), ImportingWorld(w, t, provider, outgoing);
    ToImport(w, t, provider, outgoing, inputs);
    ImportStep(a, w.db, t, provider, outgoing, inputs[5]);
    AdvanceFirst(a, t, inputs[5..]);
    assert Steps(t, inputs[5..][1..]) == [];
    var c := HandoffCall(HandoffImported(ImportedDb(w.db, t, provider, outgoing).packages[t],
        ImportedDb(w.db, t, provider, outgoing).epochs[t]));
    assert a.calls[t := c] == w.calls[t := c];
  }

  /** The database once a reconciliation of handoff `h` is open. */
  function ReopenedDb(db: Db, h: Id): Db
    requires h in db.packages && db.transition.Some?
  {
    db.(transition := Some(db.transition.value.(state := LifecycleStore.Reconciling)),
        packages := db.packages[h := db.packages[h].(status := PkgReconciling)])
  }

  predicate Reopenable(db: Db, h: Id) {
    && h in db.packages && db.packages[h].id == h && db.packages[h].incomingEpoch == h
    && h in db.epochs && !db.epochs[h].closed && db.transition.Some? && db.transition.value.handoff == h
    && db.transition.value.state in {Importing, LifecycleStore.Reconciling, HandoffFailed}
  }

  lemma ReopenCommits(db: Db, h: Id)
    requires Reopenable(db, h)
    ensures StartReconcile(db, db.packages[h], db.transition.value) == Some(ReopenedDb(db, h))
  {
  }

  lemma ReopenReads(w: World, t: Id, h: Id, r: Result, i: Input)
    requires Stands(w, t, ReconcileCall(Reconcile(h, Some(r)))) && Reopenable(w.db, h)
    ensures Step(Step(Step(w, Advance(t, i)), Advance(t, i)), Advance(t, i))
      == Goto(w, t, ReconcileCall(ReconcileOpen(w.db.packages[h], w.db.transition.value, w.db.epochs[h], r)))
  {
    hide StepFailover, StepHandoff, StepComplete, StepRollback, StepRecovery, StepSession;
    var p, tr := w.db.packages[h], w.db.transition.value;
    var a := Goto(w, t, ReconcileCall(ReconcileOf(p, Some(r))));
    var b := Goto(w, t, ReconcileCall(ReconcileAt(p, tr, Some(r))));
    assert Step(w, Advance(t, i)) == a;
    assert Step(a, Advance(t, i)) == b;
  }

  lemma FourSame(w: World, t: Id, i: Input)
    ensures var v := Step(Step(Step(w, Advance(t, i)), Advance(t, i)), Advance(t, i));
      Run(w, Steps(t, Repeat(i, 4))) == Step(v, Advance(t, i))
  {
    hide Step, StepCall;
    var inputs := Repeat(i, 4);
    var v := Step(Step(Step(w, Advance(t, i)), Advance(t, i)), Advance(t, i));
    ThreeFirst(w, t, inputs);
    AdvanceFirst(v, t, inputs[3..]);
    assert Steps(t, inputs[3..][1..]) == [];
  }

  lemma ReopenWrites(w: World, t: Id, h: Id, r: Result, i: Input)
    requires Reopenable(w.db, h) && t in w.calls
    requires w.calls[t] == ReconcileCall(ReconcileOpen(w.db.packages[h], w.db.transition.value, w.db.epochs[h], r))
    ensures var v := Step(w, Advance(t, i));
      && v.db == ReopenedDb(w.db, h) && v.next == w.next
      && v.calls == w.calls[t := CompletionCall(Complete(ReopenedDb(w.db, h).packages[h], w.db.epochs[h], r, true))]
  {
    hide StepFailover, StepHandoff, StepRollback, StepRecovery, StepSession;
    ReopenCommits(w.db, h);
    assert Step(w, Advance(t, i)) == StepReopen(w, t, w.db.packages[h], w.db.transition.value, w.db.epochs[h], r);
  }

  /** Four steps open a reconciliation with an answer and bring it to the point of recording it. */
  lemma Reopens(w: World, t: Id, h: Id, r: Result, i: Input)
    requires Stands(w, t, ReconcileCall(Reconcile(h, Some(r)))) && Reopenable(w.db, h)
    ensures var v := Run(w, Steps(t, Repeat(i, 4)));
      && v.db == ReopenedDb(w.db, h) && v.next == w.next
      && v.calls == w.calls[t := CompletionCall(Complete(ReopenedDb(w.db, h).packages[h], w.db.epochs[h], r, true))]
  {
    hide Step, StepCall;
    var c := Goto(w, t, ReconcileCall(ReconcileOpen(w.db.packages[h], w.db.transition.value, w.db.epochs[h], r)));
    ReopenReads(w, t, h, r, i);
    ReopenWrites(c, t, h, r, i);
    FourSame(w, t, i);
  }

  // The databases of the run. Handoff 1 is imported, reopened, acknowledged and rolled back; handoff 5
  // is imported.

  function TheAnswer(instance: Id): Result { Answer(ActiveDb(instance), 1, 2) }

  function Imported1(instance: Id): Db { ImportedDb(ActiveDb(instance), 1, 2, FirstEpoch(instance)) }

  function Reopened1(instance: Id): Db { ReopenedDb(Imported1(instance), 1) }

  function Acknowledged1(instance: Id): Db {
    var db, r := Reopened1(instance), TheAnswer(instance);
    db.(results := map[1 := r], sessions := db.sessions[r.session := Session(2, r.external)],
        packages := map[1 :=
            db.packages[1].(status := PkgImportAcknowledged, importResult := Some(1), external := r.external)],
        transition := Some(Transition(1, 0, 1, ImportAcknowledged)))
  }

  function RolledBack1(instance: Id): Db {
    var db := Acknowledged1(instance);
    db.(fence := Open(2),
        epochs := map[0 := FirstEpoch(instance),
            1 := Imported1(instance).epochs[1].(state := Cancelled, closed := true)],
        packages := map[1 := db.packages[1].(status := PkgRolledBack)],
        transition := Some(Transition(1, 0, 1, RolledBack)))
  }

  function Imported5(instance: Id): Db { ImportedDb(RolledBack1(instance), 5, 3, FirstEpoch(instance)) }

  lemma ReopensTwice(instance: Id)
    ensures Reopenable(Imported1(instance), 1) && Reopenable(Reopened1(instance), 1)
    ensures ReopenedDb(Reopened1(instance), 1) == Reopened1(instance)
  {
    var db := Reopened1(instance);
    assert db.packages[1 := db.packages[1].(status := PkgReconciling)] == db.packages;
  }

  lemma AcknowledgesOnce(instance: Id)
    ensures var db := Reopened1(instance);
      && ImportAccepted(db, db.packages[1], db.epochs[1], TheAnswer(instance))
      && AcknowledgeImport(db, db.packages[1], db.epochs[1], TheAnswer(instance)) == Some(Acknowledged1(instance))
  {
    var db, r := Reopened1(instance), TheAnswer(instance);
    assert db.results[1 := r] == map[1 := r];
    var p := db.packages[1].(status := PkgImportAcknowledged, importResult := Some(1), external := r.external);
    assert db.packages[1 := p] == map[1 := p];
    assert SaveResult(db, r) == Some(db.(results := map[1 := r]));
    var b := db.(results := map[1 := r], sessions := db.sessions[r.session := Session(2, r.external)]);
    assert SaveSession(db.(results := map[1 := r]), r.session, db.sessions[r.session].(external := r.external))
        == Some(b);
    assert SavePackage(b, p) == Some(b.(packages := map[1 := p]));
  }

  /** The two epoch writes of that rollback. */
  lemma ClosesIncoming(instance: Id)
    ensures var db := Acknowledged1(instance);
      var a := SaveEpoch(db, db.epochs[1].(state := Cancelled, closed := true));
      a.Some? && SaveEpoch(a.value, db.epochs[0].(state := Running))
          == Some(db.(epochs := RolledBack1(instance).epochs))
  {
    var db := Acknowledged1(instance);
    NextIsNew(ActiveDb(instance));
    assert db.epochs[1].ordinal != db.epochs[0].ordinal;
    var a := db.(epochs := db.epochs[1 := db.epochs[1].(state := Cancelled, closed := true)]);
    assert SaveEpoch(db, db.epochs[1].(state := Cancelled, closed := true)) == Some(a);
    assert a.epochs[0 := db.epochs[0].(state := Running)] == RolledBack1(instance).epochs;
  }

  lemma RollsBack(instance: Id)
    ensures M.Rollback(Acknowledged1(instance), 1, true) == (RolledBack1(instance), M.Done)
  {
    hide M.Rollback;
    var db := Acknowledged1(instance);
    var p, tr, incoming, outgoing := db.packages[1], db.transition.value, db.epochs[1], db.epochs[0];
    assert SessionBound(db, p, incoming) && DurablyAcknowledged(db, p, incoming);
    ClosesIncoming(instance);
    var b := db.(epochs := RolledBack1(instance).epochs);
    var c := b.(packages := b.packages[1 := p.(status := PkgRolledBack)]);
    assert SavePackage(b, p.(status := PkgRolledBack)) == Some(c) && c.packages == RolledBack1(instance).packages;
    assert SaveTransition(c, tr.(state := RolledBack)) == Some(c.(transition := Some(tr.(state := RolledBack))));
    VerifiedRollback(db, 1, RolledBack1(instance));
  }

  lemma ClearAgain(instance: Id)
    ensures Clear(ActiveDb(instance), 1, 2, FirstEpoch(instance))
    ensures Clear(RolledBack1(instance), 5, 3, FirstEpoch(instance))
    ensures Authoritative(ActiveDb(instance)) == {0} && Authoritative(RolledBack1(instance)) == {0}
  {
    assert 0 in Authoritative(ActiveDb(instance)) && 0 in Authoritative(RolledBack1(instance));
  }

  /** The acknowledgement of handoff 1, recorded while handoff 5 is under way. */
  lemma GoesAstray(instance: Id)
    ensures var db, p, incoming := Imported5(instance), Reopened1(instance).packages[1], Reopened1(instance).epochs[1];
      && ImportAccepted(db, p, incoming, TheAnswer(instance))
        && AcknowledgeImport(db, p, incoming, TheAnswer(instance)).Some?
      && var after := AcknowledgeImport(db, p, incoming, TheAnswer(instance)).value;
      && AwaitsPromotion(after, 5) && 5 in after.packages && after.packages[5].importResult.None?
  {
    var db, p, incoming, r := Imported5(instance), Reopened1(instance).packages[1], Reopened1(instance).epochs[1],
        TheAnswer(instance);
    assert SaveResult(db, r) == Some(db.(results := db.results[1 := r]));
    var a := db.(results := db.results[1 := r]);
    assert r.session in a.sessions && a.sessions[r.session] == Session(2, r.external);
    var b := a.(sessions := a.sessions[r.session := Session(2, r.external)]);
    assert SaveSession(a, r.session, a.sessions[r.session].(external := r.external)) == Some(b);
    var q := p.(status := PkgImportAcknowledged, importResult := Some(r.id), external := r.external);
    assert SavePackage(b, q) == Some(b.(packages := b.packages[1 := q]));
  }

  // The run itself, stage by stage.

  function I(instance: Id): Input { Agree(TheAnswer(instance)) }

  /** The reconciliation that will be late. */
  function Late(instance: Id): Call {
    var db := Reopened1(instance);
    CompletionCall(Complete(db.packages[1], db.epochs[1], TheAnswer(instance), true))
  }

  lemma RunLast(w: World, actions: seq<Action>, a: Action)
    ensures Run(w, actions + [a]) == Step(Run(w, actions), a)
  {
    hide Step, StepCall;
    assert (actions + [a])[..|actions + [a]| - 1] == actions;
  }

  /** Handoff 1 has read the active epoch. */
  lemma StageOpen(instance: Id) returns (actions: seq<Action>)
    ensures Run(Start(instance), actions)
      == WithCall(World(ActiveDb(instance), map[], 1, []), HandoffCall(HandoffFrom(2, None, FirstEpoch(instance))))
  {
    hide Step, StepCall;
    var i, a := I(instance), World(ActiveDb(instance), map[], 1, []);
    Activates(instance);
    ClearAgain(instance);
    Opens(a, 2, 0, i);
    RunJoin(Start(instance), Activation(instance), Opening(1, 2, i));
    actions := Activation(instance) + Opening(1, 2, i);
  }

  /** Handoff 1 waits for the provider's answer. */
  lemma Stage0(instance: Id) returns (actions: seq<Action>)
    ensures var w, db := Run(Start(instance), actions), Imported1(instance);
      w.db == db && w.calls == map[1 := HandoffCall(HandoffImported(db.packages[1], db.epochs[1]))] && w.next == 2
  {
    hide Step, StepCall;
    actions := StageOpen(instance);
    var b, i := Run(Start(instance), actions), I(instance);
    ReachableEpochs(instance, actions);
    ClearAgain(instance);
    Halfway(b, 1, 2, FirstEpoch(instance), i);
    RunJoin(Start(instance), actions, Steps(1, Repeat(i, 6)));
    actions := actions + Steps(1, Repeat(i, 6));
  }

  lemma Stage1(instance: Id) returns (actions: seq<Action>)
    ensures var w := Run(Start(instance), actions); w.db == Imported1(instance) && w.calls == map[] && w.next == 2
  {
    hide StepCall;
    actions := Stage0(instance);
    RunLast(Start(instance), actions, Crash(1));
    actions := actions + [Crash(1)];
  }

  /** A reconciliation of handoff 1 brought to the point of recording its answer. */
  lemma Joins(instance: Id, actions: seq<Action>) returns (more: seq<Action>)
    requires var w := Run(Start(instance), actions); w.db == Imported1(instance) || w.db == Reopened1(instance)
    ensures var w, v := Run(Start(instance), actions), Run(Start(instance), more);
      v.db == Reopened1(instance) && v.next == w.next + 1 && v.calls == w.calls[w.next := Late(instance)]
  {
    hide StepCall;
    var i, w, r := I(instance), Run(Start(instance), actions), TheAnswer(instance);
    ReopensTwice(instance);
    RunLast(Start(instance), actions, Begin(ReconcileCall(Reconcile(1, Some(r)))));
    more := actions + [Begin(ReconcileCall(Reconcile(1, Some(r))))];
    var v := Run(Start(instance), more);
    Reopens(v, w.next, 1, r, i);
    RunJoin(Start(instance), more, Steps(w.next, Repeat(i, 4)));
    more := more + Steps(w.next, Repeat(i, 4));
    assert v.calls[w.next := Late(instance)] == w.calls[w.next := Late(instance)];
  }

  lemma AnswersAndCrashes(w: World, instance: Id)
    requires w.db == Reopened1(instance) && Stands(w, 3, Late(instance))
    ensures var v := Step(Step(w, Advance(3, I(instance))), Crash(3));
      v.db == Acknowledged1(instance) && v.calls == w.calls - {3} && v.next == w.next
  {
    hide StepFailover, StepHandoff, StepReconcile, StepRollback, StepRecovery, StepSession, StartImport, FailHandoff,
        AcknowledgeImport, Promote;
    AcknowledgesOnce(instance);
    var db := w.db;
    assert Step(w, Advance(3, I(instance)))
        == StepImportAnswer(w, 3, db.packages[1], db.epochs[1], TheAnswer(instance), true);
  }

  lemma Stage3(instance: Id) returns (actions: seq<Action>)
    ensures var w := Run(Start(instance), actions);
      w.db == Acknowledged1(instance) && w.calls == map[2 := Late(instance)] && w.next == 4
  {
    hide Step, StepCall;
    actions := Stage1(instance);
    actions := Joins(instance, actions);
    actions := Joins(instance, actions);
    var w, i := Run(Start(instance), actions), I(instance);
    AnswersAndCrashes(w, instance);
    RunLast(Start(instance), actions, Advance(3, i));
    RunLast(Start(instance), actions + [Advance(3, i)], Crash(3));
    actions := actions + [Advance(3, i)] + [Crash(3)];
    assert w.calls - {3} == map[2 := Late(instance)];
  }

  lemma Stage4(instance: Id) returns (actions: seq<Action>)
    ensures var w := Run(Start(instance), actions);
      w.db == RolledBack1(instance) && w.calls == map[2 := Late(instance)] && w.next == 5
  {
    hide StepCall, M.Rollback;
    actions := Stage3(instance);
    var w, i := Run(Start(instance), actions), I(instance);
    RunLast(Start(instance), actions, Begin(RollbackCall(Rollback(1))));
    actions := actions + [Begin(RollbackCall(Rollback(1)))];
    var v := Run(Start(instance), actions);
    RollbackAlone(v, 4, 1, Repeat(i, 8));
    RollsBack(instance);
    RunJoin(Start(instance), actions, Steps(4, Repeat(i, 8)));
    actions := actions + Steps(4, Repeat(i, 8));
    assert v.calls - {4} == map[2 := Late(instance)];
  }

  lemma Stage5(instance: Id) returns (actions: seq<Action>)
    ensures var w := Run(Start(instance), actions);
      && w.db == RolledBack1(instance) && Stands(w, 2, Late(instance))
      && Stands(w, 5, HandoffCall(HandoffFrom(3, None, FirstEpoch(instance))))
  {
    hide Step, StepCall;
    actions := Stage4(instance);
    var w, i := Run(Start(instance), actions), I(instance);
    ClearAgain(instance);
    Opens(w, 3, 0, i);
    RunJoin(Start(instance), actions, Opening(5, 3, i));
    actions := actions + Opening(5, 3, i);
  }

  lemma Stage6(instance: Id) returns (actions: seq<Action>)
    ensures var w := Run(Start(instance), actions);
      w.db == Imported5(instance) && 2 in w.calls && w.calls[2] == Late(instance)
  {
    hide Step, StepCall;
    actions := Stage5(instance);
    var v, i := Run(Start(instance), actions), I(instance);
    ClearAgain(instance);
    ReachableEpochs(instance, actions);
    Halfway(v, 5, 3, FirstEpoch(instance), i);
    RunJoin(Start(instance), actions, Steps(5, Repeat(i, 6)));
    actions := actions + Steps(5, Repeat(i, 6));
    assert 2 in v.calls - {5};
  }

  /** A reconciliation of handoff 1 that was overtaken by the end of that handoff and the import of
      handoff 5 acknowledges handoff 5, which nobody answered and which cannot be promoted. */
  lemma AcknowledgementGoesAstray(instance: Id) returns (actions: seq<Action>)
    ensures var db := Run(Start(instance), actions).db;
      && AwaitsPromotion(db, 5) && 5 in db.packages && db.packages[5].importResult.None?
      && M.Promotion(db, 5).None?
  {
    hide StepFailover, StepHandoff, StepReconcile, StepRollback, StepRecovery, StepSession, StartImport, FailHandoff,
        AcknowledgeImport, Promote;
    actions := Stage6(instance);
    var w, i := Run(Start(instance), actions), I(instance);
    GoesAstray(instance);
    var db := Reopened1(instance);
    assert Step(w, Advance(2, i)) == StepImportAnswer(w, 2, db.packages[1], db.epochs[1], TheAnswer(instance), true);
    RunLast(Start(instance), actions, Advance(2, i));
    actions := actions + [Advance(2, i)];
  }
}
