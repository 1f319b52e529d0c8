/** A verified rollback undoes an acknowledged handoff: the outgoing epoch is in charge again, and no
    other record of the instance is lost. */
module LifecycleUndo {
  import opened Contracts
  import opened Fences
  import opened LifecycleStore
  import opened LifecycleRuns
  import opened LifecycleFence
  import opened LifecycleHistory
  import opened LifecycleSafety
  import opened LifecycleOrdinals
  import opened LifecycleSerial
  import opened LifecycleAlone
  import M = AgentManager

  /** The epochs after the rollback: the outgoing one running, the incoming one closed. */
  function UndoneEpochs(db: Db, tr: Transition): Epochs
    requires tr.incoming in db.epochs && tr.outgoing in db.epochs
  {
    db.epochs[tr.incoming := db.epochs[tr.incoming].(state := Cancelled, closed := true)]
             [tr.outgoing := db.epochs[tr.outgoing].(state := Running)]
  }

  function UndoneDb(db: Db, h: Id): Db
    requires HasAcknowledgement(db, h)
  {
    db.(epochs := UndoneEpochs(db, db.transition.value),
        packages := db.packages[h := db.packages[h].(status := PkgRolledBack)],
        transition := Some(db.transition.value.(state := RolledBack)),
        fence := Open(db.fence.generation + 1))
  }

  lemma UndoWrites(epochs: Epochs, incoming: Epoch, outgoing: Epoch)
    requires EpochsOk(epochs) && incoming.id in epochs && outgoing.id in epochs && incoming.id != outgoing.id
    requires incoming == epochs[incoming.id].(state := incoming.state, closed := incoming.closed)
    requires outgoing == epochs[outgoing.id].(state := outgoing.state)
    ensures PutEpoch(epochs, incoming) == Some(epochs[incoming.id := incoming])
    ensures PutEpoch(epochs[incoming.id := incoming], outgoing)
        == Some(epochs[incoming.id := incoming][outgoing.id := outgoing])
  {
  }

  /** In every acknowledged state the checks of a verified rollback pass and its transaction commits. */
  lemma RollbackCommits(db: Db, next: Id, h: Id)
    requires SerialDb(db) && DbOk(db, next) && EpochsOk(db.epochs) && AwaitsPromotion(db, h)
    ensures HasAcknowledgement(db, h) && M.Rollback(db, h, true) == (UndoneDb(db, h), M.Done)
  {
    hide RollBack, M.Rollback;
    AcknowledgedCommits(db, next, h);
    assert PackageOk(db, h);
    var p, tr := db.packages[h], db.transition.value;
    var incoming, outgoing := db.epochs[tr.incoming], db.epochs[tr.outgoing];
    assert DurablyAcknowledged(db, p, incoming);
    UndoWrites(db.epochs, incoming.(state := Cancelled, closed := true), outgoing.(state := Running));
    UndoStepwise(db, p, tr, incoming, outgoing, UndoneEpochs(db, tr));
    VerifiedRollback(db, h, UndoneDb(db, h));
  }

  lemma UndoStepwise(db: Db, p: Package, tr: Transition, incoming: Epoch, outgoing: Epoch, epochs: Epochs)
    requires p.id in db.packages && db.packages[p.id] == p && db.transition == Some(tr)
    requires tr.state == ImportAcknowledged
    requires db.fence.Fenced? && !incoming.closed
    requires var a := PutEpoch(db.epochs, incoming.(state := Cancelled, closed := true));
      a.Some? && PutEpoch(a.value, outgoing.(state := Running)) == Some(epochs)
    ensures RollBack(db, p, tr, incoming, outgoing, db.fence)
      == Some(db.(epochs := epochs, packages := db.packages[p.id := p.(status := PkgRolledBack)],
                  transition := Some(tr.(state := RolledBack)), fence := Open(db.fence.generation + 1)))
  {
  }

  /** After it exactly the outgoing epoch is authoritative, and it is the only open one. */
  lemma UndoneAuthority(db: Db, next: Id, h: Id)
    requires SerialDb(db) && DbOk(db, next) && EpochsOk(db.epochs) && AwaitsPromotion(db, h)
    ensures HasAcknowledgement(db, h)
    ensures var after, outgoing := UndoneDb(db, h), db.transition.value.outgoing;
      && Authoritative(after) == {outgoing}
      && (forall e | e in after.epochs && !after.epochs[e].closed :: e == outgoing)
      && after.epochs[outgoing] == db.epochs[outgoing].(state := Running)
  {
    AcknowledgedCommits(db, next, h);
    assert db.transition.value.outgoing in Authoritative(UndoneDb(db, h));
  }

  lemma RollbackBegins(w: World, v: World, h: Id)
    requires v == Step(w, Begin(RollbackCall(Rollback(h))))
    ensures v.db == w.db && w.next in v.calls && v.calls[w.next] == RollbackCall(Rollback(h))
  {
    hide StepCall;
  }

  lemma RollbackFromRest(w: World, v: World, h: Id, inputs: seq<Input>)
    requires SerialDb(w.db) && DbOk(w.db, w.next) && EpochsOk(w.db.epochs) && AwaitsPromotion(w.db, h)
    requires v == Step(w, Begin(RollbackCall(Rollback(h)))) && |inputs| == 8 && inputs[5].flag
    ensures HasAcknowledgement(w.db, h) && Run(v, Steps(w.next, inputs)).db == UndoneDb(w.db, h)
  {
    hide Step, StepCall;
    RollbackCommits(w.db, w.next, h);
    RollbackBegins(w, v, h);
    RollbackAlone(v, w.next, h, inputs);
  }

  /** From every acknowledged state at rest, a rollback whose cancellation is verified ends the handoff,
      opens the next generation and puts the outgoing epoch back in charge, running as it was. */
  lemma RollbackCompletes(instance: Id, actions: seq<Action>, h: Id, inputs: seq<Input>)
    requires var w := SerialRun(instance, actions);
      w.calls == map[] && AwaitsPromotion(w.db, h) && |inputs| == 8 && inputs[5].flag
    ensures var w := SerialRun(instance, actions);
      var db, outgoing := Run(Step(w, Begin(RollbackCall(Rollback(h)))), Steps(w.next, inputs)).db,
          w.db.transition.value.outgoing;
      && db.transition == Some(w.db.transition.value.(state := RolledBack))
        && db.fence == Open(w.db.fence.generation + 1)
      && Authoritative(db) == {outgoing} && outgoing in db.epochs && outgoing in w.db.epochs
      && db.epochs[outgoing] == w.db.epochs[outgoing].(state := Running)
  {
    hide Step, StepCall, SerialDb, EpochsOk, Authoritative;
    SerialOk(instance, actions);
    var w := SerialRun(instance, actions);
    RollbackFromRest(w, Step(w, Begin(RollbackCall(Rollback(h)))), h, inputs);
    UndoneAuthority(w.db, w.next, h);
  }
}
