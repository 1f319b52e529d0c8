/** A reconciliation, rollback or failover recovery that nobody interrupts does in steps what the
    manager's method does in one go, on every database. */
module LifecycleAlone {
  import opened Contracts
  import opened Fences
  import opened LifecycleStore
  import opened LifecycleRuns
  import M = AgentManager

  function OrElse(after: Option<Db>, db: Db): Db { if after.Some? then after.value else db }

  /** The world after call `t` alone has taken these steps. */
  ghost function Alone(w: World, t: Id, inputs: seq<Input>): World
    decreases |inputs|
  {
    if inputs == [] then w else Alone(Step(w, Advance(t, inputs[0])), t, inputs[1..])
  }

  lemma {:induction false} AloneIsRun(w: World, t: Id, inputs: seq<Input>)
    ensures Alone(w, t, inputs) == Run(w, Steps(t, inputs))
    decreases |inputs|
  {
    hide Step, StepCall;
    if inputs == [] { assert Steps(t, inputs) == []; }
    else {
      AdvanceFirst(w, t, inputs);
      AloneIsRun(Step(w, Advance(t, inputs[0])), t, inputs[1..]);
    }
  }

  /** The same with one input throughout, which is enough for a call that asks each question once. */
  ghost function Settle(w: World, t: Id, i: Input, n: nat): World
    decreases n
  {
    if n == 0 then w else Settle(Step(w, Advance(t, i)), t, i, n - 1)
  }

  lemma {:induction false} SettleIsAlone(w: World, t: Id, i: Input, n: nat)
    ensures Settle(w, t, i, n) == Alone(w, t, Repeat(i, n))
    decreases n
  {
    hide Step, StepCall;
    if n > 0 {
      assert Repeat(i, n)[1..] == Repeat(i, n - 1);
      SettleIsAlone(Step(w, Advance(t, i)), t, i, n - 1);
    }
  }

  lemma {:induction false} EndedStays(w: World, t: Id, inputs: seq<Input>)
    requires t !in w.calls
    ensures Alone(w, t, inputs) == w
    decreases |inputs|
  {
    hide StepCall;
    if inputs != [] { EndedStays(w, t, inputs[1..]); }
  }

  lemma {:induction false} SettledStays(w: World, t: Id, i: Input, n: nat)
    requires t !in w.calls
    ensures Settle(w, t, i, n) == w
    decreases n
  {
    hide StepCall;
    if n > 0 { SettledStays(w, t, i, n - 1); }
  }

  /** The first step, when it ends the call. */
  lemma Ends(w: World, v: World, t: Id, inputs: seq<Input>)
    requires inputs != [] && v == Step(w, Advance(t, inputs[0])) && t !in v.calls
    ensures Alone(w, t, inputs) == v
  {
    hide Step, StepCall;
    EndedStays(v, t, inputs[1..]);
  }

  lemma EndsSame(w: World, v: World, t: Id, i: Input, n: nat)
    requires n > 0 && v == Step(w, Advance(t, i)) && t !in v.calls
    ensures Settle(w, t, i, n) == v
  {
    hide Step, StepCall;
    SettledStays(v, t, i, n - 1);
  }

  // ----- Promotion, from its last step back to its first -----

  lemma ReadyAlone(w: World, t: Id, p: Package, tr: Transition, incoming: Epoch, outgoing: Epoch, inputs: seq<Input>)
    requires Stands(w, t, CompletionCall(PromotionReady(p, tr, incoming, outgoing))) && |inputs| >= 1
    ensures Alone(w, t, inputs).db == OrElse(Promote(w.db, p, tr, incoming, outgoing), w.db)
  {
    hide StepFailover, StepHandoff, StepReconcile, StepRollback, StepRecovery, StepSession;
    Ends(w, StepPromote(w, t, p, tr, incoming, outgoing), t, inputs);
  }

  lemma SessionAlone(w: World, t: Id, p: Package, tr: Transition, incoming: Epoch, outgoing: Epoch, inputs: seq<Input>)
    requires Stands(w, t, CompletionCall(PromotionSession(p, tr, incoming, outgoing))) && |inputs| >= 2
    ensures Alone(w, t, inputs).db
      == if ResultBound(w.db, p, incoming) then OrElse(Promote(w.db, p, tr, incoming, outgoing), w.db) else w.db
  {
    hide StepFailover, StepHandoff, StepReconcile, StepRollback, StepRecovery, StepSession;
    if ResultBound(w.db, p, incoming) {
      ReadyAlone(Goto(w, t, CompletionCall(PromotionReady(p, tr, incoming, outgoing))), t, p, tr, incoming, outgoing,
          inputs[1..]);
    } else { Ends(w, End(w, t), t, inputs); }
  }

  predicate Bound(db: Db, p: Package, incoming: Epoch) { SessionBound(db, p, incoming) && ResultBound(db, p, incoming) }

  lemma FromAlone(w: World, t: Id, p: Package, tr: Transition, incoming: Epoch, outgoing: Epoch, inputs: seq<Input>)
    requires Stands(w, t, CompletionCall(PromotionFrom(p, tr, incoming, outgoing))) && |inputs| >= 3
    ensures Alone(w, t, inputs).db
      == if Bound(w.db, p, incoming) then OrElse(Promote(w.db, p, tr, incoming, outgoing), w.db) else w.db
  {
    hide StepFailover, StepHandoff, StepReconcile, StepRollback, StepRecovery, StepSession;
    if SessionBound(w.db, p, incoming) {
      SessionAlone(Goto(w, t, CompletionCall(PromotionSession(p, tr, incoming, outgoing))), t, p, tr, incoming,
          outgoing, inputs[1..]);
    } else { Ends(w, End(w, t), t, inputs); }
  }

  /** The promotion once package and transition are read. */
  function PromotionAfter(db: Db, p: Package, tr: Transition): Db {
    if tr.incoming !in db.epochs || tr.outgoing !in db.epochs || !Bound(db, p, db.epochs[tr.incoming]) then db
    else OrElse(Promote(db, p, tr, db.epochs[tr.incoming], db.epochs[tr.outgoing]), db)
  }

  lemma ToAlone(w: World, t: Id, p: Package, tr: Transition, incoming: Epoch, inputs: seq<Input>)
    requires Stands(w, t, CompletionCall(PromotionTo(p, tr, incoming))) && |inputs| >= 4
    requires tr.incoming in w.db.epochs && incoming == w.db.epochs[tr.incoming]
    ensures Alone(w, t, inputs).db == PromotionAfter(w.db, p, tr)
  {
    hide StepFailover, StepHandoff, StepReconcile, StepRollback, StepRecovery, StepSession;
    if tr.outgoing in w.db.epochs {
      var outgoing := w.db.epochs[tr.outgoing];
      FromAlone(Goto(w, t, CompletionCall(PromotionFrom(p, tr, incoming, outgoing))), t, p, tr, incoming, outgoing,
          inputs[1..]);
    } else { Ends(w, End(w, t), t, inputs); }
  }

  lemma AtAlone(w: World, t: Id, p: Package, tr: Transition, inputs: seq<Input>)
    requires Stands(w, t, CompletionCall(PromotionAt(p, tr))) && |inputs| >= 5
    ensures Alone(w, t, inputs).db == PromotionAfter(w.db, p, tr)
  {
    hide StepFailover, StepHandoff, StepReconcile, StepRollback, StepRecovery, StepSession;
    if tr.incoming in w.db.epochs {
      var incoming := w.db.epochs[tr.incoming];
      ToAlone(Goto(w, t, CompletionCall(PromotionTo(p, tr, incoming))), t, p, tr, incoming, inputs[1..]);
    } else { Ends(w, End(w, t), t, inputs); }
  }

  lemma OfAlone(w: World, t: Id, p: Package, inputs: seq<Input>)
    requires Stands(w, t, CompletionCall(PromotionOf(p))) && |inputs| >= 6
    ensures Alone(w, t, inputs).db
      == if w.db.transition.Some? && w.db.transition.value.state == ImportAcknowledged
         then PromotionAfter(w.db, p, w.db.transition.value) else w.db
  {
    hide StepFailover, StepHandoff, StepReconcile, StepRollback, StepRecovery, StepSession;
    if w.db.transition.Some? && w.db.transition.value.state == ImportAcknowledged {
      AtAlone(Goto(w, t, CompletionCall(PromotionAt(p, w.db.transition.value))), t, p, w.db.transition.value,
          inputs[1..]);
    } else { Ends(w, End(w, t), t, inputs); }
  }

  lemma PromotionAlone(w: World, t: Id, h: Id, inputs: seq<Input>)
    requires Stands(w, t, CompletionCall(Promotion(h))) && |inputs| >= 7
    ensures Alone(w, t, inputs).db == OrElse(M.Promotion(w.db, h), w.db)
  {
    hide StepFailover, StepHandoff, StepReconcile, StepRollback, StepRecovery, StepSession;
    if h in w.db.packages {
      OfAlone(Goto(w, t, CompletionCall(PromotionOf(w.db.packages[h]))), t, w.db.packages[h], inputs[1..]);
    } else { Ends(w, End(w, t), t, inputs); }
  }

  // ----- Completion -----

  lemma CompletionAlone(w: World, t: Id, p: Package, incoming: Epoch, r: Result, quarantine: bool, inputs: seq<Input>)
    requires Stands(w, t, CompletionCall(Complete(p, incoming, r, quarantine))) && |inputs| >= 8
    ensures Alone(w, t, inputs).db == M.Completion(w.db, p, incoming, r, quarantine).0
  {
    hide StepFailover, StepHandoff, StepReconcile, StepRollback, StepRecovery, StepSession;
    var v := StepImportAnswer(w, t, p, incoming, r, quarantine);
    assert v == Step(w, Advance(t, inputs[0]));
    if ImportAccepted(w.db, p, incoming, r) && AcknowledgeImport(w.db, p, incoming, r).Some? {
      PromotionAlone(v, t, p.id, inputs[1..]);
    } else { Ends(w, v, t, inputs); }
  }

  // ----- Reconciliation -----

  lemma OpenAlone(w: World, t: Id, p: Package, tr: Transition, incoming: Epoch, r: Result, inputs: seq<Input>)
    requires Stands(w, t, ReconcileCall(ReconcileOpen(p, tr, incoming, r))) && |inputs| >= 9
    ensures Alone(w, t, inputs).db
      == if StartReconcile(w.db, p, tr).None? then w.db
         else M.Completion(StartReconcile(w.db, p, tr).value, p.(status := PkgReconciling), incoming, r, true).0
  {
    hide StepFailover, StepHandoff, StepComplete, StepRollback, StepRecovery, StepSession;
    var v := StepReopen(w, t, p, tr, incoming, r);
    assert v == Step(w, Advance(t, inputs[0]));
    if StartReconcile(w.db, p, tr).Some? {
      CompletionAlone(v, t, p.(status := PkgReconciling), incoming, r, true, inputs[1..]);
    } else { Ends(w, v, t, inputs); }
  }

  lemma DurableAlone(w: World, t: Id, p: Package, r: Result, inputs: seq<Input>)
    requires Stands(w, t, ReconcileCall(ReconcileDurable(p, r))) && |inputs| >= 8
    ensures Alone(w, t, inputs).db
      == if p.importResult.Some? && p.importResult.value in w.db.results
        && SameBindings(r, w.db.results[p.importResult.value])
         then OrElse(M.Promotion(w.db, p.id), w.db) else w.db
  {
    hide StepFailover, StepHandoff, StepRollback, StepRecovery, StepSession;
    if p.importResult.Some? && p.importResult.value in w.db.results
        && SameBindings(r, w.db.results[p.importResult.value]) {
      PromotionAlone(Goto(w, t, CompletionCall(Promotion(p.id))), t, p.id, inputs[1..]);
    } else { Ends(w, End(w, t), t, inputs); }
  }

  /** The reconciliation once package and transition are read. */
  function ReconciliationAfter(db: Db, p: Package, tr: Transition, answer: Option<Result>): Db {
    if p.incomingEpoch !in db.epochs || db.epochs[p.incomingEpoch].closed then db
    else if tr.state == ImportAcknowledged then
      if answer.Some? && !(p.importResult.Some? && p.importResult.value in db.results
                           && SameBindings(answer.value, db.results[p.importResult.value])) then db
      else OrElse(M.Promotion(db, p.id), db)
    else if answer.None? || StartReconcile(db, p, tr).None? then db
    else
      M.Completion(StartReconcile(db, p, tr).value, p.(status := PkgReconciling), db.epochs[p.incomingEpoch],
          answer.value, true).0
  }

  lemma ReconcileAtAlone(w: World, t: Id, p: Package, tr: Transition, answer: Option<Result>, inputs: seq<Input>)
    requires Stands(w, t, ReconcileCall(ReconcileAt(p, tr, answer))) && |inputs| >= 10
    ensures Alone(w, t, inputs).db == ReconciliationAfter(w.db, p, tr, answer)
  {
    hide StepFailover, StepHandoff, StepComplete, StepRollback, StepRecovery, StepSession;
    var v := Step(w, Advance(t, inputs[0]));
    if p.incomingEpoch !in w.db.epochs || w.db.epochs[p.incomingEpoch].closed { Ends(w, v, t, inputs); }
    else if tr.state == ImportAcknowledged {
      if answer.Some? {
        DurableAlone(v, t, p, answer.value, inputs[1..]);
      } else {
        PromotionAlone(v, t, p.id, inputs[1..]);
      }
    } else if answer.None? { Ends(w, v, t, inputs); }
    else {
      OpenAlone(v, t, p, tr, w.db.epochs[p.incomingEpoch], answer.value, inputs[1..]);
    }
  }

  lemma ReadingIsReconciliation(db: Db, h: Id, answer: Option<Result>)
    requires M.Awaits(db, h)
    ensures ReconciliationAfter(db, db.packages[h], db.transition.value, answer) == M.Reconciliation(db, h, answer).0
  {
  }

  lemma ReconcileSteps(w: World, t: Id, h: Id, answer: Option<Result>, inputs: seq<Input>)
    requires Stands(w, t, ReconcileCall(Reconcile(h, answer))) && |inputs| >= 12
    ensures Alone(w, t, inputs).db == M.Reconciliation(w.db, h, answer).0
  {
    hide StepFailover, StepHandoff, StepComplete, StepRollback, StepRecovery, StepSession;
    var v := Step(w, Advance(t, inputs[0]));
    if h !in w.db.packages { Ends(w, v, t, inputs); }
    else {
      var p := w.db.packages[h];
      assert v == Goto(w, t, ReconcileCall(ReconcileOf(p, answer)));
      if !M.Awaits(w.db, h) { Ends(v, End(w, t), t, inputs[1..]); }
      else {
        var tr := w.db.transition.value;
        var u := Goto(v, t, ReconcileCall(ReconcileAt(p, tr, answer)));
        assert Step(v, Advance(t, inputs[1..][0])) == u;
        ReconcileAtAlone(u, t, p, tr, answer, inputs[1..][1..]);
        ReadingIsReconciliation(w.db, h, answer);
      }
    }
  }

  // ----- Rollback -----

  lemma UndoAlone(w: World, t: Id, p: Package, tr: Transition, outgoing: Epoch, incoming: Epoch, op: Fence,
      inputs: seq<Input>)
    requires Stands(w, t, RollbackCall(RollbackCancelled(p, tr, outgoing, incoming, op))) && |inputs| >= 2
    requires w.db.fence == op
    ensures Alone(w, t, inputs).db == OrElse(RollBack(w.db, p, tr, incoming, outgoing, op), w.db)
    ensures Alone(w, t, inputs).calls == w.calls - {t} && Alone(w, t, inputs).next == w.next
  {
    hide StepFailover, StepHandoff, StepComplete, StepReconcile, StepRecovery, StepSession, StartReconcile,
        BlockRollback, RollBack;
    var v := Goto(w, t, RollbackCall(RollbackReady(p, tr, outgoing, incoming, op)));
    assert Step(w, Advance(t, inputs[0])) == v;
    assert Step(v, Advance(t, inputs[1..][0])) == StepRollBack(v, t, p, tr, outgoing, incoming, op);
    Ends(v, StepRollBack(v, t, p, tr, outgoing, incoming, op), t, inputs[1..]);
  }

  lemma BlockAlone(w: World, t: Id, p: Package, tr: Transition, incoming: Epoch, inputs: seq<Input>)
    requires Stands(w, t, RollbackCall(RollbackBlocked(p, tr, incoming))) && |inputs| >= 1
    ensures Alone(w, t, inputs).db == OrElse(BlockRollback(w.db, p, tr, incoming), w.db)
    ensures Alone(w, t, inputs).calls == w.calls - {t} && Alone(w, t, inputs).next == w.next
  {
    hide StepFailover, StepHandoff, StepComplete, StepReconcile, StepRecovery, StepSession;
    Ends(w, StepBlock(w, t, p, tr, incoming), t, inputs);
  }

  lemma HeldAlone(w: World, t: Id, p: Package, tr: Transition, outgoing: Epoch, incoming: Epoch, inputs: seq<Input>)
    requires Stands(w, t, RollbackCall(RollbackHeld(p, tr, outgoing, incoming, w.db.fence))) && |inputs| >= 3
    ensures Alone(w, t, inputs).db
      == if SessionBound(w.db, p, incoming) && DurablyAcknowledged(w.db, p, incoming) && inputs[0].flag
         then OrElse(RollBack(w.db, p, tr, incoming, outgoing, w.db.fence), w.db)
         else OrElse(BlockRollback(w.db, p, tr, incoming), w.db)
    ensures Alone(w, t, inputs).calls == w.calls - {t} && Alone(w, t, inputs).next == w.next
  {
    hide StepFailover, StepHandoff, StepComplete, StepReconcile, StepRecovery, StepSession, StartReconcile,
        BlockRollback, RollBack;
    if SessionBound(w.db, p, incoming) && DurablyAcknowledged(w.db, p, incoming) && inputs[0].flag {
      UndoAlone(Goto(w, t, RollbackCall(RollbackCancelled(p, tr, outgoing, incoming, w.db.fence))), t, p, tr,
          outgoing, incoming,
                w.db.fence, inputs[1..]);
    } else { BlockAlone(Goto(w, t, RollbackCall(RollbackBlocked(p, tr, incoming))), t, p, tr, incoming, inputs[1..]); }
  }

  /** The rollback once package and transition are read. */
  function RollbackAfter(db: Db, p: Package, tr: Transition, verified: bool): Db {
    if !IsOpen(db, tr.outgoing) || tr.incoming !in db.epochs || OperationFor(db, p).None? then db
    else
      var incoming, outgoing := db.epochs[tr.incoming], db.epochs[tr.outgoing];
      if SessionBound(db, p, incoming) && DurablyAcknowledged(db, p, incoming) && verified
      then OrElse(RollBack(db, p, tr, incoming, outgoing, db.fence), db)
      else OrElse(BlockRollback(db, p, tr, incoming), db)
  }

  lemma RollbackToAlone(w: World, t: Id, p: Package, tr: Transition, outgoing: Epoch, incoming: Epoch,
      inputs: seq<Input>)
    requires Stands(w, t, RollbackCall(RollbackTo(p, tr, outgoing, incoming))) && |inputs| >= 4
    requires IsOpen(w.db, tr.outgoing) && outgoing == w.db.epochs[tr.outgoing]
    requires tr.incoming in w.db.epochs && incoming == w.db.epochs[tr.incoming]
    ensures Alone(w, t, inputs).db == RollbackAfter(w.db, p, tr, inputs[1].flag)
    ensures Alone(w, t, inputs).calls == w.calls - {t} && Alone(w, t, inputs).next == w.next
  {
    hide StepFailover, StepHandoff, StepComplete, StepReconcile, StepRecovery, StepSession;
    if OperationFor(w.db, p).Some? {
      HeldAlone(Goto(w, t, RollbackCall(RollbackHeld(p, tr, outgoing, incoming, w.db.fence))), t, p, tr, outgoing,
          incoming, inputs[1..]);
    } else { Ends(w, End(w, t), t, inputs); }
  }

  lemma RollbackFromAlone(w: World, t: Id, p: Package, tr: Transition, outgoing: Epoch, inputs: seq<Input>)
    requires Stands(w, t, RollbackCall(RollbackFrom(p, tr, outgoing))) && |inputs| >= 5
    requires IsOpen(w.db, tr.outgoing) && outgoing == w.db.epochs[tr.outgoing]
    ensures Alone(w, t, inputs).db == RollbackAfter(w.db, p, tr, inputs[2].flag)
    ensures Alone(w, t, inputs).calls == w.calls - {t} && Alone(w, t, inputs).next == w.next
  {
    hide StepFailover, StepHandoff, StepComplete, StepReconcile, StepRecovery, StepSession;
    if tr.incoming in w.db.epochs {
      var incoming := w.db.epochs[tr.incoming];
      RollbackToAlone(Goto(w, t, RollbackCall(RollbackTo(p, tr, outgoing, incoming))), t, p, tr, outgoing, incoming,
          inputs[1..]);
    } else { Ends(w, End(w, t), t, inputs); }
  }

  lemma RollbackAtAlone(w: World, t: Id, p: Package, tr: Transition, inputs: seq<Input>)
    requires Stands(w, t, RollbackCall(RollbackAt(p, tr))) && |inputs| >= 6
    ensures Alone(w, t, inputs).db == RollbackAfter(w.db, p, tr, inputs[3].flag)
    ensures Alone(w, t, inputs).calls == w.calls - {t} && Alone(w, t, inputs).next == w.next
  {
    hide StepFailover, StepHandoff, StepComplete, StepReconcile, StepRecovery, StepSession;
    if IsOpen(w.db, tr.outgoing) {
      var outgoing := w.db.epochs[tr.outgoing];
      RollbackFromAlone(Goto(w, t, RollbackCall(RollbackFrom(p, tr, outgoing))), t, p, tr, outgoing, inputs[1..]);
    } else { Ends(w, End(w, t), t, inputs); }
  }

  lemma ReadingIsRollback(db: Db, h: Id, verified: bool)
    requires M.Awaits(db, h)
    ensures RollbackAfter(db, db.packages[h], db.transition.value, verified) == M.Rollback(db, h, verified).0
  {
  }

  /** A rollback whose checks pass and whose transaction commits. */
  lemma VerifiedRollback(db: Db, h: Id, after: Db)
    requires M.Awaits(db, h) && IsOpen(db, db.transition.value.outgoing) && db.transition.value.incoming in db.epochs
    requires OperationFor(db, db.packages[h]).Some?
    requires SessionBound(db, db.packages[h], db.epochs[db.transition.value.incoming])
    requires DurablyAcknowledged(db, db.packages[h], db.epochs[db.transition.value.incoming])
    requires var tr := db.transition.value;
      RollBack(db, db.packages[h], tr, db.epochs[tr.incoming], db.epochs[tr.outgoing], db.fence) == Some(after)
    ensures M.Rollback(db, h, true) == (after, M.Done)
  {
    hide RollBack, BlockRollback, SessionBound, DurablyAcknowledged, OperationFor, IsOpen;
  }

  lemma RollbackSteps(w: World, t: Id, h: Id, inputs: seq<Input>)
    requires Stands(w, t, RollbackCall(Rollback(h))) && |inputs| >= 8
    ensures Alone(w, t, inputs).db == M.Rollback(w.db, h, inputs[5].flag).0
    ensures Alone(w, t, inputs).calls == w.calls - {t} && Alone(w, t, inputs).next == w.next
  {
    hide StepFailover, StepHandoff, StepComplete, StepReconcile, StepRecovery, StepSession;
    var v := Step(w, Advance(t, inputs[0]));
    if h !in w.db.packages { Ends(w, v, t, inputs); }
    else {
      var p := w.db.packages[h];
      assert v == Goto(w, t, RollbackCall(RollbackOf(p)));
      if !M.Awaits(w.db, h) { Ends(v, End(w, t), t, inputs[1..]); }
      else {
        var tr := w.db.transition.value;
        var u := Goto(v, t, RollbackCall(RollbackAt(p, tr)));
        assert Step(v, Advance(t, inputs[1..][0])) == u;
        RollbackAtAlone(u, t, p, tr, inputs[1..][1..]);
        ReadingIsRollback(w.db, h, inputs[5].flag);
      }
    }
  }

  // ----- Failover recovery -----

  lemma FinalAlone(w: World, t: Id, x: Execution, op: Fence, resume: Option<Id>, i: Input, n: nat, called: bool)
    requires Stands(w, t, RecoveryCall(RecoveryFinal(x, op, resume))) && n >= 1
    ensures Settle(w, t, i, n).db == M.Finishing(w.db, x, op, resume, called).db
  {
    hide StepFailover, StepHandoff, StepComplete, StepReconcile, StepRollback, StepSession;
    EndsSame(w, StepFinal(w, t, x, op, resume), t, i, n);
  }

  lemma AnsweredAlone(w: World, t: Id, x: Execution, op: Fence, a: Attempt, r: Result, called: bool, i: Input, n: nat)
    requires Stands(w, t, RecoveryCall(RecoveryAnswered(x, op, a, r, called))) && n >= 2
    ensures Settle(w, t, i, n).db == M.Answering(w.db, x, op, a, r, called).db
  {
    hide StepFailover, StepHandoff, StepComplete, StepReconcile, StepRollback, StepSession;
    var v := StepRecord(w, t, x, op, a, r, called);
    assert v == Step(w, Advance(t, i));
    if RecoveryValid(w.db, x, r, if called then Some(a.id) else None) && RecordRecovery(w.db, x.id, a.id, r).Some? {
      FinalAlone(v, t, x, op, Some(r.id), i, n - 1, called);
    } else { EndsSame(w, v, t, i, n); }
  }

  lemma AttemptOpenAlone(w: World, t: Id, x: Execution, op: Fence, a: Attempt, i: Input, n: nat)
    requires Stands(w, t, RecoveryCall(RecoveryAttemptOpen(x, op, a))) && n >= 4 && a.id !in w.db.outcomes
    ensures Settle(w, t, i, n).db == M.Attempting(w.db, x, op, a, i.result).db
  {
    hide StepFailover, StepHandoff, StepComplete, StepReconcile, StepRollback, StepSession;
    var v := StepPermit(w, t, x, op, a, i);
    assert v == Step(w, Advance(t, i));
    if a.state == Pending && MoveAttempt(w.db, x.id, Pending, ExternalStarted).None? { EndsSame(w, v, t, i, n); }
    else {
      if a.state == Pending { MayCallAlone(v, t, x, op, a.(state := ExternalStarted), i, n - 1); }
      else { AnsweredAlone(v, t, x, op, a, i.result, false, i, n - 1); }
    }
  }

  lemma MayCallAlone(w: World, t: Id, x: Execution, op: Fence, a: Attempt, i: Input, n: nat)
    requires Stands(w, t, RecoveryCall(RecoveryMayCall(x, op, a))) && n >= 3
    ensures Settle(w, t, i, n).db == M.Answering(w.db, x, op, a, i.result, true).db
  {
    hide StepFailover, StepHandoff, StepComplete, StepReconcile, StepRollback, StepSession;
    var v := StepCallRecover(w, t, x, op, a, i);
    assert v == Step(w, Advance(t, i));
    AnsweredAlone(v, t, x, op, a, i.result, true, i, n - 1);
  }

  lemma AttemptAlone(w: World, t: Id, x: Execution, op: Fence, a: Attempt, i: Input, n: nat)
    requires Stands(w, t, RecoveryCall(RecoveryAttempt(x, op, a))) && n >= 5
    ensures Settle(w, t, i, n).db == M.Attempting(w.db, x, op, a, i.result).db
  {
    hide StepFailover, StepHandoff, StepComplete, StepReconcile, StepRollback, StepSession, ClaimRecovery,
        RecoveryValid, RecordRecovery, FinalizeRecovery, MoveAttempt;
    var v := StepReplay(w, t, x, op, a);
    assert v == Step(w, Advance(t, i));
    if t in v.calls {
      if a.id !in w.db.outcomes { AttemptOpenAlone(v, t, x, op, a, i, n - 1); }
      else { FinalAlone(v, t, x, op, Some(w.db.outcomes[a.id].result), i, n - 1, false); }
    } else { EndsSame(w, v, t, i, n); }
  }

  /** What follows once the outgoing epoch is known to be bound. */
  function BoundAfter(db: Db, t: Id, x: Execution, op: Fence, r: Result): Db {
    if x.state == Draining then
      var saved := if RecoveryValid(db, x, r, None) then SaveResult(db, r) else None;
      if saved.Some? then M.Finishing(saved.value, x, op, Some(r.id), false).db else db
    else if x.state == BlockedPreimport then
      var claimed := ClaimRecovery(db, t, x.id);
      if claimed.None? then db
      else M.Attempting(claimed.value, x.(state := Recovering), op, Attempt(t, x.id, Pending), r).db
    else if x.id in db.attempts then M.Attempting(db, x, op, db.attempts[x.id], r).db
    else db
  }

  lemma InspectedAlone(w: World, t: Id, x: Execution, op: Fence, r: Result, i: Input, n: nat)
    requires Stands(w, t, RecoveryCall(RecoveryInspected(x, op, r))) && n >= 2
    ensures Settle(w, t, i, n).db
      == if SaveResult(w.db, r).Some? then M.Finishing(SaveResult(w.db, r).value, x, op, Some(r.id), false).db else w.db
  {
    hide StepFailover, StepHandoff, StepComplete, StepReconcile, StepRollback, StepSession;
    var v := Step(w, Advance(t, i));
    if SaveResult(w.db, r).Some? {
      FinalAlone(v, t, x, op, Some(r.id), i, n - 1, false);
    } else { EndsSame(w, v, t, i, n); }
  }

  lemma BoundAlone(w: World, t: Id, x: Execution, op: Fence, i: Input, n: nat)
    requires Stands(w, t, RecoveryCall(RecoveryBound(x, op))) && n >= 6
    ensures Settle(w, t, i, n).db == BoundAfter(w.db, t, x, op, i.result)
  {
    hide StepFailover, StepHandoff, StepComplete, StepReconcile, StepRollback, StepSession, ClaimRecovery,
        RecoveryValid, RecordRecovery, FinalizeRecovery, MoveAttempt;
    var v := StepClaim(w, t, x, op, i);
    assert v == Step(w, Advance(t, i));
    if t !in v.calls { EndsSame(w, v, t, i, n); }
    else if x.state == Draining { InspectedAlone(v, t, x, op, i.result, i, n - 1); }
    else if x.state == BlockedPreimport {
      AttemptAlone(v, t, x.(state := Recovering), op, Attempt(t, x.id, Pending), i, n - 1);
    }
    else { AttemptAlone(v, t, x, op, w.db.attempts[x.id], i, n - 1); }
  }

  /** What follows once no handoff is known to be under way. */
  function UnblockedAfter(db: Db, t: Id, x: Execution, op: Fence, r: Result): Db {
    if !M.OutgoingBound(db, x) then db
    else if x.state == ExReserved then M.Finishing(db, x, op, None, false).db
    else BoundAfter(db, t, x, op, r)
  }

  lemma RecoveryUnblockedAlone(w: World, t: Id, x: Execution, op: Fence, i: Input, n: nat)
    requires Stands(w, t, RecoveryCall(RecoveryUnblocked(x, op))) && n >= 7
    ensures Settle(w, t, i, n).db == UnblockedAfter(w.db, t, x, op, i.result)
  {
    hide StepFailover, StepHandoff, StepComplete, StepReconcile, StepRollback, StepSession;
    var v := Step(w, Advance(t, i));
    if !M.OutgoingBound(w.db, x) { EndsSame(w, v, t, i, n); }
    else if x.state == ExReserved { FinalAlone(v, t, x, op, None, i, n - 1, false); }
    else { BoundAlone(v, t, x, op, i, n - 1); }
  }

  lemma RecoveryHeldAlone(w: World, t: Id, x: Execution, op: Fence, i: Input, n: nat)
    requires Stands(w, t, RecoveryCall(RecoveryHeld(x, op))) && n >= 8
    ensures Settle(w, t, i, n).db == if w.db.Blocked() then w.db else UnblockedAfter(w.db, t, x, op, i.result)
  {
    hide StepFailover, StepHandoff, StepComplete, StepReconcile, StepRollback, StepSession;
    var v := Step(w, Advance(t, i));
    if w.db.Blocked() { EndsSame(w, v, t, i, n); } else { RecoveryUnblockedAlone(v, t, x, op, i, n - 1); }
  }

  lemma RecoveryOfAlone(w: World, t: Id, x: Execution, i: Input, n: nat)
    requires Stands(w, t, RecoveryCall(RecoveryOf(x))) && n >= 9
    ensures var op := Fenced(x.generation, x.owner);
      Settle(w, t, i, n).db == if w.db.fence != op || w.db.Blocked() then w.db
      else UnblockedAfter(w.db, t, x, op, i.result)
  {
    hide StepFailover, StepHandoff, StepComplete, StepReconcile, StepRollback, StepSession;
    var v := Step(w, Advance(t, i));
    if w.db.fence != Fenced(x.generation, x.owner) { EndsSame(w, v, t, i, n); }
    else { RecoveryHeldAlone(v, t, x, w.db.fence, i, n - 1); }
  }

  lemma RecoverySteps(w: World, t: Id, e: Id, i: Input, n: nat)
    requires Stands(w, t, RecoveryCall(Recovery(e))) && n >= 10
    ensures Settle(w, t, i, n).db == M.FailoverRecovery(w.db, t, e, i.result).db
  {
    hide StepFailover, StepHandoff, StepComplete, StepReconcile, StepRollback, StepSession, ClaimRecovery,
        RecoveryValid, RecordRecovery, FinalizeRecovery, MoveAttempt;
    var v := Step(w, Advance(t, i));
    if e in w.db.executions && IsRecoverable(w.db.executions[e].state) {
      RecoveryOfAlone(v, t, w.db.executions[e], i, n - 1);
    } else { EndsSame(w, v, t, i, n); }
  }

  // ----- The theorems -----

  /** `reconcile_handoff` in steps is `reconcile_handoff` in one go. */
  lemma ReconcileAlone(w: World, t: Id, h: Id, answer: Option<Result>, inputs: seq<Input>)
    requires Stands(w, t, ReconcileCall(Reconcile(h, answer))) && |inputs| >= 12
    ensures Run(w, Steps(t, inputs)).db == M.Reconciliation(w.db, h, answer).0
  {
    hide Step, StepCall;
    AloneIsRun(w, t, inputs);
    ReconcileSteps(w, t, h, answer, inputs);
  }

  /** `rollback_handoff` in steps is `rollback_handoff` in one go. */
  lemma RollbackAlone(w: World, t: Id, h: Id, inputs: seq<Input>)
    requires Stands(w, t, RollbackCall(Rollback(h))) && |inputs| >= 8
    ensures Run(w, Steps(t, inputs)).db == M.Rollback(w.db, h, inputs[5].flag).0
    ensures Run(w, Steps(t, inputs)).calls == w.calls - {t} && Run(w, Steps(t, inputs)).next == w.next
  {
    hide Step, StepCall;
    AloneIsRun(w, t, inputs);
    RollbackSteps(w, t, h, inputs);
  }

  /** `recover_failover_execution` in steps is `recover_failover_execution` in one go. */
  lemma RecoveryAlone(w: World, t: Id, e: Id, i: Input, n: nat)
    requires Stands(w, t, RecoveryCall(Recovery(e))) && n >= 10
    ensures Run(w, Steps(t, Repeat(i, n))).db == M.FailoverRecovery(w.db, t, e, i.result).db
  {
    hide Step, StepCall;
    SettleIsAlone(w, t, i, n);
    AloneIsRun(w, t, Repeat(i, n));
    RecoverySteps(w, t, e, i, n);
  }
}
