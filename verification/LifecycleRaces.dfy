/** Two manual handoffs at once. `_perform_handoff` reads the active epoch before it reserves the fence
    (src/overseer/agent_manager.py:1103-1129) and never reads it again, so an earlier handoff may have
    replaced that epoch in between. What the second handoff then does, exactly when it splits the
    authority, and a run in which it does. */
module LifecycleRaces {
  import opened Contracts
  import opened Fences
  import opened LifecycleStore
  import opened LifecycleRuns
  import opened LifecycleFence
  import opened LifecycleHistory
  import opened LifecycleSafety
  import opened LifecycleOrdinals
  import opened LifecycleSerial
  import E = FailoverEvidence

  // ----- A manual handoff that is left alone and acknowledged -----

  /** Nothing in the store is in the way of handoff `t`. */
  predicate Clear(db: Db, t: Id, provider: Id, outgoing: Epoch) {
    && db.fence.Open? && !db.Blocked() && Unused(db, t) && t !in db.epochs && outgoing.id in db.epochs
    && Derived(provider, NextOrdinal(db)) !in db.sessions
  }

  /** The provider's acknowledgement of the import. */
  predicate Acknowledges(db: Db, t: Id, provider: Id, r: Result) {
    && IsAcknowledged(r.state) && r.request == HandoffRequest(t) && r.instance == db.instance && r.provider == provider
    && r.session == Derived(provider, NextOrdinal(db)) && r.epoch == t && r.external.Some? && r.id !in db.results
  }

  function PlanOf(db: Db, t: Id, provider: Id, outgoing: Epoch): Plan {
    Plan(provider, Fenced(db.fence.generation, t), false, outgoing)
  }

  function ReservedDb(db: Db, t: Id): Db { db.(fence := Fenced(db.fence.generation, t)) }

  /** The database after the import transaction. */
  function ImportedDb(db: Db, t: Id, provider: Id, outgoing: Epoch): Db {
    var incoming := IncomingEpoch(db, t, provider);
    ReservedDb(db, t).(
      epochs := db.epochs[t := incoming],
      transition := Some(Transition(t, outgoing.id, t, Importing)),
      packages := db.packages[t := NewPackage(db, t, provider, Fenced(db.fence.generation, t), outgoing.id)],
      sessions := db.sessions[incoming.session := Session(provider, None)])
  }

  function AcknowledgedPackage(db: Db, t: Id, provider: Id, outgoing: Epoch, r: Result): Package {
    NewPackage(db, t, provider, Fenced(db.fence.generation, t), outgoing.id)
      .(status := PkgImportAcknowledged, importResult := Some(r.id), external := r.external)
  }

  /** The database after the acknowledgement transaction. */
  function AcknowledgedDb(db: Db, t: Id, provider: Id, outgoing: Epoch, r: Result): Db {
    var imported := ImportedDb(db, t, provider, outgoing);
    imported.(
      results := db.results[r.id := r],
      sessions := imported.sessions[r.session := Session(provider, r.external)],
      packages := imported.packages[t := AcknowledgedPackage(db, t, provider, outgoing, r)],
      transition := Some(Transition(t, outgoing.id, t, ImportAcknowledged)))
  }

  /** The database after the promotion transaction. */
  function PromotedDb(db: Db, t: Id, provider: Id, outgoing: Epoch, r: Result): Db
    requires outgoing.id in db.epochs
  {
    var acknowledged := AcknowledgedDb(db, t, provider, outgoing, r);
    acknowledged.(
      fence := Open(db.fence.generation + 1),
      epochs := db.epochs[outgoing.id :=
          db.epochs[outgoing.id].(state := Succeeded, closed := true, replacement := Some(t))]
                         [t := IncomingEpoch(db, t, provider).(state := Running)],
      packages := db.packages[t := AcknowledgedPackage(db, t, provider, outgoing, r).(status := PkgAcknowledged)],
      transition := Some(Transition(t, outgoing.id, t, Completed)))
  }

  lemma ImportCommits(db: Db, t: Id, provider: Id, outgoing: Epoch)
    requires EpochsOk(db.epochs) && Clear(db, t, provider, outgoing)
    ensures StartImport(ReservedDb(db, t), t, provider, Fenced(db.fence.generation, t), outgoing)
      == Some(ImportedDb(db, t, provider, outgoing))
  {
    NextIsNew(db);
    var db1, incoming := ReservedDb(db, t), IncomingEpoch(db, t, provider);
    assert NextOrdinal(db1) == NextOrdinal(db);
    var a := EnsureSession(db1, incoming.session, provider, None);
    var b := BeginTransition(a, Transition(t, outgoing.id, t, Importing)).value;
    var c := SavePackage(b, NewPackage(db1, t, provider, Fenced(db.fence.generation, t), outgoing.id)).value;
    assert SaveEpoch(c, incoming) == Some(ImportedDb(db, t, provider, outgoing));
  }

  lemma AcknowledgeCommits(db: Db, t: Id, provider: Id, outgoing: Epoch, r: Result)
    requires Clear(db, t, provider, outgoing) && Acknowledges(db, t, provider, r)
    ensures var imported := ImportedDb(db, t, provider, outgoing);
      && ImportAccepted(imported, imported.packages[t], imported.epochs[t], r)
      && AcknowledgeImport(imported, imported.packages[t], imported.epochs[t], r)
         == Some(AcknowledgedDb(db, t, provider, outgoing, r))
  {
    var imported := ImportedDb(db, t, provider, outgoing);
    var a := SaveResult(imported, r).value;
    var b := SaveSession(a, r.session, a.sessions[r.session].(external := r.external)).value;
    var c := SavePackage(b, AcknowledgedPackage(db, t, provider, outgoing, r)).value;
    assert SaveTransition(c, c.transition.value.(state := ImportAcknowledged))
        == Some(AcknowledgedDb(db, t, provider, outgoing, r));
  }

  /** Replacing an epoch by a newly numbered one passes the store's checks. */
  lemma ReplaceCommits(epochs: Epochs, gone: Id, closed: Epoch, incoming: Epoch)
    requires EpochsOk(epochs) && gone in epochs && incoming.id in epochs && incoming.id != gone
    requires closed == epochs[gone].(state := closed.state, closed := closed.closed, replacement := closed.replacement)
    requires incoming == epochs[incoming.id].(state := incoming.state)
    ensures PutEpoch(epochs, closed) == Some(epochs[gone := closed])
    ensures PutEpoch(epochs[gone := closed], incoming) == Some(epochs[gone := closed][incoming.id := incoming])
  {
  }

  lemma PromoteStepwise(db: Db, p: Package, tr: Transition, incoming: Epoch, outgoing: Epoch, epochs: Epochs)
    requires p.id in db.packages && db.packages[p.id] == p && db.transition == Some(tr)
    requires tr.state == ImportAcknowledged
    requires db.fence == Fenced(p.generation, p.owner)
    requires var a :=
        PutEpoch(db.epochs, outgoing.(state := Succeeded, closed := true, replacement := Some(incoming.id)));
      a.Some? && PutEpoch(a.value, incoming.(state := Running)) == Some(epochs)
    ensures Promote(db, p, tr, incoming, outgoing)
      == Some(db.(epochs := epochs, packages := db.packages[p.id := p.(status := PkgAcknowledged)],
                  transition := Some(tr.(state := Completed)), fence := Open(p.generation + 1)))
  {
  }

  lemma PromoteCommits(db: Db, t: Id, provider: Id, outgoing: Epoch, r: Result)
    requires EpochsOk(db.epochs) && Clear(db, t, provider, outgoing)
    ensures HasAcknowledgement(AcknowledgedDb(db, t, provider, outgoing, r), t)
    ensures PromoteStored(AcknowledgedDb(db, t, provider, outgoing, r), t)
        == Some(PromotedDb(db, t, provider, outgoing, r))
  {
    hide EvaluateFailover, ExecuteFailover, StartImport, FailHandoff, AcknowledgeImport, Promote, EpochsOk;
    var db3, after := AcknowledgedDb(db, t, provider, outgoing, r), PromotedDb(db, t, provider, outgoing, r);
    AcknowledgedEpochsOk(db, t, provider, outgoing, r);
    ReplaceCommits(db3.epochs, outgoing.id, after.epochs[outgoing.id], after.epochs[t]);
    assert db3.epochs[outgoing.id := after.epochs[outgoing.id]][t := after.epochs[t]] == after.epochs;
    PromoteStepwise(db3, db3.packages[t], db3.transition.value, db3.epochs[t], db3.epochs[outgoing.id], after.epochs);
    assert db3.packages[t := db3.packages[t].(status := PkgAcknowledged)] == after.packages;
  }

  lemma AcknowledgedEpochsOk(db: Db, t: Id, provider: Id, outgoing: Epoch, r: Result)
    requires EpochsOk(db.epochs) && t !in db.epochs
    ensures EpochsOk(AcknowledgedDb(db, t, provider, outgoing, r).epochs)
  {
    NextIsNew(db);
    forall e | e in db.epochs ensures Sound(db.epochs[t := IncomingEpoch(db, t, provider)], db.epochs[e]) {
      assert Sound(db.epochs, db.epochs[e]);
    }
  }

  // ----- Its steps -----

  /** Five steps take the handoff from its reading of the active epoch to its import. */
  lemma SetOff(w: World, t: Id, provider: Id, outgoing: Epoch, inputs: seq<Input>)
    requires Stands(w, t, HandoffCall(HandoffFrom(provider, None, outgoing))) && w.db.fence.Open?
    requires |inputs| == 5 && inputs[3].flag
    ensures var a := Step(w, Advance(t, inputs[0]));
      var b := Step(a, Advance(t, inputs[1]));
      var c := Step(b, Advance(t, inputs[2]));
      var d := Step(c, Advance(t, inputs[3]));
      Step(d, Advance(t, inputs[4]))
      == World(ReservedDb(w.db, t), w.calls[t := HandoffCall(HandoffImporting(PlanOf(w.db, t, provider, outgoing)))],
        w.next,
               w.trace + [Reserved(w.db.fence.generation, t)])
  {
    hide StepFailover, StepComplete, StepReconcile, StepRollback, StepRecovery, StepSession;
    var plan, db1 := PlanOf(w.db, t, provider, outgoing), ReservedDb(w.db, t);
    var trace := w.trace + [Reserved(w.db.fence.generation, t)];
    var a := Step(w, Advance(t, inputs[0]));
    assert a == World(db1, w.calls[t := HandoffCall(HandoffReserved(plan))], w.next, trace);
    var b := Step(a, Advance(t, inputs[1]));
    assert b == World(db1, w.calls[t := HandoffCall(HandoffDraining(plan))], w.next, trace);
    var c := Step(b, Advance(t, inputs[2]));
    assert c == World(db1, w.calls[t := HandoffCall(HandoffDrained(plan))], w.next, trace);
    var d := Step(c, Advance(t, inputs[3]));
    assert d == World(db1, w.calls[t := HandoffCall(HandoffCheckpointed(plan))], w.next, trace);
  }

  lemma ImportIs(w: World, t: Id, plan: Plan, i: Input)
    requires Stands(w, t, HandoffCall(HandoffImporting(plan)))
    ensures Step(w, Advance(t, i)) == StepImport(w, t, plan)
  {
    hide StepFailover, StepComplete, StepReconcile, StepRollback, StepRecovery, StepSession;
    hide StepImport, MoveExecution, Authoritative;
  }

  lemma ImportStep(w: World, db: Db, t: Id, provider: Id, outgoing: Epoch, i: Input)
    requires Stands(w, t, HandoffCall(HandoffImporting(PlanOf(db, t, provider, outgoing))))
    requires w.db == ReservedDb(db, t) && EpochsOk(db.epochs) && Clear(db, t, provider, outgoing)
    ensures var imported := ImportedDb(db, t, provider, outgoing);
      Step(w, Advance(t, i))
      == World(imported, w.calls[t := HandoffCall(HandoffImported(imported.packages[t], imported.epochs[t]))], w.next,
               w.trace + [Imported(db.fence.generation, t)])
  {
    hide Step, StartImport, EpochsOk;
    ImportCommits(db, t, provider, outgoing);
    ImportIs(w, t, PlanOf(db, t, provider, outgoing), i);
  }

  lemma AnswerStep(w: World, db: Db, t: Id, provider: Id, outgoing: Epoch, i: Input, j: Input)
    requires Clear(db, t, provider, outgoing) && Acknowledges(db, t, provider, i.result) && t in w.calls
    requires var imported := ImportedDb(db, t, provider, outgoing);
      w.db == imported && w.calls[t] == HandoffCall(HandoffImported(imported.packages[t], imported.epochs[t]))
    ensures Step(Step(w, Advance(t, i)), Advance(t, j))
      == World(AcknowledgedDb(db, t, provider, outgoing, i.result), w.calls[t := CompletionCall(Promotion(t))],
        w.next, w.trace)
  {
    hide StepFailover, StepReconcile, StepRollback, StepRecovery, StepSession, AcknowledgeImport, ImportAccepted;
    AcknowledgeCommits(db, t, provider, outgoing, i.result);
    var p, incoming := w.db.packages[t], w.db.epochs[t];
    var a := Goto(w, t, CompletionCall(Complete(p, incoming, i.result, false)));
    assert Step(w, Advance(t, i)) == a;
    assert Step(a, Advance(t, j)) == StepImportAnswer(a, t, p, incoming, i.result, false);
  }

  // ----- The whole handoff -----

  /** Fifteen steps whose checkpoint is usable and whose import is acknowledged. */
  predicate Succeeds(db: Db, t: Id, provider: Id, inputs: seq<Input>) {
    |inputs| == 15 && inputs[3].flag && Acknowledges(db, t, provider, inputs[6].result)
  }

  lemma FiveFirst(w: World, t: Id, inputs: seq<Input>)
    requires |inputs| >= 5
    ensures var a := Step(w, Advance(t, inputs[0]));
      var b := Step(a, Advance(t, inputs[1]));
      var c := Step(b, Advance(t, inputs[2]));
      var d := Step(c, Advance(t, inputs[3]));
      Run(w, Steps(t, inputs)) == Run(Step(d, Advance(t, inputs[4])), Steps(t, inputs[5..]))
  {
    hide Step, StepCall;
    ThreeFirst(w, t, inputs);
    var c := Step(Step(Step(w, Advance(t, inputs[0])), Advance(t, inputs[1])), Advance(t, inputs[2]));
    AdvanceFirst(c, t, inputs[3..]);
    AdvanceFirst(Step(c, Advance(t, inputs[3])), t, inputs[4..]);
    assert inputs[3..][1..] == inputs[4..] && inputs[4..][1..] == inputs[5..];
  }

  lemma AcknowledgedOk(db: Db, t: Id, provider: Id, outgoing: Epoch, r: Result, next: Id)
    requires DbOk(db, next) && t < next && Clear(db, t, provider, outgoing)
    ensures DbOk(AcknowledgedDb(db, t, provider, outgoing, r), next)
  {
    var after := AcknowledgedDb(db, t, provider, outgoing, r);
    forall p | p in after.packages ensures p < next && PackageOk(after, p) { if p != t { assert PackageOk(db, p); } }
    forall e | e in after.executions ensures e < next && ExecutionOk(after, e) { assert ExecutionOk(db, e); }
  }

  lemma PreparedHere(db: Db, t: Id, provider: Id, outgoing: Epoch, r: Result, next: Id)
    requires EpochsOk(db.epochs) && DbOk(db, next) && t < next && Clear(db, t, provider, outgoing)
    requires Acknowledges(db, t, provider, r)
    ensures Prepared(AcknowledgedDb(db, t, provider, outgoing, r), next, t)
    ensures CurrentInCompletion(AcknowledgedDb(db, t, provider, outgoing, r), Promotion(t))
  {
    hide DbOk, EpochsOk, Promote;
    AcknowledgedOk(db, t, provider, outgoing, r, next);
    PromoteCommits(db, t, provider, outgoing, r);
    AcknowledgedEpochsOk(db, t, provider, outgoing, r);
  }

  /** A manual handoff that is left alone from its reading of the active epoch on replaces whatever the
      store now holds under that id, and puts its own epoch in charge. */
  lemma HandoffRuns(w: World, t: Id, provider: Id, outgoing: Epoch, inputs: seq<Input>)
    requires Invariant(w) && OrderInv(w) && Stands(w, t, HandoffCall(HandoffFrom(provider, None, outgoing)))
    requires Clear(w.db, t, provider, outgoing) && Succeeds(w.db, t, provider, inputs)
    ensures Run(w, Steps(t, inputs)).db == PromotedDb(w.db, t, provider, outgoing, inputs[6].result)
    ensures Run(w, Steps(t, inputs)).calls - {t} == w.calls - {t}
  {
    hide Step, StepCall, Run, EpochsOk, DbOk, PromotedDb;
    ToImport(w, t, provider, outgoing, inputs);
    FromImport(ImportingWorld(w, t, provider, outgoing), w.db, t, provider, outgoing, inputs[5..]);
  }

  /** The world in which handoff `t` is about to import. */
  function ImportingWorld(w: World, t: Id, provider: Id, outgoing: Epoch): World {
    World(ReservedDb(w.db, t), w.calls[t := HandoffCall(HandoffImporting(PlanOf(w.db, t, provider, outgoing)))], w.next,
          w.trace + [Reserved(w.db.fence.generation, t)])
  }

  lemma ToImport(w: World, t: Id, provider: Id, outgoing: Epoch, inputs: seq<Input>)
    requires Stands(w, t, HandoffCall(HandoffFrom(provider, None, outgoing))) && w.db.fence.Open?
    requires |inputs| >= 5 && inputs[3].flag
    ensures Run(w, Steps(t, inputs)) == Run(ImportingWorld(w, t, provider, outgoing), Steps(t, inputs[5..]))
  {
    hide Step, StepCall;
    SetOff(w, t, provider, outgoing, inputs[..5]);
    FiveFirst(w, t, inputs);
  }

  /** The world in which the import of handoff `t` has just been acknowledged. */
  function AcknowledgedWorld(w: World, db: Db, t: Id, provider: Id, outgoing: Epoch, r: Result): World {
    World(AcknowledgedDb(db, t, provider, outgoing, r), w.calls[t := CompletionCall(Promotion(t))], w.next,
          w.trace + [Imported(db.fence.generation, t)])
  }

  lemma ToAcknowledgement(w: World, db: Db, t: Id, provider: Id, outgoing: Epoch, inputs: seq<Input>)
    requires Stands(w, t, HandoffCall(HandoffImporting(PlanOf(db, t, provider, outgoing))))
    requires w.db == ReservedDb(db, t) && EpochsOk(db.epochs)
    requires Clear(db, t, provider, outgoing) && |inputs| >= 3 && Acknowledges(db, t, provider, inputs[1].result)
    ensures Run(w, Steps(t, inputs))
      == Run(AcknowledgedWorld(w, db, t, provider, outgoing, inputs[1].result), Steps(t, inputs[3..]))
  {
    hide Step, StepCall;
    var imported := ImportedDb(db, t, provider, outgoing);
    ImportStep(w, db, t, provider, outgoing, inputs[0]);
    var a := World(imported, w.calls[t := HandoffCall(HandoffImported(imported.packages[t], imported.epochs[t]))],
        w.next,
                   w.trace + [Imported(db.fence.generation, t)]);
    AnswerStep(a, db, t, provider, outgoing, inputs[1], inputs[2]);
    assert a.calls[t := CompletionCall(Promotion(t))] == w.calls[t := CompletionCall(Promotion(t))];
    ThreeFirst(w, t, inputs);
  }

  lemma FromImport(w: World, db: Db, t: Id, provider: Id, outgoing: Epoch, inputs: seq<Input>)
    requires Stands(w, t, HandoffCall(HandoffImporting(PlanOf(db, t, provider, outgoing))))
    requires w.db == ReservedDb(db, t) && EpochsOk(db.epochs) && DbOk(db, w.next) && t < w.next
    requires Clear(db, t, provider, outgoing) && |inputs| == 10 && Acknowledges(db, t, provider, inputs[1].result)
    ensures Run(w, Steps(t, inputs)).db == PromotedDb(db, t, provider, outgoing, inputs[1].result)
    ensures Run(w, Steps(t, inputs)).calls - {t} == w.calls - {t}
  {
    hide Step, StepCall, Run, EpochsOk, DbOk, PromotedDb;
    var r := inputs[1].result;
    ToAcknowledgement(w, db, t, provider, outgoing, inputs);
    FromAcknowledgement(AcknowledgedWorld(w, db, t, provider, outgoing, r), db, t, provider, outgoing, r, inputs[3..]);
  }

  lemma FromAcknowledgement(w: World, db: Db, t: Id, provider: Id, outgoing: Epoch, r: Result, inputs: seq<Input>)
    requires Stands(w, t, CompletionCall(Promotion(t))) && |inputs| == 7
    requires w.db == AcknowledgedDb(db, t, provider, outgoing, r) && EpochsOk(db.epochs) && DbOk(db, w.next)
    requires t < w.next
    requires Clear(db, t, provider, outgoing) && Acknowledges(db, t, provider, r)
    ensures Run(w, Steps(t, inputs)).db == PromotedDb(db, t, provider, outgoing, r)
    ensures Run(w, Steps(t, inputs)).calls - {t} == w.calls - {t}
  {
    hide Step, StepCall;
    PreparedHere(db, t, provider, outgoing, r, w.next);
    PromoteCommits(db, t, provider, outgoing, r);
    PromotionFromHere(w, t, inputs);
  }

  lemma PromotionFromHere(w: World, t: Id, inputs: seq<Input>)
    requires Stands(w, t, CompletionCall(Promotion(t))) && |inputs| == 7
    requires Prepared(w.db, w.next, t) && CurrentInCompletion(w.db, Promotion(t))
    ensures Some(Run(w, Steps(t, inputs)).db) == PromoteStored(w.db, t)
    ensures Run(w, Steps(t, inputs)).calls - {t} == w.calls - {t}
  {
    hide Step, StepCall;
    PromotionRuns(w, t, t, inputs);
  }

  // ----- Exactly when it keeps one authority -----

  lemma PromotedAuthority(db: Db, t: Id, provider: Id, outgoing: Epoch, r: Result)
    requires Clear(db, t, provider, outgoing)
    ensures Authoritative(PromotedDb(db, t, provider, outgoing, r)) == Authoritative(db) - {outgoing.id} + {t}
  {
    var after := PromotedDb(db, t, provider, outgoing, r);
    assert after.packages[t].incomingEpoch == t;
    forall e | e != t ensures e in IncomingIds(after) <==> e in IncomingIds(db) {
      assert forall p | p in db.packages :: p in after.packages && after.packages[p] == db.packages[p];
    }
    assert t in after.epochs && IsOpen(after, t);
  }

  predicate OneAuthoritative(db: Db) { forall a, b | a in Authoritative(db) && b in Authoritative(db) :: a == b }

  /** The handoff leaves one authoritative epoch exactly when, at the moment it reserves the fence, the
      epoch it read earlier is still the only authoritative one (or none is). */
  lemma OneAuthorityExactly(w: World, t: Id, provider: Id, outgoing: Epoch, inputs: seq<Input>)
    requires Invariant(w) && OrderInv(w) && Stands(w, t, HandoffCall(HandoffFrom(provider, None, outgoing)))
    requires Clear(w.db, t, provider, outgoing) && Succeeds(w.db, t, provider, inputs)
    ensures OneAuthoritative(Run(w, Steps(t, inputs)).db) <==> Authoritative(w.db) <= {outgoing.id}
  {
    hide Step, StepCall, FenceInv, Invariant, OrderInv;
    HandoffRuns(w, t, provider, outgoing, inputs);
    PromotedAuthority(w.db, t, provider, outgoing, inputs[6].result);
    var before, after := Authoritative(w.db), Authoritative(Run(w, Steps(t, inputs)).db);
    assert t in after && t !in before;
    assert forall e | e in before :: e == outgoing.id || e in after;
  }

  // ----- A run with two authorities -----

  lemma RunThree(w: World, a: Action, b: Action, c: Action)
    ensures Run(w, [a, b, c]) == Step(Step(Step(w, a), b), c)
  {
    hide Step, StepCall;
    RunFirst(w, a, [b, c]);
    RunFirst(Step(w, a), b, [c]);
    RunFirst(Step(Step(w, a), b), c, []);
    assert [a, b, c] == [a] + [b, c] && [b, c] == [b] + [c] && [c] == [c] + [];
  }

  /** An environment that answers with `r` and agrees with everything else. */
  function Agree(r: Result): Input {
    Input(r, true, E.Evidence(None, [], None, [], map[], {}, map[], {}), 0, 0, Some(0), [])
  }

  function Answer(db: Db, t: Id, provider: Id): Result {
    Result(t, HandoffRequest(t), db.instance, Derived(provider, NextOrdinal(db)), t, provider, Running, Some(t),
        None, true)
  }

  function Agreement(db: Db, t: Id, provider: Id): (inputs: seq<Input>)
    ensures |inputs| == 15 && forall k | 0 <= k < 15 :: inputs[k] == Agree(Answer(db, t, provider))
  {
    seq(15, k => Agree(Answer(db, t, provider)))
  }

  function FirstEpoch(instance: Id): Epoch {
    Epoch(0, Derived(1, NextOrdinal(Empty(instance))), 1, NextOrdinal(Empty(instance)), Running, false, None)
  }

  function ActiveDb(instance: Id): Db {
    Empty(instance).(epochs := map[0 := FirstEpoch(instance)],
                     sessions := map[FirstEpoch(instance).session := Session(1, Some(0))])
  }

  function Activation(instance: Id): seq<Action> {
    var i := Agree(Answer(Empty(instance), 0, 1));
    [Begin(SessionCall(Activate(1))), Advance(0, i), Advance(0, i)]
  }

  lemma Activates(instance: Id)
    ensures Run(Start(instance), Activation(instance)) == World(ActiveDb(instance), map[], 1, [])
  {
    hide StepFailover, StepHandoff, StepComplete, StepReconcile, StepRollback, StepRecovery;
    var w, todo, i := Start(instance), Activation(instance), Agree(Answer(Empty(instance), 0, 1));
    var a := World(w.db, map[0 := SessionCall(Activate(1))], 1, []);
    var b := World(w.db, map[0 := SessionCall(ActivateStarted(1, Some(0)))], 1, []);
    assert Step(w, todo[0]) == a;
    assert Authoritative(w.db) == {};
    assert Step(a, todo[1]) == b;
    assert OpenEpoch(w.db, 0, 1, None, Some(0), Running) == Some(ActiveDb(instance));
    assert Step(b, todo[2]) == World(ActiveDb(instance), map[], 1, []);
    RunThree(w, todo[0], todo[1], todo[2]);
  }

  function Opening(t: Id, provider: Id, i: Input): seq<Action> {
    [Begin(HandoffCall(Handoff(provider, None))), Advance(t, i), Advance(t, i)]
  }

  /** A world with one more call. */
  function WithCall(w: World, c: Call): World { w.(calls := w.calls[w.next := c], next := w.next + 1) }

  lemma OpeningSteps(w: World, provider: Id, e: Id, i: Input)
    requires e in w.db.epochs && Authoritative(w.db) == {e} && IsAcknowledged(w.db.epochs[e].state)
    requires !w.db.Blocked() && w.db.fence.Open?
    ensures Step(Step(Step(w, Begin(HandoffCall(Handoff(provider, None)))), Advance(w.next, i)), Advance(w.next, i))
      == WithCall(w, HandoffCall(HandoffFrom(provider, None, w.db.epochs[e])))
  {
    hide Step, StepCall;
    var b := WithCall(w, HandoffCall(HandoffUnblocked(provider, None)));
    FindsUnblocked(w, provider, i);
    ReadsActive(b, w.next, provider, e, i);
    assert b.calls[w.next := HandoffCall(HandoffFrom(provider, None, w.db.epochs[e]))]
      == w.calls[w.next := HandoffCall(HandoffFrom(provider, None, w.db.epochs[e]))];
  }

  /** A manual handoff up to its reading of the active epoch. */
  lemma Opens(w: World, provider: Id, e: Id, i: Input)
    requires e in w.db.epochs && Authoritative(w.db) == {e} && IsAcknowledged(w.db.epochs[e].state)
    requires !w.db.Blocked() && w.db.fence.Open?
    ensures Run(w, Opening(w.next, provider, i))
        == WithCall(w, HandoffCall(HandoffFrom(provider, None, w.db.epochs[e])))
  {
    hide Step, StepCall;
    RunThree(w, Begin(HandoffCall(Handoff(provider, None))), Advance(w.next, i), Advance(w.next, i));
    OpeningSteps(w, provider, e, i);
  }

  lemma FindsUnblocked(w: World, provider: Id, i: Input)
    requires !w.db.Blocked() && w.db.fence.Open?
    ensures Step(Step(w, Begin(HandoffCall(Handoff(provider, None)))), Advance(w.next, i))
      == WithCall(w, HandoffCall(HandoffUnblocked(provider, None)))
  {
    hide StepFailover, StepComplete, StepReconcile, StepRollback, StepRecovery, StepSession;
    var a := WithCall(w, HandoffCall(Handoff(provider, None)));
    assert Step(w, Begin(HandoffCall(Handoff(provider, None)))) == a;
    assert a.calls[w.next := HandoffCall(HandoffUnblocked(provider, None))]
      == w.calls[w.next := HandoffCall(HandoffUnblocked(provider, None))];
  }

  lemma ReadsActive(w: World, t: Id, provider: Id, e: Id, i: Input)
    requires e in w.db.epochs && Authoritative(w.db) == {e} && IsAcknowledged(w.db.epochs[e].state)
    requires Stands(w, t, HandoffCall(HandoffUnblocked(provider, None)))
    ensures Step(w, Advance(t, i)) == Goto(w, t, HandoffCall(HandoffFrom(provider, None, w.db.epochs[e])))
  {
    hide StepFailover, StepComplete, StepReconcile, StepRollback, StepRecovery, StepSession;
    forall x | x in w.db.epochs && Authoritative(w.db) == {x} ensures x == e { assert x in {e}; }
  }

  /** The start of the race: calls 1 and 2 have both read epoch 0 as the active one. */
  function BothRead(instance: Id): World {
    var from := FirstEpoch(instance);
    World(ActiveDb(instance),
        map[1 := HandoffCall(HandoffFrom(2, None, from)), 2 := HandoffCall(HandoffFrom(3, None, from))], 3, [])
  }

  function Preparation(instance: Id): seq<Action> {
    var i := Agree(Answer(Empty(instance), 0, 1));
    Activation(instance) + Opening(1, 2, i) + Opening(2, 3, i)
  }

  lemma Prepares(instance: Id)
    ensures Run(Start(instance), Preparation(instance)) == BothRead(instance)
  {
    hide Step, StepCall;
    var i, db := Agree(Answer(Empty(instance), 0, 1)), ActiveDb(instance);
    Activates(instance);
    assert Authoritative(db) == {0};
    var a := World(db, map[], 1, []);
    Opens(a, 2, 0, i);
    var b := World(db, map[1 := HandoffCall(HandoffFrom(2, None, FirstEpoch(instance)))], 2, []);
    Opens(b, 3, 0, i);
    RunJoin(Start(instance), Activation(instance), Opening(1, 2, i));
    RunJoin(Start(instance), Activation(instance) + Opening(1, 2, i), Opening(2, 3, i));
  }

  /** The second of the two finds nothing in its way. */
  lemma StillClear(instance: Id)
    ensures var w, from := BothRead(instance), FirstEpoch(instance);
      var db := PromotedDb(w.db, 2, 3, from, Answer(w.db, 2, 3));
      Clear(w.db, 2, 3, from) && Clear(db, 1, 2, from) && Acknowledges(w.db, 2, 3, Answer(w.db, 2, 3))
      && Acknowledges(db, 1, 2, Answer(db, 1, 2))
  {
  }

  /** Call 2 runs to its end, then call 1, which read the active epoch before. */
  lemma SecondHandoff(instance: Id, actions: seq<Action>, w: World)
    requires w == Run(Start(instance), actions)
    requires w.db == PromotedDb(BothRead(instance).db, 2, 3, FirstEpoch(instance), Answer(BothRead(instance).db, 2, 3))
    requires Stands(w, 1, HandoffCall(HandoffFrom(2, None, FirstEpoch(instance)))) && 2 in Authoritative(w.db)
    ensures {1, 2} <= Authoritative(Run(w, Steps(1, Agreement(w.db, 1, 2))).db)
  {
    hide Step, StepCall, FenceInv, Invariant, OrderInv;
    ReachableOk(instance, actions);
    RunKeepsOrder(instance, actions);
    StillClear(instance);
    HandoffRuns(w, 1, 2, FirstEpoch(instance), Agreement(w.db, 1, 2));
    PromotedAuthority(w.db, 1, 2, FirstEpoch(instance), Answer(w.db, 1, 2));
  }

  lemma FirstHandoff(instance: Id)
    ensures var w := BothRead(instance);
      var v := Run(w, Steps(2, Agreement(w.db, 2, 3)));
      && v.db == PromotedDb(w.db, 2, 3, FirstEpoch(instance), Answer(w.db, 2, 3))
      && 2 in Authoritative(v.db) && v.calls - {2} == w.calls - {2}
  {
    hide Step, StepCall, FenceInv, Invariant, OrderInv;
    Prepares(instance);
    ReachableOk(instance, Preparation(instance));
    RunKeepsOrder(instance, Preparation(instance));
    var w, from := BothRead(instance), FirstEpoch(instance);
    StillClear(instance);
    HandoffRuns(w, 2, 3, from, Agreement(w.db, 2, 3));
    PromotedAuthority(w.db, 2, 3, from, Answer(w.db, 2, 3));
  }

  /** One epoch, two handoffs: both incoming epochs end up authoritative. */
  lemma HandoffsSplitAuthority(instance: Id) returns (actions: seq<Action>)
    ensures {1, 2} <= Authoritative(Run(Start(instance), actions).db)
  {
    hide Step, StepCall;
    var w := BothRead(instance);
    FirstHandoff(instance);
    Prepares(instance);
    var first := Preparation(instance) + Steps(2, Agreement(w.db, 2, 3));
    RunJoin(Start(instance), Preparation(instance), Steps(2, Agreement(w.db, 2, 3)));
    var v := Run(Start(instance), first);
    assert 1 in v.calls - {2};
    SecondHandoff(instance, first, v);
    RunJoin(Start(instance), first, Steps(1, Agreement(v.db, 1, 2)));
    actions := first + Steps(1, Agreement(v.db, 1, 2));
  }
}
