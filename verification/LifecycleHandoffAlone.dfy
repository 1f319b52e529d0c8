/** A handoff, manual or by a failover, that nobody interrupts does in steps what the manager's method does in
    one go: on every database, for every checkpoint and every answer. */
module LifecycleHandoffAlone {
  import opened Contracts
  import opened Fences
  import opened LifecycleStore
  import opened LifecycleRuns
  import opened LifecycleAlone
  import M = AgentManager

  /** The worlds that call `t` alone goes through, as far as its handoff goes: each step of the handoff leads
      to the next world, and an ended call leaves everything as it is. */
  ghost predicate Goes(ws: seq<World>, t: Id, inputs: seq<Input>) {
    && |ws| == |inputs| + 1
    && (forall k | 0 <= k < |inputs| && t !in ws[k].calls :: ws[k + 1] == ws[k])
    && (forall k | 0 <= k < |inputs| && t in ws[k].calls && ws[k].calls[t].HandoffCall? ::
          ws[k + 1] == StepHandoff(ws[k], t, ws[k].calls[t].handoff, inputs[k]))
  }

  /** A completion that still has eight steps ends as the method does. */
  ghost predicate Completes(ws: seq<World>, t: Id, inputs: seq<Input>) {
    forall k, p, incoming, r, quarantine | 0 <= k < |ws| - 8
        && Stands(ws[k], t, CompletionCall(Complete(p, incoming, r, quarantine))) ::
      Last(ws) == M.Completion(ws[k].db, p, incoming, r, quarantine).0
  }

  /** The database at the end. */
  function Last(ws: seq<World>): Db { if |ws| > 0 then ws[|ws| - 1].db else Empty(0) }

  lemma {:induction false} EndsThere(ws: seq<World>, t: Id, inputs: seq<Input>, k: nat)
    requires Goes(ws, t, inputs) && k <= |inputs| && t !in ws[k].calls
    ensures Last(ws) == ws[k].db
    decreases |inputs| - k
  {
    if k < |inputs| { EndsThere(ws, t, inputs, k + 1); }
  }

  /** Call `t` is at `s` in the world of index `k`, with enough steps left. */
  ghost predicate At(ws: seq<World>, t: Id, inputs: seq<Input>, k: nat, s: HandoffStage, left: nat) {
    Goes(ws, t, inputs) && Completes(ws, t, inputs) && k + left <= |inputs| && Stands(ws[k], t, HandoffCall(s))
  }

  // ----- From the import to the end -----

  lemma ImportedStep(w: World, v: World, t: Id, p: Package, incoming: Epoch, i: Input)
    requires v == StepHandoff(w, t, HandoffImported(p, incoming), i)
    ensures v.db == w.db && Stands(v, t, CompletionCall(Complete(p, incoming, i.result, false)))
  {
    hide StepImport, MoveExecution, Authoritative;
  }

  lemma ImportedGoes(ws: seq<World>, t: Id, inputs: seq<Input>, k: nat, p: Package, incoming: Epoch)
    requires At(ws, t, inputs, k, HandoffImported(p, incoming), 9)
    ensures Last(ws) == M.Completion(ws[k].db, p, incoming, inputs[k].result, false).0
  {
    hide StepHandoff, M.Completion, Last;
    ImportedStep(ws[k], ws[k + 1], t, p, incoming, inputs[k]);
  }

  predicate ImportCommits(db: Db, t: Id, plan: Plan) {
    plan.op.Fenced? && StartImport(db, t, plan.provider, plan.op, plan.outgoing).Some?
  }

  lemma ImportStep(w: World, v: World, t: Id, plan: Plan, i: Input)
    requires v == StepHandoff(w, t, HandoffImporting(plan), i)
    ensures !ImportCommits(w.db, t, plan) ==> v == End(w, t)
    ensures ImportCommits(w.db, t, plan) ==>
      && v.db == StartImport(w.db, t, plan.provider, plan.op, plan.outgoing).value && t in v.calls
      && v.calls[t] == HandoffCall(HandoffImported(NewPackage(w.db, t, plan.provider, plan.op, plan.outgoing.id),
                                                   IncomingEpoch(w.db, t, plan.provider)))
  {
    assert v == StepImport(w, t, plan);
  }

  lemma ImportContinues(db: Db, t: Id, plan: Plan, r: Result)
    ensures M.Import(db, t, plan.provider, plan.op, plan.outgoing, r).0
      == if ImportCommits(db, t, plan)
         then M.Completion(StartImport(db, t, plan.provider, plan.op, plan.outgoing).value,
                           NewPackage(db, t, plan.provider, plan.op, plan.outgoing.id),
                               IncomingEpoch(db, t, plan.provider), r, false).0
         else db
  {
  }

  lemma ImportingGoes(ws: seq<World>, t: Id, inputs: seq<Input>, k: nat, plan: Plan)
    requires At(ws, t, inputs, k, HandoffImporting(plan), 10)
    ensures Last(ws) == M.Import(ws[k].db, t, plan.provider, plan.op, plan.outgoing, inputs[k + 1].result).0
  {
    assert ws[k + 1] == StepHandoff(ws[k], t, ws[k].calls[t].handoff, inputs[k]);
    ImportStep(ws[k], ws[k + 1], t, plan, inputs[k]);
    ImportContinues(ws[k].db, t, plan, inputs[k + 1].result);
    if ImportCommits(ws[k].db, t, plan) {
      ImportedGoes(ws, t, inputs, k + 1, NewPackage(ws[k].db, t, plan.provider, plan.op, plan.outgoing.id),
                   IncomingEpoch(ws[k].db, t, plan.provider));
    } else { EndsThere(ws, t, inputs, k + 1); }
  }

  // ----- From the reservation to the import -----

  /** What follows once the checkpoint is known to be usable. */
  function CheckpointedAfter(db: Db, t: Id, plan: Plan, r: Result): Db {
    var started := if plan.failover then MoveExecution(db, t, Draining, TransitionStarted, None) else Some(db);
    if started.None? then db else M.Import(started.value, t, plan.provider, plan.op, plan.outgoing, r).0
  }

  lemma CheckpointedStep(w: World, v: World, t: Id, plan: Plan, i: Input)
    requires v == StepHandoff(w, t, HandoffCheckpointed(plan), i)
    ensures var started := if plan.failover then MoveExecution(w.db, t, Draining, TransitionStarted, None)
    else Some(w.db);
      && (started.None? ==> v == End(w, t))
      && (started.Some? ==> v.db == started.value && Stands(v, t, HandoffCall(HandoffImporting(plan))))
  {
  }

  lemma CheckpointedGoes(ws: seq<World>, t: Id, inputs: seq<Input>, k: nat, plan: Plan)
    requires At(ws, t, inputs, k, HandoffCheckpointed(plan), 11)
    ensures Last(ws) == CheckpointedAfter(ws[k].db, t, plan, inputs[k + 2].result)
  {
    assert ws[k + 1] == StepHandoff(ws[k], t, ws[k].calls[t].handoff, inputs[k]);
    CheckpointedStep(ws[k], ws[k + 1], t, plan, inputs[k]);
    if t in ws[k + 1].calls { ImportingGoes(ws, t, inputs, k + 1, plan); } else { EndsThere(ws, t, inputs, k + 1); }
  }

  /** What follows once the checkpoint is known to be unusable. */
  function UnusableAfter(db: Db, t: Id, plan: Plan): Db {
    if plan.failover then OrElse(MoveExecution(db, t, Draining, BlockedPreimport, None), db) else db
  }

  lemma UnusableGoes(ws: seq<World>, t: Id, inputs: seq<Input>, k: nat, plan: Plan)
    requires At(ws, t, inputs, k, HandoffUnusable(plan), 1)
    ensures Last(ws) == UnusableAfter(ws[k].db, t, plan)
  {
    assert ws[k + 1] == StepHandoff(ws[k], t, ws[k].calls[t].handoff, inputs[k]);
    EndsThere(ws, t, inputs, k + 1);
  }

  lemma DrainedGoes(ws: seq<World>, t: Id, inputs: seq<Input>, k: nat, plan: Plan)
    requires At(ws, t, inputs, k, HandoffDrained(plan), 12)
    ensures Last(ws)
      == if inputs[k].flag then CheckpointedAfter(ws[k].db, t, plan, inputs[k + 3].result)
      else UnusableAfter(ws[k].db, t, plan)
  {
    assert ws[k + 1] == StepHandoff(ws[k], t, ws[k].calls[t].handoff, inputs[k]);
    if inputs[k].flag {
      CheckpointedGoes(ws, t, inputs, k + 1, plan);
    } else {
      UnusableGoes(ws, t, inputs, k + 1, plan);
    }
  }

  /** What follows once the drain has begun. */
  function DrainingAfter(db: Db, t: Id, plan: Plan, usable: bool, r: Result): Db {
    if db.fence != plan.op then db
    else if usable then CheckpointedAfter(db, t, plan, r) else UnusableAfter(db, t, plan)
  }

  lemma DrainingGoes(ws: seq<World>, t: Id, inputs: seq<Input>, k: nat, plan: Plan)
    requires At(ws, t, inputs, k, HandoffDraining(plan), 13)
    ensures Last(ws) == DrainingAfter(ws[k].db, t, plan, inputs[k + 1].flag, inputs[k + 4].result)
  {
    assert ws[k + 1] == StepHandoff(ws[k], t, ws[k].calls[t].handoff, inputs[k]);
    if ws[k].db.fence == plan.op { DrainedGoes(ws, t, inputs, k + 1, plan); } else { EndsThere(ws, t, inputs, k + 1); }
  }

  lemma ReservedStep(w: World, v: World, t: Id, plan: Plan, i: Input)
    requires v == StepHandoff(w, t, HandoffReserved(plan), i)
    ensures var draining := if plan.failover then MoveExecution(w.db, t, ExReserved, Draining, None) else Some(w.db);
      && (draining.None? ==> v == End(w, t))
      && (draining.Some? ==> v.db == draining.value && Stands(v, t, HandoffCall(HandoffDraining(plan))))
  {
  }

  /** The same in the terms of the method. */
  lemma DrainingIsHandoff(db: Db, t: Id, plan: Plan, usable: bool, r: Result)
    ensures var draining := if plan.failover then MoveExecution(db, t, ExReserved, Draining, None) else Some(db);
      M.HandoffUnder(db, t, plan.provider, plan.op, plan.failover, plan.outgoing, usable, r).0
      == if draining.None? then db else DrainingAfter(draining.value, t, plan, usable, r)
  {
  }

  lemma ReservedGoes(ws: seq<World>, t: Id, inputs: seq<Input>, k: nat, plan: Plan)
    requires At(ws, t, inputs, k, HandoffReserved(plan), 14)
    ensures Last(ws)
      == M.HandoffUnder(ws[k].db, t, plan.provider, plan.op, plan.failover, plan.outgoing, inputs[k + 2].flag,
        inputs[k + 5].result).0
  {
    assert ws[k + 1] == StepHandoff(ws[k], t, ws[k].calls[t].handoff, inputs[k]);
    ReservedStep(ws[k], ws[k + 1], t, plan, inputs[k]);
    DrainingIsHandoff(ws[k].db, t, plan, inputs[k + 2].flag, inputs[k + 5].result);
    if t in ws[k + 1].calls { DrainingGoes(ws, t, inputs, k + 1, plan); } else { EndsThere(ws, t, inputs, k + 1); }
  }

  // ----- From the start to the reservation -----

  /** What follows once the active epoch is read. */
  function FromAfter(db: Db, t: Id, provider: Id, held: Option<Fence>, outgoing: Epoch, usable: bool, r: Result): Db {
    if held.None? then
      if db.fence.Fenced? then db
      else
        var op := Fenced(db.fence.generation, t);
        M.HandoffUnder(db.(fence := op), t, provider, op, false, outgoing, usable, r).0
    else if db.fence != held.value then db
    else M.HandoffUnder(db, t, provider, held.value, true, outgoing, usable, r).0
  }

  lemma FromStep(w: World, v: World, t: Id, provider: Id, held: Option<Fence>, outgoing: Epoch, i: Input)
    requires v == StepHandoff(w, t, HandoffFrom(provider, held, outgoing), i)
    ensures held.None? && w.db.fence.Open? ==>
      var op := Fenced(w.db.fence.generation, t);
      v.db == w.db.(fence := op) && t in v.calls
          && v.calls[t] == HandoffCall(HandoffReserved(Plan(provider, op, false, outgoing)))
    ensures held.Some? && w.db.fence == held.value ==>
      v.db == w.db && t in v.calls
          && v.calls[t] == HandoffCall(HandoffReserved(Plan(provider, held.value, true, outgoing)))
    ensures (held.None? && w.db.fence.Fenced?) || (held.Some? && w.db.fence != held.value) ==> v == End(w, t)
  {
  }

  lemma FromGoes(ws: seq<World>, t: Id, inputs: seq<Input>, k: nat, provider: Id, held: Option<Fence>, outgoing: Epoch)
    requires At(ws, t, inputs, k, HandoffFrom(provider, held, outgoing), 15)
    ensures Last(ws) == FromAfter(ws[k].db, t, provider, held, outgoing, inputs[k + 3].flag, inputs[k + 6].result)
  {
    assert ws[k + 1] == StepHandoff(ws[k], t, ws[k].calls[t].handoff, inputs[k]);
    FromStep(ws[k], ws[k + 1], t, provider, held, outgoing, inputs[k]);
    if t in ws[k + 1].calls { ReservedGoes(ws, t, inputs, k + 1, ws[k + 1].calls[t].handoff.plan); }
    else { EndsThere(ws, t, inputs, k + 1); }
  }

  lemma UnblockedStep(w: World, v: World, t: Id, provider: Id, held: Option<Fence>, i: Input)
    requires v == StepHandoff(w, t, HandoffUnblocked(provider, held), i)
    ensures var active := M.ActiveEpoch(w.db);
      v == if active.Some? && IsAcknowledged(active.value.state)
      then Goto(w, t, HandoffCall(HandoffFrom(provider, held, active.value)))
           else End(w, t)
  {
    if e :| e in w.db.epochs && Authoritative(w.db) == {e} {
      forall x | x in w.db.epochs && Authoritative(w.db) == {x} ensures x == e { assert x in {e}; }
    }
  }

  /** What follows once nothing is in the way. */
  function UnblockedAfter(db: Db, t: Id, provider: Id, held: Option<Fence>, usable: bool, r: Result): Db {
    var active := M.ActiveEpoch(db);
    if active.None? || !IsAcknowledged(active.value.state) then db
    else FromAfter(db, t, provider, held, active.value, usable, r)
  }

  lemma UnblockedGoes(ws: seq<World>, t: Id, inputs: seq<Input>, k: nat, provider: Id, held: Option<Fence>)
    requires At(ws, t, inputs, k, HandoffUnblocked(provider, held), 16)
    ensures Last(ws) == UnblockedAfter(ws[k].db, t, provider, held, inputs[k + 4].flag, inputs[k + 7].result)
  {
    assert ws[k + 1] == StepHandoff(ws[k], t, ws[k].calls[t].handoff, inputs[k]);
    UnblockedStep(ws[k], ws[k + 1], t, provider, held, inputs[k]);
    var active := M.ActiveEpoch(ws[k].db);
    if active.Some? && IsAcknowledged(active.value.state) {
      FromGoes(ws, t, inputs, k + 1, provider, held, active.value);
    }
    else { EndsThere(ws, t, inputs, k + 1); }
  }

  lemma UnblockedIsHandoff(db: Db, t: Id, provider: Id, held: Option<Fence>, usable: bool, r: Result)
    ensures M.Handoff(db, t, provider, held, usable, r).0
      == if db.Blocked() || (held.None? && db.fence.Fenced?) then db
      else UnblockedAfter(db, t, provider, held, usable, r)
  {
  }

  lemma HandoffGoes(ws: seq<World>, t: Id, inputs: seq<Input>, k: nat, provider: Id, held: Option<Fence>,
      usable: bool, r: Result)
    requires At(ws, t, inputs, k, Handoff(provider, held), 17) && usable == inputs[k + 5].flag
    requires r == inputs[k + 8].result
    ensures Last(ws) == M.Handoff(ws[k].db, t, provider, held, usable, r).0
  {
    var db := ws[k].db;
    assert ws[k + 1] == StepHandoff(ws[k], t, ws[k].calls[t].handoff, inputs[k]);
    UnblockedIsHandoff(db, t, provider, held, usable, r);
    if db.Blocked() || (held.None? && db.fence.Fenced?) { EndsThere(ws, t, inputs, k + 1); }
    else { UnblockedGoes(ws, t, inputs, k + 1, provider, held); }
  }

  // ----- As runs -----

  ghost function Worlds(w: World, t: Id, inputs: seq<Input>): (ws: seq<World>)
    ensures |ws| == |inputs| + 1 && ws[0] == w
    decreases |inputs|
  {
    if inputs == [] then [w] else [w] + Worlds(Step(w, Advance(t, inputs[0])), t, inputs[1..])
  }

  lemma {:induction false} WorldsStep(w: World, t: Id, inputs: seq<Input>, k: nat)
    requires k <= |inputs|
    ensures k < |inputs| ==> Worlds(w, t, inputs)[k + 1] == Step(Worlds(w, t, inputs)[k], Advance(t, inputs[k]))
    ensures Alone(Worlds(w, t, inputs)[k], t, inputs[k..]) == Alone(w, t, inputs)
    decreases k
  {
    hide Step;
    if k == 0 { assert inputs[0..] == inputs; }
    else {
      WorldsStep(Step(w, Advance(t, inputs[0])), t, inputs[1..], k - 1);
      assert inputs[1..][k - 1..] == inputs[k..];
    }
  }

  lemma HandoffStep(w: World, v: World, t: Id, i: Input)
    requires v == Step(w, Advance(t, i))
    ensures t !in w.calls ==> v == w
    ensures t in w.calls && w.calls[t].HandoffCall? ==> v == StepHandoff(w, t, w.calls[t].handoff, i)
  {
    hide StepFailover, StepHandoff, StepComplete, StepReconcile, StepRollback, StepRecovery, StepSession;
  }

  lemma WorldsGo(w: World, t: Id, inputs: seq<Input>)
    ensures Goes(Worlds(w, t, inputs), t, inputs) && Last(Worlds(w, t, inputs)) == Alone(w, t, inputs).db
  {
    hide Step;
    var ws := Worlds(w, t, inputs);
    forall k | 0 <= k < |inputs|
      ensures t !in ws[k].calls ==> ws[k + 1] == ws[k]
      ensures t in ws[k].calls && ws[k].calls[t].HandoffCall? ==>
          ws[k + 1] == StepHandoff(ws[k], t, ws[k].calls[t].handoff, inputs[k])
    {
      WorldsStep(w, t, inputs, k);
      HandoffStep(ws[k], ws[k + 1], t, inputs[k]);
    }
    WorldsStep(w, t, inputs, |inputs|);
  }

  lemma WorldsComplete(w: World, t: Id, inputs: seq<Input>)
    ensures Completes(Worlds(w, t, inputs), t, inputs)
  {
    hide Step;
    var ws := Worlds(w, t, inputs);
    WorldsGo(w, t, inputs);
    forall k, p, incoming, r, quarantine
      | 0 <= k < |ws| - 8 && Stands(ws[k], t, CompletionCall(Complete(p, incoming, r, quarantine)))
      ensures Last(ws) == M.Completion(ws[k].db, p, incoming, r, quarantine).0
    {
      WorldsStep(w, t, inputs, k);
      CompletionAlone(ws[k], t, p, incoming, r, quarantine, inputs[k..]);
    }
  }

  /** `_perform_handoff` in steps is `_perform_handoff` in one go, manual or with a reservation brought along,
      on every path: refused, raised, blocked before the import, failed at the import, or completed. */
  lemma HandoffAlone(w: World, t: Id, provider: Id, held: Option<Fence>, inputs: seq<Input>)
    requires Stands(w, t, HandoffCall(Handoff(provider, held))) && |inputs| >= 17
    ensures Run(w, Steps(t, inputs)).db == M.Handoff(w.db, t, provider, held, inputs[5].flag, inputs[8].result).0
  {
    hide Step;
    AloneIsRun(w, t, inputs);
    WorldsGo(w, t, inputs);
    WorldsComplete(w, t, inputs);
    HandoffGoes(Worlds(w, t, inputs), t, inputs, 0, provider, held, inputs[5].flag, inputs[8].result);
  }

  // ----- execute_failover -----

  function CircumstancesOf(inputs: seq<Input>): M.Circumstances
    requires |inputs| >= 19
  {
    M.Circumstances(inputs[0].now, inputs[1].evidence, inputs[1].now, inputs[1].later, inputs[7].flag,
        inputs[10].result)
  }

  /** The first two steps: the checks, and the transaction. */
  lemma CheckStep(w: World, v: World, t: Id, d: Id, i: Input)
    requires Stands(w, t, FailoverCall(Execute(d))) && v == Step(w, Advance(t, i))
    ensures v == if M.Executable(w.db, d, i.now) then Goto(w, t, FailoverCall(ExecuteChecked(d, w.db.decisions[d])))
    else End(w, t)
  {
    hide StepHandoff, StepComplete, StepReconcile, StepRollback, StepRecovery, StepSession, StepExecute,
        EvaluateFailover;
  }

  /** The transaction commits. */
  predicate Executes(db: Db, t: Id, d: Id, original: DecisionRow, c: M.Circumstances) {
    original.decision.incoming.Some? && ExecuteFailover(db, t, d, original, c.evidence, c.again, c.later).Some?
  }

  lemma ExecuteStep(w: World, v: World, t: Id, d: Id, original: DecisionRow, i: Input, c: M.Circumstances)
    requires Stands(w, t, FailoverCall(ExecuteChecked(d, original))) && v == Step(w, Advance(t, i))
    requires c.evidence == i.evidence && c.again == i.now && c.later == i.later
    ensures if Executes(w.db, t, d, original, c)
            then
              && v.db == ExecuteFailover(w.db, t, d, original, c.evidence, c.again, c.later).value
              && Stands(v, t,
                HandoffCall(Handoff(original.decision.incoming.value, Some(Fenced(w.db.fence.generation, t)))))
            else v == End(w, t)
  {
    hide StepHandoff, StepComplete, StepReconcile, StepRollback, StepRecovery, StepSession, ExecuteFailover,
        EvaluateFailover;
  }

  /** What follows once the decision is checked. */
  function ExecuteAfter(db: Db, t: Id, d: Id, original: DecisionRow, c: M.Circumstances): Db {
    if !Executes(db, t, d, original, c) then db
    else
      M.Handoff(ExecuteFailover(db, t, d, original, c.evidence, c.again, c.later).value, t,
                original.decision.incoming.value, Some(Fenced(db.fence.generation, t)), c.usable, c.result).0
  }

  lemma ExecutedIs(db: Db, t: Id, d: Id, c: M.Circumstances)
    ensures M.FailoverExecution(db, t, d, c).0
      == if M.Executable(db, d, c.now) then ExecuteAfter(db, t, d, db.decisions[d], c) else db
  {
    hide ExecuteFailover, M.Handoff;
  }

  lemma CheckedAlone(w: World, t: Id, d: Id, original: DecisionRow, inputs: seq<Input>, c: M.Circumstances)
    requires Stands(w, t, FailoverCall(ExecuteChecked(d, original))) && |inputs| >= 18
    requires c.evidence == inputs[0].evidence && c.again == inputs[0].now && c.later == inputs[0].later
    requires c.usable == inputs[6].flag && c.result == inputs[9].result
    ensures Alone(w, t, inputs).db == ExecuteAfter(w.db, t, d, original, c)
  {
    hide Step, ExecuteFailover, M.Handoff;
    var v := Step(w, Advance(t, inputs[0]));
    ExecuteStep(w, v, t, d, original, inputs[0], c);
    if Executes(w.db, t, d, original, c) {
      AloneIsRun(v, t, inputs[1..]);
      HandoffAlone(v, t, original.decision.incoming.value, Some(Fenced(w.db.fence.generation, t)), inputs[1..]);
    } else { EndedStays(v, t, inputs[1..]); }
  }

  /** `execute_failover` in steps is `execute_failover` in one go, on every path. */
  lemma ExecutionAlone(w: World, t: Id, d: Id, inputs: seq<Input>)
    requires Stands(w, t, FailoverCall(Execute(d))) && |inputs| >= 19
    ensures Run(w, Steps(t, inputs)).db == M.FailoverExecution(w.db, t, d, CircumstancesOf(inputs)).0
  {
    hide Step, ExecuteFailover, M.Handoff, M.FailoverExecution;
    var c, v := CircumstancesOf(inputs), Step(w, Advance(t, inputs[0]));
    AloneIsRun(w, t, inputs);
    ExecutedIs(w.db, t, d, c);
    CheckStep(w, v, t, d, inputs[0]);
    if M.Executable(w.db, d, c.now) { CheckedAlone(v, t, d, w.db.decisions[d], inputs[1..], c); }
    else { EndedStays(v, t, inputs[1..]); }
  }
}
