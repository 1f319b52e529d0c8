/** A recovery that no retry can end. The answer of an inspection is recorded without a look at the recovery
    evidence it carries, and replayed with one (src/overseer/agent_manager.py:891-905, 943-956). A run in
    which the call crashes in between. */
module LifecycleStuck {
  import opened Contracts
  import opened Fences
  import opened LifecycleStore
  import opened LifecycleRuns
  import opened LifecycleOrdinals
  import opened LifecycleRaces
  import opened LifecycleEvidence
  import opened LifecycleAlone
  import opened LifecycleHandoffAlone
  import opened LifecycleRecovery
  import opened LifecycleRetry
  import L = LifecycleEndings
  import M = AgentManager
  import E = FailoverEvidence

  // ----- A failover of the first epoch that is blocked before its import -----

  function TheEvidence(instance: Id): E.Evidence {
    E.Evidence(Some(E.Policy(0, instance, true, Some(0), 1, 100, [2], 100)),
               [E.Observation(0, instance, 1, E.HealthFailed, 1)],
               Some(E.Checkpoint(0, instance, FirstEpoch(instance).session, 0, E.At(0), E.Absent, "ready")), [],
               map[2 := {HandoffImport}], {2}, map[2 := 0], {})
  }

  function TheQuery(instance: Id): E.Query {
    E.Query(1, instance, E.EpochRef(0, FirstEpoch(instance).session, 1), 1, TheEvidence(instance), 2, false)
  }

  function TheDecision(instance: Id): E.Decision { E.DecisionOf(TheQuery(instance)) }

  lemma DecisionAllows(instance: Id)
    ensures E.Evaluate(TheQuery(instance)) == E.Decided(TheDecision(instance))
    ensures TheDecision(instance).allowed && TheDecision(instance).incoming == Some(2)
    ensures TheDecision(instance).expiresAt > 2 && TheDecision(instance).instance == instance
  {
    var q := TheQuery(instance);
    var run := set i | 0 <= i < |q.evidence.health| && E.InTrailingRun(q, i);
    assert 0 in E.TrailingRun(q);
    assert E.TrailingRun(q) == {0};
    assert E.Fallbacks(q)[0] == 2 && E.Available(q, 2) && E.Capable(q, 2);
    E.AllowsExactly(q);
    assert E.SelectFrom(q, 0) == Some(2);
    assert E.Readiness(q, 1) == E.Readiness(q, 0) + [0];
    E.ConstructorAcceptsExactly(q);
  }

  /** The environment: a checkpoint that turns out unusable, and a provider that answers with `r`. */
  function World0(instance: Id, r: Result): Input { Input(r, false, TheEvidence(instance), 2, 2, None, []) }

  function Nothing(instance: Id): Result {
    Result(0, OtherRequest(0), instance, Named(0), 0, 1, OpFailed, None, None, false)
  }

  function DecidedDb(instance: Id): Db {
    ActiveDb(instance).(decisions := map[1 := DecisionRow(TheDecision(instance), false)])
  }

  lemma OnlyFirst(db: Db, instance: Id)
    requires db.epochs == ActiveDb(instance).epochs && db.packages == map[]
    ensures Authoritative(db) == {0}
  {
    assert 0 in Authoritative(db);
  }

  lemma EvaluatesFirst(instance: Id)
    ensures EvaluateFailover(ActiveDb(instance), 1, TheEvidence(instance), 2) == Some(E.Decided(TheDecision(instance)))
  {
    var db := ActiveDb(instance);
    OnlyFirst(db, instance);
    DecisionAllows(instance);
    forall x | x in db.epochs && Authoritative(db) == {x} ensures x == 0 { assert x in {0}; }
  }

  lemma DecidesSteps(w: World, instance: Id, i: Input)
    requires w == World(ActiveDb(instance), map[], 1, []) && i == World0(instance, Nothing(instance))
    ensures Step(Step(Step(w, Begin(FailoverCall(Evaluate))), Advance(1, i)), Advance(1, i)).db == DecidedDb(instance)
  {
    hide StepHandoff, StepComplete, StepReconcile, StepRollback, StepRecovery, StepSession, EvaluateFailover;
    EvaluatesFirst(instance);
    DecisionAllows(instance);
    var a := w.(calls := map[1 := FailoverCall(Evaluate)], next := 2);
    assert Step(w, Begin(FailoverCall(Evaluate))) == a;
    var b := Goto(a, 1, FailoverCall(SaveEvaluation(TheDecision(instance))));
    assert Step(a, Advance(1, i)) == b;
    assert SaveDecision(b.db, 1, TheDecision(instance)) == Some(DecidedDb(instance));
  }

  lemma StageDecided(instance: Id) returns (actions: seq<Action>)
    ensures Run(Start(instance), actions).db == DecidedDb(instance)
  {
    hide Step, StepCall;
    var i := World0(instance, Nothing(instance));
    Activates(instance);
    var w := Run(Start(instance), Activation(instance));
    DecidesSteps(w, instance, i);
    RunThree(w, Begin(FailoverCall(Evaluate)), Advance(1, i), Advance(1, i));
    RunJoin(Start(instance), Activation(instance), [Begin(FailoverCall(Evaluate)), Advance(1, i), Advance(1, i)]);
    actions := Activation(instance) + [Begin(FailoverCall(Evaluate)), Advance(1, i), Advance(1, i)];
  }

  function BlockedDb(instance: Id, t: Id): Db {
    L.WithState(L.ExecutedRows(DecidedDb(instance), t, 1, 0), t, BlockedPreimport)
  }

  lemma Confirmed(instance: Id)
    ensures var db, d := DecidedDb(instance), TheDecision(instance);
      L.Confirms(db, 1, d, TheEvidence(instance), 2, 0)
      && (forall e | L.Confirms(db, 1, d, TheEvidence(instance), 2, e) :: e == 0)
  {
    hide Authoritative, L.AloneInCharge, TheEvidence, E.Evaluate, E.DecisionOf;
    var db, d := DecidedDb(instance), TheDecision(instance);
    DecisionAllows(instance);
    OnlyFirst(db, instance);
    L.ChargeIs(db);
    L.ConfirmsOnly(db, 1, d, TheEvidence(instance), 2, 0);
  }

  lemma Goes(instance: Id, t: Id)
    ensures var db := DecidedDb(instance);
      L.FailoverGoes(L.ExecutedRows(db, t, 1, 0), t, 2, 0, false, Nothing(instance)).0 == BlockedDb(instance, t)
  {
    hide L.ImportEnds, TheDecision;
  }

  lemma FailoverBlocks(w: World, instance: Id, c: M.Circumstances)
    requires Reachable(w) && w.db == DecidedDb(instance)
    requires c == M.Circumstances(2, TheEvidence(instance), 2, 2, false, Nothing(instance))
    ensures M.FailoverExecution(w.db, w.next, 1, c).0 == BlockedDb(instance, w.next)
  {
    hide Reachable, M.FailoverExecution, L.Confirms, L.FailoverGoes, L.ExecutedRows, BlockedDb, TheDecision, Nothing,
        E.Evidence.Valid;
    Valid(instance);
    DecisionAllows(instance);
    Confirmed(instance);
    L.FailoverEnds(w, w.next, 1, c);
    Goes(instance, w.next);
  }

  lemma Valid(instance: Id)
    ensures TheEvidence(instance).Valid()
  {
  }

  lemma StageBlocked(instance: Id) returns (actions: seq<Action>, t: Id)
    ensures Run(Start(instance), actions).db == BlockedDb(instance, t)
  {
    hide Step, StepCall, Reachable, M.FailoverExecution, BlockedDb;
    actions := StageDecided(instance);
    var w, inputs := Run(Start(instance), actions), Repeat(World0(instance, Nothing(instance)), 19);
    t := w.next;
    RunsKeepEvidence(instance, actions);
    FailoverBlocks(w, instance, CircumstancesOf(inputs));
    var v := Step(w, Begin(FailoverCall(Execute(1))));
    Begins(w, FailoverCall(Execute(1)));
    ExecutionAlone(v, t, 1, inputs);
    actions := Then(instance, actions, FailoverCall(Execute(1)), inputs);
  }

  lemma Begins(w: World, c: Call)
    requires IsEntry(c)
    ensures Step(w, Begin(c)) == WithCall(w, c)
  {
    hide StepCall;
  }

  /** A run continued by a call that is left alone. */
  lemma Then(instance: Id, actions: seq<Action>, c: Call, inputs: seq<Input>) returns (all: seq<Action>)
    ensures var w := Run(Start(instance), actions);
      Run(Start(instance), all) == Run(Step(w, Begin(c)), Steps(w.next, inputs))
  {
    hide Step, StepCall;
    var w := Run(Start(instance), actions);
    RunJoin(Start(instance), actions, [Begin(c)]);
    assert [Begin(c)][..0] == [];
    assert Run(w, [Begin(c)])
        == Step(w, Begin(c)) by { RunFirst(w, Begin(c), []); assert [Begin(c)] + [] == [Begin(c)]; }
    RunJoin(Start(instance), actions + [Begin(c)], Steps(w.next, inputs));
    all := actions + [Begin(c)] + Steps(w.next, inputs);
  }

  // ----- Its recovery: the recover call fails, the inspection after it is recorded -----

  /** The attempt of call `u` has started its recover call, and got no answer that counts. */
  function StartedDb(instance: Id, t: Id, u: Id): Db {
    var db := BlockedDb(instance, t);
    db.(executions := db.executions[t := db.executions[t].(state := Recovering)],
        attempts := map[t := Attempt(u, t, ExternalStarted)])
  }

  lemma RecoverFails(w: World, instance: Id, t: Id)
    requires Accountable(w) && w.db == BlockedDb(instance, t)
    ensures M.FailoverRecovery(w.db, w.next, t, Nothing(instance)).db == StartedDb(instance, t, w.next)
  {
    hide Accountable, M.FailoverRecovery;
    RecoverableIsReady(w, t);
    NotUsed(w, w.next);
    UnansweredHere(w.db, w.next, t, Nothing(instance));
    assert w.db.attempts == map[];
  }

  lemma StageStarted(instance: Id) returns (actions: seq<Action>, t: Id, u: Id)
    ensures Run(Start(instance), actions).db == StartedDb(instance, t, u)
  {
    hide Step, StepCall, Accountable, M.FailoverRecovery, BlockedDb, StartedDb;
    actions, t := StageBlocked(instance);
    var w, i := Run(Start(instance), actions), World0(instance, Nothing(instance));
    u := w.next;
    RunsKeepRecords(instance, actions);
    RecoverFails(w, instance, t);
    Begins(w, RecoveryCall(Recovery(t)));
    RecoveryAlone(Step(w, Begin(RecoveryCall(Recovery(t)))), u, t, i, 10);
    actions := Then(instance, actions, RecoveryCall(Recovery(t)), Repeat(i, 10));
  }

  /** Four steps check the execution, three more come to the inspection's answer. */
  lemma ChecksPass(w: World, t: Id, e: Id, i: Input)
    requires Stands(w, t, RecoveryCall(Recovery(e))) && Ready(w.db, e) && w.db.executions[e].state == Recovering
    requires NoneNewer(w.db.epochs, w.db.executions[e].outgoing)
    ensures Settle(w, t, i, 4) == Goto(w, t, RecoveryCall(RecoveryBound(w.db.executions[e], w.db.fence)))
  {
    hide StepFailover, StepHandoff, StepComplete, StepReconcile, StepRollback, StepSession, ExecutionFits, FromDecision;
    var x, op := w.db.executions[e], w.db.fence;
    BoundExactly(w.db, e);
    var a := Goto(w, t, RecoveryCall(RecoveryOf(x)));
    assert Step(w, Advance(t, i)) == a;
    var b := Goto(w, t, RecoveryCall(RecoveryHeld(x, op)));
    assert Step(a, Advance(t, i)) == b;
    var c := Goto(w, t, RecoveryCall(RecoveryUnblocked(x, op)));
    assert Step(b, Advance(t, i)) == c;
    assert Step(c, Advance(t, i)) == Goto(w, t, RecoveryCall(RecoveryBound(x, op)));
  }

  lemma Inspects(w: World, t: Id, x: Execution, op: Fence, i: Input)
    requires Stands(w, t, RecoveryCall(RecoveryBound(x, op))) && x.state == Recovering && x.id in w.db.attempts
    requires w.db.attempts[x.id].state == ExternalStarted && w.db.attempts[x.id].id !in w.db.outcomes
    ensures Settle(w, t, i, 3)
      == Goto(w, t, RecoveryCall(RecoveryAnswered(x, op, w.db.attempts[x.id], i.result, false)))
  {
    hide StepFailover, StepHandoff, StepComplete, StepReconcile, StepRollback, StepSession;
    var att := w.db.attempts[x.id];
    var a := Goto(w, t, RecoveryCall(RecoveryAttempt(x, op, att)));
    assert Step(w, Advance(t, i)) == a;
    var b := Goto(w, t, RecoveryCall(RecoveryAttemptOpen(x, op, att)));
    assert Step(a, Advance(t, i)) == b;
    assert Step(b, Advance(t, i)) == Goto(w, t, RecoveryCall(RecoveryAnswered(x, op, att, i.result, false)));
  }

  lemma {:induction false} SettleJoin(w: World, t: Id, i: Input, m: nat, n: nat)
    ensures Settle(w, t, i, m + n) == Settle(Settle(w, t, i, m), t, i, n)
    decreases m
  {
    hide Step, StepCall;
    if m > 0 { SettleJoin(Step(w, Advance(t, i)), t, i, m - 1, n); }
  }

  /** The inspection says that the session runs, and carries evidence of some other recovery. */
  function Foreign(instance: Id): Result {
    Result(1, OtherRequest(1), instance, FirstEpoch(instance).session, 0, 1, Running, None, Some(OtherRequest(7)), true)
  }

  function RecordedDb(instance: Id, t: Id, u: Id): Db {
    var db, r := StartedDb(instance, t, u), Foreign(instance);
    db.(results := map[1 := r], outcomes := map[u := Outcome(1, r.request, Running)],
        attempts := map[t := Attempt(u, t, ResultRecorded)])
  }

  lemma ForeignCounts(instance: Id, t: Id, u: Id)
    ensures var db := StartedDb(instance, t, u);
      && NoneNewer(db.epochs, 0) && RecoveryValid(db, db.executions[t], Foreign(instance), None)
      && RecordRecovery(db, t, u, Foreign(instance)) == Some(RecordedDb(instance, t, u))
  {
    var db, r := StartedDb(instance, t, u), Foreign(instance);
    assert db.results[1 := r] == map[1 := r];
    assert db.outcomes[u := Outcome(1, r.request, Running)] == map[u := Outcome(1, r.request, Running)];
    assert db.attempts[t := Attempt(u, t, ResultRecorded)] == map[t := Attempt(u, t, ResultRecorded)];
  }

  /** From the start of the second recovery to the recorded inspection: eight steps. */
  lemma Records(w: World, v: World, instance: Id, t: Id, u: Id, s: Id, i: Input)
    requires Accountable(w) && w.db == StartedDb(instance, t, u) && i == World0(instance, Foreign(instance))
    requires v.db == w.db && Stands(v, s, RecoveryCall(Recovery(t)))
    ensures Settle(v, s, i, 8).db == RecordedDb(instance, t, u)
  {
    hide Step, StepCall, Accountable, StartedDb, RecordedDb, Ready, NoneNewer, RecoveryValid, RecordRecovery, Settle;
    var x := StartedExecution(instance, t, u);
    RecoverableIsReady(w, t);
    ForeignCounts(instance, t, u);
    ChecksPass(v, s, t, i);
    var a := Goto(v, s, RecoveryCall(RecoveryBound(x, v.db.fence)));
    Inspects(a, s, x, v.db.fence, i);
    var b := Goto(a, s, RecoveryCall(RecoveryAnswered(x, v.db.fence, v.db.attempts[t], i.result, false)));
    RecordIsStep(b, s, x, v.db.fence, v.db.attempts[t], i.result, false, i);
    SettleJoin(v, s, i, 4, 4);
    SettleJoin(a, s, i, 3, 1);
    assert Settle(b, s, i, 1) == Step(b, Advance(s, i)) by { OneMore(b, s, i); }
  }

  lemma OneMore(w: World, t: Id, i: Input)
    ensures Settle(w, t, i, 1) == Step(w, Advance(t, i))
  {
    hide Step, StepCall;
    assert Settle(Step(w, Advance(t, i)), t, i, 0) == Step(w, Advance(t, i));
  }

  lemma StartedExecution(instance: Id, t: Id, u: Id) returns (x: Execution)
    ensures var db := StartedDb(instance, t, u);
      && t in db.executions && x == db.executions[t] && x.id == t && x.state == Recovering && x.outgoing == 0
      && t in db.attempts && db.attempts[t] == Attempt(u, t, ExternalStarted) && u !in db.outcomes
      && IsRecoverable(x.state)
  {
    x := StartedDb(instance, t, u).executions[t];
  }

  lemma StageRecorded(instance: Id) returns (actions: seq<Action>, t: Id, u: Id)
    ensures Run(Start(instance), actions).db == RecordedDb(instance, t, u)
  {
    hide Step, StepCall, Accountable, StartedDb, RecordedDb, Settle;
    actions, t, u := StageStarted(instance);
    var w, i := Run(Start(instance), actions), World0(instance, Foreign(instance));
    RunsKeepRecords(instance, actions);
    Begins(w, RecoveryCall(Recovery(t)));
    var v := Step(w, Begin(RecoveryCall(Recovery(t))));
    Records(w, v, instance, t, u, w.next, i);
    SettleIsAlone(v, w.next, i, 8);
    AloneIsRun(v, w.next, Repeat(i, 8));
    actions := Then(instance, actions, RecoveryCall(Recovery(t)), Repeat(i, 8));
  }

  /** A run after which an execution holds the fence with an answer recorded, and no retry by whomever, whatever the
      provider says, ends its recovery: each raises and changes nothing. */
  lemma RetriesNeverEnd(instance: Id) returns (actions: seq<Action>, e: Id)
    ensures var db := Run(Start(instance), actions).db;
      && e in db.executions && db.executions[e].state == Recovering && db.fence.Fenced?
      && e in db.attempts && db.attempts[e].state == ResultRecorded
      && forall t, r :: M.FailoverRecovery(db, t, e, r) == M.RecoveryRun(db, M.Raised, false)
  {
    hide Step, StepCall, Accountable, M.FailoverRecovery;
    var u: Id;
    actions, e, u := StageRecorded(instance);
    var w := Run(Start(instance), actions);
    RunsKeepRecords(instance, actions);
    forall t, r ensures M.FailoverRecovery(w.db, t, e, r) == M.RecoveryRun(w.db, M.Raised, false) {
      RetriesExactly(w, t, e, r);
    }
  }
}
