/** When a failover decision may be turned into an execution, and when it never will be again. */
module LifecycleDecisions {
  import opened Contracts
  import opened Fences
  import opened LifecycleStore
  import opened LifecycleRuns
  import opened LifecycleFence
  import opened LifecycleHistory
  import opened LifecycleSafety
  import E = FailoverEvidence

  // ----- Only execute_failover creates an execution -----

  predicate AddsExecution(w: World, v: World) { exists k :: |w.trace| <= k < |v.trace| && v.trace[k].Executed? }

  lemma HandoffAddsNone(w: World, t: Id, s: HandoffStage, i: Input)
    ensures !AddsExecution(w, StepHandoff(w, t, s, i))
  {
  }

  lemma CompletionAddsNone(w: World, t: Id, s: CompletionStage, i: Input)
    ensures !AddsExecution(w, StepComplete(w, t, s, i))
  {
  }

  lemma ReconcileAddsNone(w: World, t: Id, s: ReconcileStage, i: Input)
    ensures !AddsExecution(w, StepReconcile(w, t, s, i))
  {
  }

  lemma RollbackAddsNone(w: World, t: Id, s: RollbackStage, i: Input)
    ensures !AddsExecution(w, StepRollback(w, t, s, i))
  {
  }

  lemma RecoveryAddsNone(w: World, t: Id, s: RecoveryStage, i: Input)
    ensures !AddsExecution(w, StepRecovery(w, t, s, i))
  {
  }

  lemma SessionAddsNone(w: World, t: Id, s: SessionStage, i: Input)
    ensures !AddsExecution(w, StepSession(w, t, s, i))
  {
  }

  lemma OnlyExecuteAdds(w: World, t: Id, c: Call, i: Input)
    requires AddsExecution(w, StepCall(w, t, c, i))
    ensures c.FailoverCall? && c.failover.ExecuteChecked?
    ensures ExecuteFailover(w.db, t, c.failover.decision, c.failover.original, i.evidence, i.now, i.later).Some?
    ensures forall k | |w.trace| <= k < |StepCall(w, t, c, i).trace| && StepCall(w, t, c, i).trace[k].Executed? ::
      StepCall(w, t, c, i).trace[k] == Executed(c.failover.decision, t, w.db.fence.generation)
  {
    hide EvaluateFailover, ExecuteFailover;
    match c
    case FailoverCall(s) =>
    case HandoffCall(s) => HandoffAddsNone(w, t, s, i);
    case CompletionCall(s) => CompletionAddsNone(w, t, s, i);
    case ReconcileCall(s) => ReconcileAddsNone(w, t, s, i);
    case RollbackCall(s) => RollbackAddsNone(w, t, s, i);
    case RecoveryCall(s) => RecoveryAddsNone(w, t, s, i);
    case SessionCall(s) => SessionAddsNone(w, t, s, i);
  }

  // ----- What an execution rests on -----

  /** The question the re-evaluation asks in this state. */
  ghost predicate Asks(db: Db, id: Id, i: Input, q: E.Query) {
    && q.decision == id && q.instance == db.instance && q.generation == db.fence.generation
    && q.evidence == i.evidence && q.now == i.now && q.transitionChanged == (db.fence.Fenced? || db.Blocked())
    && exists e :: e in db.epochs && Authoritative(db) == {e} && q.outgoing == EpochRefOf(db.epochs[e])
  }

  lemma ReevaluationAllows(db: Db, t: Id, id: Id, original: DecisionRow, i: Input) returns (q: E.Query)
    requires ExecuteFailover(db, t, id, original, i.evidence, i.now, i.later).Some? && original.decision.allowed
    requires i.evidence.Valid()
    ensures Asks(db, id, i, q) && E.MayFailOver(q)
    ensures original.decision.incoming.Some? && E.FirstUsable(q, original.decision.incoming.value)
  {
    var e :| e in db.epochs && Authoritative(db) == {e};
    q := E.Query(id, db.instance, EpochRefOf(db.epochs[e]), db.fence.generation, i.evidence, i.now,
                 db.fence.Fenced? || db.Blocked());
    assert EvaluateFailover(db, id, i.evidence, i.now) == Some(E.Evaluate(q));
    assert SameFindings(original.decision, E.DecisionOf(q));
    E.AllowsExactly(q);
  }

  /** An execution is created only from an unused, allowed decision of the current generation, with the
      fence open and no handoff under way, when asking again on the current evidence still allows
      a failover to the same provider. */
  lemma ExecutionIsJustified(instance: Id, actions: seq<Action>, t: Id, i: Input, k: nat) returns (q: E.Query)
    requires i.evidence.Valid()
    requires var w := Run(Start(instance), actions);
      |w.trace| <= k < |Step(w, Advance(t, i)).trace| && Step(w, Advance(t, i)).trace[k].Executed?
    ensures var w := Run(Start(instance), actions);
      var d := Step(w, Advance(t, i)).trace[k].decision;
      && w.db.fence == Open(Step(w, Advance(t, i)).trace[k].generation) && !w.db.Blocked()
      && d in w.db.decisions && !w.db.decisions[d].consumed
      && w.db.decisions[d].decision.generation == w.db.fence.generation
      && Asks(w.db, d, i, q) && E.MayFailOver(q)
      && w.db.decisions[d].decision.incoming.Some? && E.FirstUsable(q, w.db.decisions[d].decision.incoming.value)
  {
    hide StepCall, EvaluateFailover, ExecuteFailover;
    ReachableOk(instance, actions);
    var w := Run(Start(instance), actions);
    var c := w.calls[t];
    OnlyExecuteAdds(w, t, c, i);
    assert CallOk(w.db, t, c);
    ExecuteEffect(w.db, t, c.failover.decision, c.failover.original, i);
    q := ReevaluationAllows(w.db, t, c.failover.decision, c.failover.original, i);
  }

  // ----- A decision that a release has overtaken -----

  /** Histories only grow, generations never fall, decisions never change, and an execution needs the
      decision's own generation. */
  ghost predicate Forward(w: World, v: World) {
    && |w.trace| <= |v.trace| && v.trace[..|w.trace|] == w.trace
    && w.db.fence.generation <= v.db.fence.generation
    && (forall d | d in w.db.decisions ::
      d in v.db.decisions && v.db.decisions[d].decision == w.db.decisions[d].decision)
    && (forall k, d | |w.trace| <= k < |v.trace| && v.trace[k].Executed? && d == v.trace[k].decision
      && d in w.db.decisions ::
          w.db.decisions[d].decision.generation >= w.db.fence.generation)
    && (forall k | |w.trace| <= k < |v.trace| && v.trace[k].Released? :: v.db.fence.generation > w.db.fence.generation)
  }

  lemma ProgressForward(w: World, v: World, t: Id)
    requires Progress(w, v, t)
    ensures Forward(w, v)
  {
    hide EvaluateFailover, ExecuteFailover;
  }

  lemma StepForward(w: World, a: Action)
    requires Invariant(w)
    ensures Forward(w, Step(w, a))
  {
    hide StepCall;
    if a.Advance? && a.id in w.calls {
      AdvanceProgress(w, Step(w, a), a.id, a.input);
      ProgressForward(w, Step(w, a), a.id);
    }
  }

  lemma ForwardChains(u: World, w: World, v: World)
    requires Forward(u, w) && Forward(w, v)
    ensures Forward(u, v)
  {
    forall k, d | |u.trace| <= k < |v.trace| && v.trace[k].Executed? && d == v.trace[k].decision && d in u.db.decisions
      ensures u.db.decisions[d].decision.generation >= u.db.fence.generation
    {
      if k < |w.trace| { assert w.trace[k] == v.trace[k]; }
    }
    forall k | |u.trace| <= k < |v.trace|
        && v.trace[k].Released? ensures v.db.fence.generation > u.db.fence.generation {
      if k < |w.trace| { assert w.trace[k] == v.trace[k]; }
    }
  }

  lemma {:induction false} RunForward(w: World, actions: seq<Action>)
    requires Invariant(w)
    ensures Forward(w, Run(w, actions))
  {
    hide Step, StepCall;
    if actions != [] {
      var before := actions[..|actions| - 1];
      RunForward(w, before);
      RunKeeps(w, before);
      StepForward(Run(w, before), actions[|actions| - 1]);
      ForwardChains(w, Run(w, before), Run(w, actions));
    }
  }

  /** Once the fence has been released after a decision was stored, that decision never yields an
      execution again, whatever happens afterwards. */
  lemma OvertakenForever(instance: Id, before: seq<Action>, between: seq<Action>, later: seq<Action>, d: Id, r: nat,
      k: nat)
    requires d in Run(Start(instance), before).db.decisions
    requires var w, v := Run(Start(instance), before), Run(Run(Start(instance), before), between);
      |w.trace| <= r < |v.trace| && v.trace[r].Released?
    ensures var v := Run(Run(Start(instance), before), between);
      var end := Run(v, later);
      |v.trace| <= k < |end.trace| && end.trace[k].Executed? ==> end.trace[k].decision != d
  {
    hide Step, StepCall;
    var w := Run(Start(instance), before);
    ReachableOk(instance, before);
    RunForward(w, between);
    RunKeeps(w, between);
    RunForward(Run(w, between), later);
  }
}
