/** What holds in every reachable state and of every history, under every interleaving of lifecycle
    calls and crashes. */
module LifecycleSafety {
  import opened Contracts
  import opened Fences
  import opened LifecycleStore
  import opened LifecycleRuns
  import opened LifecycleFence
  import opened LifecycleHistory

  // ----- The invariant on histories -----

  /** Generations are reserved in increasing order, the last one possibly still held. */
  ghost predicate ReservedInOrder(db: Db, trace: seq<Event>) {
    && (forall i | 0 <= i < |trace| && trace[i].Reserved? ::
          trace[i].generation < db.fence.generation || db.fence == Fenced(trace[i].generation, trace[i].owner))
    && (forall i, j | 0 <= i < j < |trace| && trace[i].Reserved? && trace[j].Reserved? ::
          trace[i].generation < trace[j].generation)
  }

  /** Every package and execution was born under a reservation of its own. */
  ghost predicate ReservationsOk(db: Db, trace: seq<Event>) {
    && ReservedInOrder(db, trace)
    && (db.fence.Fenced? ==> Reserved(db.fence.generation, db.fence.owner) in trace)
    && (forall p | p in db.packages :: Reserved(db.packages[p].generation, p) in trace)
    && (forall e | e in db.executions :: Reserved(db.executions[e].generation, e) in trace)
  }

  /** Generations are released in increasing order, each with the record that caused it. */
  ghost predicate ReleasesOk(db: Db, trace: seq<Event>) {
    && (forall i | 0 <= i < |trace| && trace[i].Released? ::
          trace[i].generation < db.fence.generation && CauseOk(db, trace[i].generation, trace[i].cause))
    && (forall i, j | 0 <= i < j < |trace| && trace[i].Released? && trace[j].Released? ::
          trace[i].generation < trace[j].generation)
  }

  ghost predicate ImportsOk(db: Db, trace: seq<Event>) {
    && (forall i | 0 <= i < |trace| && trace[i].Imported? ::
          trace[i].handoff in db.packages && db.packages[trace[i].handoff].generation == trace[i].generation)
    && (forall i, j | 0 <= i < j < |trace| && trace[i].Imported? && trace[j].Imported? ::
      trace[i].handoff != trace[j].handoff)
  }

  /** No decision is ahead of the fence. */
  ghost predicate DecisionsBehind(db: Db) {
    forall d | d in db.decisions :: db.decisions[d].decision.generation <= db.fence.generation
  }

  ghost predicate DecisionsOk(db: Db, trace: seq<Event>) {
    && DecisionsBehind(db)
    && (forall i | 0 <= i < |trace| && trace[i].Executed? ::
          && trace[i].decision in db.decisions && db.decisions[trace[i].decision].consumed
          && db.decisions[trace[i].decision].decision.generation == trace[i].generation
          && db.decisions[trace[i].decision].decision.allowed)
    && (forall i, j | 0 <= i < j < |trace| && trace[i].Executed? && trace[j].Executed? ::
      trace[i].decision != trace[j].decision)
  }

  /** One permission to call recover per execution, spent by at most one call of the provider. */
  ghost predicate PermissionsOk(db: Db, trace: seq<Event>) {
    && (forall i | 0 <= i < |trace| && trace[i].RecoverPermitted? ::
          trace[i].execution in db.attempts && db.attempts[trace[i].execution].state != Pending)
    && (forall i, j | 0 <= i < j < |trace| && trace[i].RecoverPermitted? && trace[j].RecoverPermitted? ::
          trace[i].execution != trace[j].execution)
  }

  ghost predicate RecoveriesOk(calls: map<Id, Call>, trace: seq<Event>) {
    && (forall t | t in calls && MayCallRecover(calls[t]) ::
          RecoverPermitted(calls[t].recovery.copy.id, t) in trace
              && RecoverCalled(calls[t].recovery.copy.id, t) !in trace)
    && (forall i | 0 <= i < |trace| && trace[i].RecoverCalled? ::
          RecoverPermitted(trace[i].execution, trace[i].call) in trace)
    && (forall i, j | 0 <= i < j < |trace| && trace[i].RecoverCalled? && trace[j].RecoverCalled? ::
          trace[i].execution != trace[j].execution)
  }

  ghost predicate Invariant(w: World) {
    && FenceInv(w)
    && ReservationsOk(w.db, w.trace) && ReleasesOk(w.db, w.trace) && ImportsOk(w.db, w.trace)
    && DecisionsOk(w.db, w.trace) && PermissionsOk(w.db, w.trace) && RecoveriesOk(w.calls, w.trace)
  }

  // ----- Every step keeps it -----

  lemma ReservationsStep(w: World, v: World, t: Id)
    requires Progress(w, v, t) && ReservationsOk(w.db, w.trace)
    ensures ReservationsOk(v.db, v.trace)
  {
    hide DbOk, CallOk;
    ReservedInOrderStep(w, v, t);
    assert forall x | x in w.trace :: x in v.trace;
  }

  lemma ReservedInOrderStep(w: World, v: World, t: Id)
    requires Progress(w, v, t) && ReservedInOrder(w.db, w.trace)
    ensures ReservedInOrder(v.db, v.trace)
  {
    hide DbOk, CallOk;
  }

  /** Steps that release nothing. */
  lemma ReleasesQuiet(w: World, v: World, t: Id)
    requires ReleasesOk(w.db, w.trace) && Evolves(w.db, v.db, t) && Persists(w.db, v.db)
    requires |w.trace| <= |v.trace| && v.trace[..|w.trace|] == w.trace
    requires forall k | |w.trace| <= k < |v.trace| :: !v.trace[k].Released?
    ensures ReleasesOk(v.db, v.trace)
  {
  }

  lemma ReleasesNew(w: World, v: World, t: Id)
    requires ReleasesOk(w.db, w.trace) && Evolves(w.db, v.db, t) && Persists(w.db, v.db) && Releases(w, v)
    ensures ReleasesOk(v.db, v.trace)
  {
  }

  lemma ReleasesStep(w: World, v: World, t: Id)
    requires Progress(w, v, t) && ReleasesOk(w.db, w.trace)
    ensures ReleasesOk(v.db, v.trace)
  {
    hide DbOk, CallOk, Evolves, Persists, ReleasesOk;
    if Releases(w, v) { ReleasesNew(w, v, t); } else { ReleasesQuiet(w, v, t); }
  }

  /** Packages keep their generation, so recorded imports stay true. */
  lemma ImportsQuiet(w: World, v: World, t: Id)
    requires ImportsOk(w.db, w.trace) && Evolves(w.db, v.db, t) && |w.trace| <= |v.trace|
    requires v.trace[..|w.trace|] == w.trace
    requires forall k | |w.trace| <= k < |v.trace| :: !v.trace[k].Imported?
    ensures ImportsOk(v.db, v.trace)
  {
  }

  lemma ImportsNew(w: World, v: World, t: Id)
    requires ImportsOk(w.db, w.trace) && Evolves(w.db, v.db, t) && Imports(w, v, t)
    ensures ImportsOk(v.db, v.trace)
  {
  }

  lemma ImportsStep(w: World, v: World, t: Id)
    requires Progress(w, v, t) && ImportsOk(w.db, w.trace)
    ensures ImportsOk(v.db, v.trace)
  {
    hide DbOk, CallOk, Persists;
    if Imports(w, v, t) { ImportsNew(w, v, t); } else { ImportsQuiet(w, v, t); }
  }

  /** Steps that execute no decision. */
  lemma DecisionsQuiet(w: World, v: World)
    requires DecisionsOk(w.db, w.trace) && DecisionsBehind(v.db) && Persists(w.db, v.db)
    requires |w.trace| <= |v.trace| && v.trace[..|w.trace|] == w.trace
    requires forall k | |w.trace| <= k < |v.trace| :: !v.trace[k].Executed?
    ensures DecisionsOk(v.db, v.trace)
  {
  }

  lemma DecisionsNew(w: World, v: World, t: Id, d: Id)
    requires DecisionsOk(w.db, w.trace) && DecisionsBehind(v.db) && Persists(w.db, v.db) && Executes(w, v, t, d)
    ensures DecisionsOk(v.db, v.trace)
  {
  }

  lemma DecisionsStep(w: World, v: World, t: Id)
    requires Progress(w, v, t) && DecisionsOk(w.db, w.trace)
    ensures DecisionsOk(v.db, v.trace)
  {
    hide DbOk, CallOk, Evolves, Persists, DecisionsBehind;
    DecisionsBehindStep(w, v, t);
    if d :| Executes(w, v, t, d) { DecisionsNew(w, v, t, d); } else { DecisionsQuiet(w, v); }
  }

  lemma DecisionsBehindStep(w: World, v: World, t: Id)
    requires Progress(w, v, t) && DecisionsBehind(w.db)
    ensures DecisionsBehind(v.db)
  {
    hide DbOk, CallOk, Evolves;
  }

  lemma PermissionsStep(w: World, v: World, t: Id)
    requires Progress(w, v, t) && PermissionsOk(w.db, w.trace)
    ensures PermissionsOk(v.db, v.trace)
  {
    hide DbOk, CallOk;
  }

  predicate ConcernsRecover(e: Event) { e.RecoverPermitted? || e.RecoverCalled? }

  /** Steps that neither permit nor make a recover call. */
  lemma RecoveriesQuiet(w: World, v: World)
    requires RecoveriesOk(w.calls, w.trace)
    requires forall u | u in v.calls && MayCallRecover(v.calls[u]) :: u in w.calls && v.calls[u] == w.calls[u]
    requires |w.trace| <= |v.trace| && w.trace == v.trace[..|w.trace|]
    requires forall i | |w.trace| <= i < |v.trace| :: !ConcernsRecover(v.trace[i])
    ensures RecoveriesOk(v.calls, v.trace)
  {
    assert forall x | x in w.trace :: x in v.trace;
    assert forall x | x in v.trace && ConcernsRecover(x) :: x in w.trace;
  }

  lemma RecoveriesPermit(w: World, v: World, t: Id)
    requires PermissionsOk(w.db, w.trace) && RecoveriesOk(w.calls, w.trace) && Permits(w, v, t)
    requires forall u | u in v.calls && u != t :: u in w.calls && v.calls[u] == w.calls[u]
    ensures RecoveriesOk(v.calls, v.trace)
  {
    var e := v.calls[t].recovery.copy.id;
    assert v.trace[|w.trace|] == RecoverPermitted(e, t);
    assert forall x | x in w.trace :: x in v.trace;
    assert forall x | x in v.trace :: x in w.trace || x == RecoverPermitted(e, t);
    assert forall u :: RecoverPermitted(e, u) !in w.trace;
    assert RecoverCalled(e, t) !in w.trace;
  }

  lemma RecoveriesCall(w: World, v: World, t: Id)
    requires PermissionsOk(w.db, w.trace) && RecoveriesOk(w.calls, w.trace) && CallsRecover(w, v, t)
    requires forall u | u in v.calls && u != t :: u in w.calls && v.calls[u] == w.calls[u]
    ensures RecoveriesOk(v.calls, v.trace)
  {
    var e := w.calls[t].recovery.copy.id;
    assert v.trace[|w.trace|] == RecoverCalled(e, t);
    assert forall x | x in w.trace :: x in v.trace;
    forall i | 0 <= i < |w.trace| && w.trace[i].RecoverCalled? ensures w.trace[i].execution != e {
      // a second call for the same execution would need a second permission
      OnePermission(w, w.trace[i].execution, w.trace[i].call, t);
      assert w.trace[i] in w.trace;
    }
  }

  lemma OnePermission(w: World, e: Id, t: Id, u: Id)
    requires PermissionsOk(w.db, w.trace)
    ensures RecoverPermitted(e, t) in w.trace && RecoverPermitted(e, u) in w.trace ==> t == u
  {
    if RecoverPermitted(e, t) in w.trace && RecoverPermitted(e, u) in w.trace {
      var i :| 0 <= i < |w.trace| && w.trace[i] == RecoverPermitted(e, t);
      var j :| 0 <= j < |w.trace| && w.trace[j] == RecoverPermitted(e, u);
      assert i < j || j < i || i == j;
    }
  }

  lemma RecoveriesStep(w: World, v: World, t: Id)
    requires Progress(w, v, t) && PermissionsOk(w.db, w.trace) && RecoveriesOk(w.calls, w.trace)
    ensures RecoveriesOk(v.calls, v.trace)
  {
    hide DbOk, CallOk, Evolves, Persists;
    if Permits(w, v, t) { RecoveriesPermit(w, v, t); }
    else if CallsRecover(w, v, t) { RecoveriesCall(w, v, t); }
    else { RecoveriesQuiet(w, v); }
  }

  lemma AdvanceKeeps(w: World, v: World, t: Id, i: Input)
    requires Invariant(w) && Moves(w, v, t, i)
    ensures Invariant(v)
  {
    hide Step, StepCall;
    AdvanceProgress(w, v, t, i);
    Assemble(w, v, t);
    ReservationsStep(w, v, t);
    ReleasesStep(w, v, t);
    ImportsStep(w, v, t);
    DecisionsStep(w, v, t);
    PermissionsStep(w, v, t);
    RecoveriesStep(w, v, t);
  }

  /** A new call knows nothing but an id nobody used. */
  lemma EntryOk(db: Db, t: Id, c: Call)
    requires IsEntry(c) && Unused(db, t)
    ensures CallOk(db, t, c) && !MayCallRecover(c)
  {
  }

  lemma NextKeeps(db: Db, next: Id)
    requires DbOk(db, next)
    ensures DbOk(db, next + 1) && Unused(db, next)
  {
    forall p | p in db.packages ensures p < next + 1 && PackageOk(db, p) {}
    forall e | e in db.executions ensures e < next + 1 && ExecutionOk(db, e) {}
  }

  lemma BeginKeeps(w: World, v: World, c: Call)
    requires Invariant(w) && IsEntry(c) && v == w.(calls := w.calls[w.next := c], next := w.next + 1)
    ensures Invariant(v)
  {
    NextKeeps(w.db, w.next);
    EntryOk(w.db, w.next, c);
    forall u | u in v.calls ensures u < v.next && CallOk(v.db, u, v.calls[u]) { assert u != w.next ==> u in w.calls; }
    RecoveriesQuiet(w, v);
  }

  lemma CrashKeeps(w: World, t: Id)
    requires Invariant(w)
    ensures Invariant(End(w, t))
  {
    RecoveriesQuiet(w, End(w, t));
  }

  lemma StepKeeps(w: World, a: Action)
    requires Invariant(w)
    ensures Invariant(Step(w, a))
  {
    hide StepCall;
    match a
    case Begin(c) => if IsEntry(c) { BeginKeeps(w, Step(w, a), c); }
    case Crash(t) => CrashKeeps(w, t);
    case Advance(t, i) => if t in w.calls { AdvanceKeeps(w, Step(w, a), t, i); }
  }

  lemma {:induction false} RunKeeps(w: World, actions: seq<Action>)
    requires Invariant(w)
    ensures Invariant(Run(w, actions))
  {
    hide Step, StepCall;
    if actions != [] {
      RunKeeps(w, actions[..|actions| - 1]);
      StepKeeps(Run(w, actions[..|actions| - 1]), actions[|actions| - 1]);
    }
  }

  lemma ReachableOk(instance: Id, actions: seq<Action>)
    ensures Invariant(Run(Start(instance), actions))
  {
    hide Step, StepCall;
    RunKeeps(Start(instance), actions);
  }

  // ----- The fence guards failovers and handoffs -----

  /** A failover execution that can still be recovered holds the fence with its own generation and
      owner, and no handoff is under way. */
  lemma RecoverableHoldsFence(instance: Id, actions: seq<Action>, e: Id)
    ensures var db := Run(Start(instance), actions).db;
      e in db.executions && IsRecoverable(db.executions[e].state) ==>
        db.fence == Fenced(db.executions[e].generation, db.executions[e].owner) && !db.Blocked()
  {
    hide Step, StepCall;
    ReachableOk(instance, actions);
    var w := Run(Start(instance), actions);
    if e in w.db.executions && IsRecoverable(w.db.executions[e].state) {
      assert ExecutionOk(w.db, e);
      RecoverableIsUnblocked(w.db, e, w.next);
    }
  }

  /** A handoff under way holds the fence exactly as its package records. */
  lemma HandoffHoldsFence(instance: Id, actions: seq<Action>)
    ensures var db := Run(Start(instance), actions).db;
      db.Blocked() ==>
        && db.transition.value.handoff in db.packages
        && var p := db.packages[db.transition.value.handoff];
        && db.fence == Fenced(p.generation, p.owner)
        && p.outgoing == db.transition.value.outgoing && p.incomingEpoch == db.transition.value.incoming
  {
    hide Step, StepCall;
    ReachableOk(instance, actions);
    var w := Run(Start(instance), actions);
    if w.db.Blocked() { assert PackageOk(w.db, w.db.transition.value.handoff); }
  }

  /** A generation is reserved by one owner only. */
  lemma OneOwner(db: Db, trace: seq<Event>, g: nat, a: Id, b: Id)
    requires ReservationsOk(db, trace) && Reserved(g, a) in trace && Reserved(g, b) in trace
    ensures a == b
  {
    var i :| 0 <= i < |trace| && trace[i] == Reserved(g, a);
    var j :| 0 <= j < |trace| && trace[j] == Reserved(g, b);
    assert i < j || j < i || i == j;
  }

  /** A release by recovery names an execution that is recovered, an import a package of the same owner. */
  lemma NeverBoth(db: Db, next: Id, trace: seq<Event>, i: nat, j: nat)
    requires DbOk(db, next) && ReservationsOk(db, trace) && ReleasesOk(db, trace) && ImportsOk(db, trace)
    requires i < |trace| && trace[i].Released? && trace[i].cause.ByRecovery?
    requires j < |trace| && trace[j].Imported?
    ensures trace[i].generation != trace[j].generation
  {
    var e, h := trace[i].cause.execution, trace[j].handoff;
    assert PackageOk(db, h) && CauseOk(db, trace[i].generation, trace[i].cause);
    if trace[i].generation == trace[j].generation { OneOwner(db, trace, trace[i].generation, e, h); }
  }

  /** No generation is both opened by a recovery and used by an import. */
  lemma RecoveredOrImported(instance: Id, actions: seq<Action>, g: nat, e: Id, h: Id)
    ensures var trace := Run(Start(instance), actions).trace;
      !(Released(g, ByRecovery(e)) in trace && Imported(g, h) in trace)
  {
    hide Step, DbOk, ReservationsOk, ReleasesOk, ImportsOk;
    ReachableOk(instance, actions);
    var w := Run(Start(instance), actions);
    forall i, j | 0 <= i < |w.trace| && 0 <= j < |w.trace| && w.trace[i] == Released(g, ByRecovery(e))
      ensures w.trace[j] != Imported(g, h)
    {
      if w.trace[j].Imported? { NeverBoth(w.db, w.next, w.trace, i, j); }
    }
  }

  /** Each generation is released at most once, whatever the causes. */
  lemma ReleasedOnce(instance: Id, actions: seq<Action>, i: nat, j: nat)
    ensures var trace := Run(Start(instance), actions).trace;
      i < |trace| && j < |trace| && trace[i].Released? && trace[j].Released? ==>
        trace[i].generation == trace[j].generation ==> i == j
  {
    hide Step, StepCall;
    ReachableOk(instance, actions);
    assert i < j || j < i || i == j;
  }

  /** The handoff an event ends, if it ends one. */
  predicate Ends(e: Event, h: Id) { e.Released? && (e.cause == ByPromotion(h) || e.cause == ByRollback(h)) }

  /** A handoff ends at most once: promotion and rollback exclude each other, and neither repeats. */
  lemma HandoffEndsOnce(instance: Id, actions: seq<Action>, h: Id, i: nat, j: nat)
    ensures var trace := Run(Start(instance), actions).trace;
      i < |trace| && j < |trace| && Ends(trace[i], h) && Ends(trace[j], h) ==> i == j
  {
    hide Step, StepCall;
    ReachableOk(instance, actions);
    var w := Run(Start(instance), actions);
    if i < |w.trace| && j < |w.trace| && Ends(w.trace[i], h) && Ends(w.trace[j], h) {
      assert CauseOk(w.db, w.trace[i].generation, w.trace[i].cause);
      assert CauseOk(w.db, w.trace[j].generation, w.trace[j].cause);
      ReleasedOnce(instance, actions, i, j);
    }
  }

  /** The provider's recover operation is called at most once per failover execution. */
  lemma RecoverCalledOnce(instance: Id, actions: seq<Action>, i: nat, j: nat)
    ensures var trace := Run(Start(instance), actions).trace;
      i < |trace| && j < |trace| && trace[i].RecoverCalled? && trace[j].RecoverCalled? ==>
        trace[i].execution == trace[j].execution ==> i == j
  {
    hide Step, StepCall;
    ReachableOk(instance, actions);
    assert i < j || j < i || i == j;
  }

  /** Each failover decision yields at most one execution. */
  lemma DecisionExecutedOnce(instance: Id, actions: seq<Action>, i: nat, j: nat)
    ensures var trace := Run(Start(instance), actions).trace;
      i < |trace| && j < |trace| && trace[i].Executed? && trace[j].Executed? ==>
        trace[i].decision == trace[j].decision ==> i == j
  {
    hide Step, StepCall;
    ReachableOk(instance, actions);
    assert i < j || j < i || i == j;
  }
}
