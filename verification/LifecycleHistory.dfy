/** What the history of a run says about fence generations, decisions and provider recovery, under
    every interleaving. */
module LifecycleHistory {
  import opened Contracts
  import opened Fences
  import opened LifecycleStore
  import opened LifecycleRuns
  import opened LifecycleFence
  import E = FailoverEvidence

  // ----- Every step, classified -----

  /** Records that only ever move forward. */
  ghost predicate Persists(db: Db, after: Db) {
    && (forall e | e in db.executions && db.executions[e].state == Recovered ::
          e in after.executions && after.executions[e].state == Recovered)
    && (forall d | d in db.decisions ::
          && d in after.decisions && after.decisions[d].decision == db.decisions[d].decision
          && (db.decisions[d].consumed ==> after.decisions[d].consumed))
    && (forall d | d in after.decisions ::
          d in db.decisions || after.decisions[d].decision.generation <= after.fence.generation)
    && (forall e | e in db.attempts && db.attempts[e].state != Pending ::
          e in after.attempts && after.attempts[e].state != Pending)
  }

  predicate SameRecords(db: Db, after: Db) {
    after.packages.Keys == db.packages.Keys && after.executions.Keys == db.executions.Keys
  }

  /** The call that has just marked the attempt started and will call the provider's recover. */
  predicate MayCallRecover(c: Call) { c.RecoveryCall? && c.recovery.RecoveryMayCall? }

  /** No fence movement, no new package or execution, nothing to report. */
  ghost predicate Silent(w: World, v: World) {
    v.trace == w.trace && v.db.fence == w.db.fence && SameRecords(w.db, v.db)
  }

  ghost predicate Reserves(w: World, v: World, t: Id) {
    && w.db.fence.Open? && v.db.fence == Fenced(w.db.fence.generation, t)
    && v.db.packages.Keys == w.db.packages.Keys
    && (|| (v.trace == w.trace + [Reserved(w.db.fence.generation, t)] && v.db.executions.Keys == w.db.executions.Keys)
        || (exists d :: Executes(w, v, t, d)))
  }

  ghost predicate Executes(w: World, v: World, t: Id, d: Id) {
    && v.trace == w.trace + [Reserved(w.db.fence.generation, t), Executed(d, t, w.db.fence.generation)]
    && v.db.executions.Keys == w.db.executions.Keys + {t}
    && t !in w.db.executions && t in v.db.executions && v.db.executions[t].generation == w.db.fence.generation
    && d in w.db.decisions && w.db.decisions[d].decision.generation == w.db.fence.generation
    && w.db.decisions[d].decision.allowed && !w.db.decisions[d].consumed && d in v.db.decisions
      && v.db.decisions[d].consumed
  }

  ghost predicate Imports(w: World, v: World, t: Id) {
    && v.db.fence == w.db.fence && w.db.fence.Fenced? && w.db.fence.owner == t
    && v.trace == w.trace + [Imported(w.db.fence.generation, t)]
    && t !in w.db.packages && v.db.packages.Keys == w.db.packages.Keys + {t}
      && v.db.executions.Keys == w.db.executions.Keys
    && t in v.db.packages && v.db.packages[t].generation == w.db.fence.generation
  }

  /** The record behind a release. */
  ghost predicate CauseOk(db: Db, generation: nat, cause: Cause) {
    match cause
    case ByPromotion(h) => h in db.packages && db.packages[h].generation == generation
    case ByRollback(h) => h in db.packages && db.packages[h].generation == generation
    case ByRecovery(e) =>
      e in db.executions && db.executions[e].generation == generation && db.executions[e].state == Recovered
    case ByDiscovery(_) => true
  }

  ghost predicate Releases(w: World, v: World) {
    && w.db.fence.Fenced? && v.db.fence == Open(w.db.fence.generation + 1) && SameRecords(w.db, v.db)
    && |v.trace| == |w.trace| + 1 && v.trace[..|w.trace|] == w.trace
    && v.trace[|w.trace|].Released? && v.trace[|w.trace|].generation == w.db.fence.generation
    && CauseOk(v.db, w.db.fence.generation, v.trace[|w.trace|].cause)
  }

  ghost predicate Permits(w: World, v: World, t: Id) {
    && v.db.fence == w.db.fence && SameRecords(w.db, v.db) && t in v.calls && MayCallRecover(v.calls[t])
    && var e := v.calls[t].recovery.copy.id;
    && v.trace == w.trace + [RecoverPermitted(e, t)]
    && e in w.db.attempts && w.db.attempts[e].state == Pending && e in v.db.attempts
      && v.db.attempts[e].state != Pending
  }

  ghost predicate CallsRecover(w: World, v: World, t: Id) {
    && v.db == w.db && t in w.calls && MayCallRecover(w.calls[t]) && t in v.calls && !MayCallRecover(v.calls[t])
    && v.trace == w.trace + [RecoverCalled(w.calls[t].recovery.copy.id, t)]
  }

  /** Everything one step of call `t` may amount to. */
  ghost predicate Progress(w: World, v: World, t: Id) {
    && v.next == w.next && DbOk(v.db, v.next) && Evolves(w.db, v.db, t) && Persists(w.db, v.db)
    && (forall u | u in v.calls && u != t :: u in w.calls && v.calls[u] == w.calls[u])
    && (t in v.calls ==> CallOk(v.db, t, v.calls[t]))
    && (|| (Silent(w, v) && (t in v.calls ==> !MayCallRecover(v.calls[t])))
        || (Reserves(w, v, t) && (t in v.calls ==> !MayCallRecover(v.calls[t])))
        || (Imports(w, v, t) && (t in v.calls ==> !MayCallRecover(v.calls[t])))
        || (Releases(w, v) && t !in v.calls)
        || Permits(w, v, t)
        || CallsRecover(w, v, t))
  }

  // Each lemma below proves one shape of step; `v` is the world after it.

  /** The other calls are as they were, and call `t` does not hold a permission to call recover. */
  predicate Continues(w: World, v: World, t: Id) {
    && v.next == w.next
    && (forall u | u in v.calls && u != t :: u in w.calls && v.calls[u] == w.calls[u])
    && (t in v.calls ==> !MayCallRecover(v.calls[t]))
  }

  /** What call `t` knows after the step is true. */
  predicate NextOk(v: World, t: Id) { t in v.calls ==> CallOk(v.db, t, v.calls[t]) }

  /** The kinds of steps that report something, put together. */
  lemma ReservesProgress(w: World, v: World, t: Id)
    requires Reserves(w, v, t) && DbOk(v.db, v.next) && Evolves(w.db, v.db, t) && Persists(w.db, v.db)
    requires Continues(w, v, t) && NextOk(v, t)
    ensures Progress(w, v, t)
  {
    hide Reserves, DbOk, Evolves, Persists, CallOk;
  }

  lemma ImportsProgress(w: World, v: World, t: Id)
    requires Imports(w, v, t) && DbOk(v.db, v.next) && Evolves(w.db, v.db, t) && Persists(w.db, v.db)
    requires Continues(w, v, t) && NextOk(v, t)
    ensures Progress(w, v, t)
  {
    hide Imports, DbOk, Evolves, Persists, CallOk;
  }

  lemma ReleasesProgress(w: World, v: World, t: Id)
    requires Releases(w, v) && t !in v.calls && DbOk(v.db, v.next) && Evolves(w.db, v.db, t) && Persists(w.db, v.db)
    requires Continues(w, v, t)
    ensures Progress(w, v, t)
  {
    hide Releases, DbOk, Evolves, Persists, CallOk;
  }

  lemma SilentProgress(w: World, v: World, t: Id)
    requires Silent(w, v) && DbOk(v.db, v.next) && Evolves(w.db, v.db, t) && Persists(w.db, v.db)
    requires Continues(w, v, t) && NextOk(v, t)
    ensures Progress(w, v, t)
  {
    hide Silent, DbOk, Evolves, Persists, CallOk;
  }

  lemma ReadProgress(w: World, v: World, t: Id)
    requires FenceInv(w) && t in w.calls && v.db == w.db && v.trace == w.trace && Continues(w, v, t) && NextOk(v, t)
    ensures Progress(w, v, t)
  {
  }

  lemma ViewProgress(w: World, v: World, t: Id)
    requires FenceInv(w) && t in w.calls && SameView(w.db, v.db) && Persists(w.db, v.db) && v.trace == w.trace
    requires Continues(w, v, t) && NextOk(v, t)
    ensures Progress(w, v, t)
  {
    hide Progress, DbOk, Evolves, Persists;
    SameViewKeeps(w.db, v.db, t, w.next);
    SilentProgress(w, v, t);
  }

  lemma ReserveProgress(w: World, v: World, t: Id)
    requires FenceInv(w) && t in w.calls && w.db.fence.Open? && v.db == w.db.(fence := Fenced(w.db.fence.generation, t))
    requires v.trace == w.trace + [Reserved(w.db.fence.generation, t)]
    requires Continues(w, v, t) && NextOk(v, t)
    ensures Progress(w, v, t)
  {
    hide Progress, DbOk, Evolves;
    ReserveKeeps(w.db, t, w.next);
    ReservesProgress(w, v, t);
  }

  lemma MoveProgress(w: World, v: World, t: Id, e: Id, expected: ExecutionState, to: ExecutionState)
    requires FenceInv(w) && t in w.calls && MoveExecution(w.db, e, expected, to, None).Some? && to != Recovered
    requires to == TransitionStarted ==> t == e && e !in w.db.packages
    requires v.db == MoveExecution(w.db, e, expected, to, None).value && v.trace == w.trace
    requires Continues(w, v, t) && NextOk(v, t)
    ensures Progress(w, v, t)
  {
    hide Progress, DbOk, Evolves;
    MoveKeeps(w.db, t, e, expected, to, None, w.next);
    SilentProgress(w, v, t);
  }

  /** A package is rewritten and its transition moved, without ending it. */
  lemma RewriteProgress(w: World, v: World, t: Id, p: Package)
    requires FenceInv(w) && t in w.calls && PackageCopy(w.db, p) && v.db.packages == w.db.packages[p.id := p]
    requires v.db.fence == w.db.fence && v.db.executions == w.db.executions
    requires v.db.transition == w.db.transition
      || (w.db.Blocked() && v.db.Blocked()
        && v.db.transition.value == w.db.transition.value.(state := v.db.transition.value.state))
    requires v.db.decisions == w.db.decisions && v.db.attempts == w.db.attempts && v.trace == w.trace
    requires Continues(w, v, t) && NextOk(v, t)
    ensures Progress(w, v, t)
  {
    hide Progress, DbOk, Evolves;
    RewriteKeeps(w.db, v.db, t, p, w.next);
    SilentProgress(w, v, t);
  }

  /** The transition ends and its fence opens. */
  lemma FinishProgress(w: World, v: World, t: Id, p: Package, cause: Cause)
    requires FenceInv(w) && t in w.calls && PackageCopy(w.db, p) && v.db.packages == w.db.packages[p.id := p]
    requires w.db.fence == Fenced(p.generation, p.owner) && v.db.fence == Open(p.generation + 1)
    requires v.db.executions == w.db.executions
    requires w.db.Blocked() && !v.db.Blocked() && v.db.transition.Some?
      && v.db.transition.value == w.db.transition.value.(state := v.db.transition.value.state)
    requires v.db.decisions == w.db.decisions && v.db.attempts == w.db.attempts
    requires v.trace == w.trace + [Released(p.generation, cause)]
    requires (cause == ByPromotion(p.id) || cause == ByRollback(p.id))
    requires Continues(w, v, t) && t !in v.calls
    ensures Progress(w, v, t)
  {
    hide Progress, DbOk, Evolves;
    FinishKeeps(w.db, v.db, t, p, w.next);
    ReleasesProgress(w, v, t);
  }

  predicate HoldsReservation(s: RollbackStage) {
    s.RollbackHeld? || s.RollbackCancelled? || s.RollbackReady? ==>
        s.op == Fenced(s.package.generation, s.package.owner)
  }

  /** A call that goes on with nothing but a copy of a package, or of an execution and its reservation. */
  predicate HoldsCopy(db: Db, c: Call) {
    match c
    case CompletionCall(s) => s.Promotion? || PackageCopy(db, s.package)
    case ReconcileCall(s) => s.Reconcile? || PackageCopy(db, s.package)
    case RollbackCall(s) => s.Rollback? || (PackageCopy(db, s.package) && HoldsReservation(s))
    case RecoveryCall(s) =>
      if s.Recovery? then true
      else if s.RecoveryOf? then ExecutionCopy(db, s.copy, Fenced(s.copy.generation, s.copy.owner))
      else !s.RecoveryMayCall? && ExecutionCopy(db, s.copy, s.op)
    case _ => false
  }

  lemma CopyIsKnown(db: Db, t: Id, c: Call)
    requires HoldsCopy(db, c)
    ensures CallOk(db, t, c) && !MayCallRecover(c)
  {
  }

  /** Only call `t` moves, and it goes on with a copy. */
  predicate ReadsOn(w: World, v: World, t: Id) {
    && v == w.(calls := v.calls) && (forall u | u in v.calls && u != t :: u in w.calls && v.calls[u] == w.calls[u])
    && (t in v.calls ==> HoldsCopy(w.db, v.calls[t]))
  }

  lemma ReadsOnProgress(w: World, v: World, t: Id)
    requires FenceInv(w) && t in w.calls && ReadsOn(w, v, t)
    ensures Progress(w, v, t)
  {
    hide Progress, FenceInv, CallOk, MayCallRecover;
    if t in v.calls { CopyIsKnown(v.db, t, v.calls[t]); }
    ReadProgress(w, v, t);
  }

  /** The same for a step that writes nothing the fence depends on. */
  ghost predicate ViewsOn(w: World, v: World, t: Id) {
    && SameView(w.db, v.db) && Persists(w.db, v.db) && v == w.(db := v.db, calls := v.calls)
    && (forall u | u in v.calls && u != t :: u in w.calls && v.calls[u] == w.calls[u])
    && (t in v.calls ==> HoldsCopy(v.db, v.calls[t]))
  }

  lemma ViewsOnProgress(w: World, v: World, t: Id)
    requires FenceInv(w) && t in w.calls && ViewsOn(w, v, t)
    ensures Progress(w, v, t)
  {
    hide Progress, FenceInv, CallOk, MayCallRecover, Persists;
    if t in v.calls { CopyIsKnown(v.db, t, v.calls[t]); }
    ViewProgress(w, v, t);
  }

  predicate OwnIds(db: Db) { forall p | p in db.packages :: db.packages[p].id == p }

  lemma IdsAreOwn(db: Db, next: Id)
    requires DbOk(db, next)
    ensures OwnIds(db)
  {
    forall p | p in db.packages ensures db.packages[p].id == p { assert PackageOk(db, p); }
  }

  // ----- execute_failover -----

  lemma ExecuteDoes(w: World, v: World, t: Id, d: Id, original: DecisionRow, i: Input)
    requires FenceInv(w) && t < w.next && Justified(w.db, t, Checked(original))
    requires v == StepExecute(w, t, d, original, i)
    requires ExecuteFailover(w.db, t, d, original, i.evidence, i.now, i.later).Some? && original.decision.incoming.Some?
    ensures DbOk(v.db, v.next) && Evolves(w.db, v.db, t) && Continues(w, v, t) && NextOk(v, t) && Executes(w, v, t, d)
  {
    hide ExecuteFailover, DbOk, Evolves;
    ExecuteEffect(w.db, t, d, original, i);
    ExecuteKeeps(w.db, t, d, original, i, w.next);
  }

  lemma ExecutePersists(w: World, v: World, t: Id, d: Id, original: DecisionRow, i: Input)
    requires v == StepExecute(w, t, d, original, i)
    requires ExecuteFailover(w.db, t, d, original, i.evidence, i.now, i.later).Some? && original.decision.incoming.Some?
    ensures Persists(w.db, v.db)
  {
    hide ExecuteFailover;
    ExecuteEffect(w.db, t, d, original, i);
  }

  lemma ExecuteProgress(w: World, v: World, t: Id, d: Id, original: DecisionRow, i: Input)
    requires FenceInv(w) && t in w.calls && Justified(w.db, t, Checked(original))
    requires v == StepExecute(w, t, d, original, i)
    ensures Progress(w, v, t)
  {
    hide Progress, ExecuteFailover, DbOk, Evolves, Persists;
    if ExecuteFailover(w.db, t, d, original, i.evidence, i.now, i.later).Some? && original.decision.incoming.Some? {
      ExecuteDoes(w, v, t, d, original, i);
      ExecutePersists(w, v, t, d, original, i);
      ExecuteEffect(w.db, t, d, original, i);
      ReservesProgress(w, v, t);
    } else { ReadProgress(w, v, t); }
  }

  lemma EvaluatedNow(db: Db, id: Id, evidence: E.Evidence, now: int)
    ensures var e := EvaluateFailover(db, id, evidence, now);
      e.Some? && e.value.Decided? ==> e.value.decision.generation == db.fence.generation
  {
    hide Authoritative;
  }

  lemma EvaluateReads(w: World, v: World, t: Id, i: Input)
    requires v == StepFailover(w, t, Evaluate, i)
    ensures v.db == w.db && v.trace == w.trace && Continues(w, v, t) && NextOk(v, t)
  {
    hide StepExecute, EvaluateFailover;
    EvaluatedNow(w.db, t, i.evidence, i.now);
  }

  lemma FailoverReadProgress(w: World, v: World, t: Id, s: FailoverStage, i: Input)
    requires FenceInv(w) && t in w.calls && Justified(w.db, t, KnowsInFailover(s)) && v == StepFailover(w, t, s, i)
    requires !s.ExecuteChecked?
    ensures Progress(w, v, t)
  {
    hide Progress, FenceInv, StepExecute, EvaluateFailover;
    match s
    case Evaluate =>
      EvaluateReads(w, v, t, i);
      ReadProgress(w, v, t);
    case Execute(d) => ReadProgress(w, v, t);
    case SaveEvaluation(d) => ViewProgress(w, v, t);
  }

  lemma FailoverProgress(w: World, v: World, t: Id, s: FailoverStage, i: Input)
    requires FenceInv(w) && t in w.calls && Justified(w.db, t, KnowsInFailover(s)) && v == StepFailover(w, t, s, i)
    ensures Progress(w, v, t)
  {
    hide Progress, FenceInv, StepExecute, EvaluateFailover;
    if s.ExecuteChecked? { ExecuteProgress(w, v, t, s.decision, s.original, i); }
    else { FailoverReadProgress(w, v, t, s, i); }
  }

  // ----- _perform_handoff -----

  lemma HandoffFromProgress(w: World, v: World, t: Id, s: HandoffStage, i: Input)
    requires FenceInv(w) && t in w.calls && Justified(w.db, t, KnowsInHandoff(s)) && v == StepHandoff(w, t, s, i)
    requires s.HandoffFrom?
    ensures Progress(w, v, t)
  {
    hide EvaluateFailover, ExecuteFailover, Progress, FenceInv;
    if s.held.None? && w.db.fence.Open? { ReserveProgress(w, v, t); } else { ReadProgress(w, v, t); }
  }

  lemma ExecutionStepProgress(w: World, v: World, t: Id, s: HandoffStage, i: Input)
    requires FenceInv(w) && t in w.calls && Justified(w.db, t, KnowsInHandoff(s)) && v == StepHandoff(w, t, s, i)
    requires s.HandoffReserved? || s.HandoffUnusable? || s.HandoffCheckpointed?
    ensures Progress(w, v, t)
  {
    hide Progress, FenceInv, StepImport, Authoritative;
    var from := if s.HandoffReserved? then ExReserved else Draining;
    var to := if s.HandoffReserved? then Draining else if s.HandoffUnusable? then BlockedPreimport
    else TransitionStarted;
    if s.plan.failover && MoveExecution(w.db, t, from, to, None).Some? { MoveProgress(w, v, t, t, from, to); }
    else { ReadProgress(w, v, t); }
  }

  lemma ImportDoes(w: World, v: World, t: Id, plan: Plan)
    requires FenceInv(w) && t < w.next && Justified(w.db, t, Ready(plan)) && v == StepImport(w, t, plan)
    requires plan.op.Fenced? && StartImport(w.db, t, plan.provider, plan.op, plan.outgoing).Some?
    ensures DbOk(v.db, v.next) && Evolves(w.db, v.db, t) && Persists(w.db, v.db)
    ensures Continues(w, v, t) && NextOk(v, t) && Imports(w, v, t)
  {
    hide StartImport, DbOk, Evolves;
    ImportEffect(w.db, t, plan);
    ImportKeeps(w.db, t, plan, w.next);
  }

  lemma ImportProgress(w: World, v: World, t: Id, plan: Plan)
    requires FenceInv(w) && t in w.calls && Justified(w.db, t, Ready(plan)) && v == StepImport(w, t, plan)
    ensures Progress(w, v, t)
  {
    hide Progress, StartImport, DbOk, Evolves, Persists, Imports;
    if StartImport(w.db, t, plan.provider, plan.op, plan.outgoing).Some? {
      ImportDoes(w, v, t, plan);
      ImportsProgress(w, v, t);
    } else { ReadProgress(w, v, t); }
  }

  lemma HandoffProgress(w: World, v: World, t: Id, s: HandoffStage, i: Input)
    requires FenceInv(w) && t in w.calls && Justified(w.db, t, KnowsInHandoff(s)) && v == StepHandoff(w, t, s, i)
    ensures Progress(w, v, t)
  {
    hide EvaluateFailover, ExecuteFailover, Progress, FenceInv;
    if s.HandoffFrom? { HandoffFromProgress(w, v, t, s, i); }
    else if s.HandoffReserved? || s.HandoffUnusable? || s.HandoffCheckpointed? { ExecutionStepProgress(w, v, t, s, i); }
    else if s.HandoffImporting? { ImportProgress(w, v, t, s.plan); }
    else { ReadProgress(w, v, t); }
  }

  // ----- _complete_handoff and promotion -----

  lemma ImportAnswerProgress(w: World, v: World, t: Id, p: Package, incoming: Epoch, r: Result, quarantine: bool)
    requires FenceInv(w) && t in w.calls && PackageCopy(w.db, p)
    requires v == StepImportAnswer(w, t, p, incoming, r, quarantine)
    ensures Progress(w, v, t)
  {
    hide StartImport, FailHandoff, AcknowledgeImport, Promote, Progress, FenceInv;
    if ImportAccepted(w.db, p, incoming, r) {
      if AcknowledgeImport(w.db, p, incoming, r).Some? {
        AcknowledgeEffect(w.db, p, incoming, r);
        RewriteProgress(w, v, t, v.db.packages[p.id]);
      } else { ReadProgress(w, v, t); }
    } else if FailHandoff(w.db, p, incoming, r, quarantine).Some? {
      FailEffect(w.db, p, incoming, r, quarantine);
      RewriteProgress(w, v, t, v.db.packages[p.id]);
    } else { ReadProgress(w, v, t); }
  }

  lemma PromoteProgress(w: World, v: World, t: Id, p: Package, tr: Transition, incoming: Epoch, outgoing: Epoch)
    requires FenceInv(w) && t in w.calls && PackageCopy(w.db, p) && v == StepPromote(w, t, p, tr, incoming, outgoing)
    ensures Progress(w, v, t)
  {
    hide Progress;
    if Promote(w.db, p, tr, incoming, outgoing).Some? {
      PromoteEffect(w.db, p, tr, incoming, outgoing);
      FinishProgress(w, v, t, v.db.packages[p.id], ByPromotion(p.id));
    } else { ReadProgress(w, v, t); }
  }

  lemma CompleteReads(w: World, v: World, t: Id, s: CompletionStage, i: Input)
    requires OwnIds(w.db) && (s.Promotion? || PackageCopy(w.db, s.package))
    requires !s.Complete? && !s.PromotionReady? && v == StepComplete(w, t, s, i)
    ensures ReadsOn(w, v, t)
  {
    hide SessionBound, ResultBound, StepImportAnswer, StepPromote;
  }

  lemma CompleteReadProgress(w: World, v: World, t: Id, s: CompletionStage, i: Input)
    requires FenceInv(w) && t in w.calls && (s.Promotion? || PackageCopy(w.db, s.package))
    requires !s.Complete? && !s.PromotionReady? && v == StepComplete(w, t, s, i)
    ensures Progress(w, v, t)
  {
    hide Progress, StepComplete, DbOk, ReadsOn;
    IdsAreOwn(w.db, w.next);
    CompleteReads(w, v, t, s, i);
    ReadsOnProgress(w, v, t);
  }

  lemma CompleteProgress(w: World, v: World, t: Id, s: CompletionStage, i: Input)
    requires FenceInv(w) && t in w.calls && (s.Promotion? || PackageCopy(w.db, s.package))
    requires v == StepComplete(w, t, s, i)
    ensures Progress(w, v, t)
  {
    hide Progress, FenceInv, StepImportAnswer, StepPromote;
    if s.Complete? { ImportAnswerProgress(w, v, t, s.package, s.incoming, s.result, s.quarantine); }
    else if s.PromotionReady? { PromoteProgress(w, v, t, s.package, s.transition, s.incoming, s.outgoing); }
    else { CompleteReadProgress(w, v, t, s, i); }
  }

  // ----- reconcile_handoff -----

  lemma ReopenProgress(w: World, v: World, t: Id, p: Package, tr: Transition, incoming: Epoch, r: Result)
    requires FenceInv(w) && t in w.calls && PackageCopy(w.db, p) && v == StepReopen(w, t, p, tr, incoming, r)
    ensures Progress(w, v, t)
  {
    hide EvaluateFailover, ExecuteFailover;
    if StartReconcile(w.db, p, tr).Some? {
      ReconcileEffect(w.db, p, tr);
      RewriteProgress(w, v, t, v.db.packages[p.id]);
    } else { ReadProgress(w, v, t); }
  }

  lemma ReconcileReads(w: World, v: World, t: Id, s: ReconcileStage, i: Input)
    requires OwnIds(w.db) && (s.Reconcile? || PackageCopy(w.db, s.package))
    requires !s.ReconcileOpen? && v == StepReconcile(w, t, s, i)
    ensures ReadsOn(w, v, t)
  {
    hide SameBindings, StepReopen;
  }

  lemma ReconcileReadProgress(w: World, v: World, t: Id, s: ReconcileStage, i: Input)
    requires FenceInv(w) && t in w.calls && (s.Reconcile? || PackageCopy(w.db, s.package))
    requires !s.ReconcileOpen? && v == StepReconcile(w, t, s, i)
    ensures Progress(w, v, t)
  {
    hide Progress, StepReconcile, DbOk, ReadsOn;
    IdsAreOwn(w.db, w.next);
    ReconcileReads(w, v, t, s, i);
    ReadsOnProgress(w, v, t);
  }

  lemma ReconcileProgress(w: World, v: World, t: Id, s: ReconcileStage, i: Input)
    requires FenceInv(w) && t in w.calls && (s.Reconcile? || PackageCopy(w.db, s.package))
    requires v == StepReconcile(w, t, s, i)
    ensures Progress(w, v, t)
  {
    hide Progress, FenceInv, StartReconcile, StepReopen;
    if s.ReconcileOpen? { ReopenProgress(w, v, t, s.package, s.transition, s.incoming, s.result); }
    else { ReconcileReadProgress(w, v, t, s, i); }
  }

  // ----- rollback_handoff -----

  lemma RollBackProgress(w: World, v: World, t: Id, p: Package, tr: Transition, outgoing: Epoch, incoming: Epoch,
      op: Fence)
    requires FenceInv(w) && t in w.calls && PackageCopy(w.db, p) && op == Fenced(p.generation, p.owner)
    requires v == StepRollBack(w, t, p, tr, outgoing, incoming, op)
    ensures Progress(w, v, t)
  {
    hide Progress;
    if RollBack(w.db, p, tr, incoming, outgoing, op).Some? {
      RollBackEffect(w.db, p, tr, incoming, outgoing, op);
      FinishProgress(w, v, t, v.db.packages[p.id], ByRollback(p.id));
    } else { ReadProgress(w, v, t); }
  }

  lemma BlockProgress(w: World, v: World, t: Id, p: Package, tr: Transition, incoming: Epoch)
    requires FenceInv(w) && t in w.calls && PackageCopy(w.db, p) && v == StepBlock(w, t, p, tr, incoming)
    ensures Progress(w, v, t)
  {
    hide Progress, FenceInv;
    if BlockRollback(w.db, p, tr, incoming).Some? {
      BlockEffect(w.db, p, tr, incoming);
      RewriteProgress(w, v, t, v.db.packages[p.id]);
    } else { ReadProgress(w, v, t); }
  }

  lemma RollbackReads(w: World, v: World, t: Id, s: RollbackStage, i: Input)
    requires OwnIds(w.db) && HoldsCopy(w.db, RollbackCall(s)) && v == StepRollback(w, t, s, i)
    requires !s.RollbackReady? && !s.RollbackBlocked?
    ensures ReadsOn(w, v, t)
  {
    hide StepRollBack, StepBlock, SessionBound, DurablyAcknowledged, IsOpen;
  }

  lemma RollbackReadProgress(w: World, v: World, t: Id, s: RollbackStage, i: Input)
    requires FenceInv(w) && t in w.calls && HoldsCopy(w.db, RollbackCall(s))
    requires !s.RollbackReady? && !s.RollbackBlocked? && v == StepRollback(w, t, s, i)
    ensures Progress(w, v, t)
  {
    hide Progress, StepRollback, DbOk, ReadsOn, HoldsCopy;
    IdsAreOwn(w.db, w.next);
    RollbackReads(w, v, t, s, i);
    ReadsOnProgress(w, v, t);
  }

  lemma RollbackProgress(w: World, v: World, t: Id, s: RollbackStage, i: Input)
    requires FenceInv(w) && t in w.calls && Justified(w.db, t, Knows(RollbackCall(s))) && v == StepRollback(w, t, s, i)
    ensures Progress(w, v, t)
  {
    hide Progress, FenceInv, StepRollBack, StepBlock;
    if s.RollbackReady? { RollBackProgress(w, v, t, s.package, s.transition, s.outgoing, s.incoming, s.op); }
    else if s.RollbackBlocked? { BlockProgress(w, v, t, s.package, s.transition, s.incoming); }
    else { RollbackReadProgress(w, v, t, s, i); }
  }

  // ----- recover_failover_execution -----

  lemma ClaimEffect(db: Db, t: Id, x: Execution, op: Fence, next: Id)
    requires DbOk(db, next) && ExecutionCopy(db, x, op) && ClaimRecovery(db, t, x.id).Some?
    ensures var after := ClaimRecovery(db, t, x.id).value;
      && DbOk(after, next) && Evolves(db, after, t) && ExecutionCopy(after, x.(state := Recovering), op)
      && after.fence == db.fence && after.packages == db.packages && after.executions.Keys == db.executions.Keys
      && after.decisions == db.decisions && Persists(db, after)
  {
    MoveKeeps(db, t, x.id, BlockedPreimport, Recovering, None, next);
    var moved := MoveExecution(db, x.id, BlockedPreimport, Recovering, None).value;
    var after := ClaimRecovery(db, t, x.id).value;
    assert after == moved.(attempts := after.attempts);
    SameViewKeeps(moved, after, t, next);
  }

  lemma ClaimDoes(w: World, v: World, t: Id, x: Execution, op: Fence, i: Input)
    requires FenceInv(w) && t in w.calls && ExecutionCopy(w.db, x, op) && v == StepClaim(w, t, x, op, i)
    requires x.state == BlockedPreimport && ClaimRecovery(w.db, t, x.id).Some?
    ensures Silent(w, v) && DbOk(v.db, v.next) && Evolves(w.db, v.db, t) && Persists(w.db, v.db)
    ensures Continues(w, v, t) && NextOk(v, t)
  {
    hide ClaimRecovery, RecoveryValid, DbOk, Evolves, Persists;
    ClaimEffect(w.db, t, x, op, w.next);
  }

  lemma ClaimProgress(w: World, v: World, t: Id, x: Execution, op: Fence, i: Input)
    requires FenceInv(w) && t in w.calls && ExecutionCopy(w.db, x, op) && v == StepClaim(w, t, x, op, i)
    ensures Progress(w, v, t)
  {
    hide Progress, ClaimRecovery, RecoveryValid, DbOk, Evolves, Persists;
    if x.state == BlockedPreimport && ClaimRecovery(w.db, t, x.id).Some? {
      ClaimDoes(w, v, t, x, op, i);
      SilentProgress(w, v, t);
    } else { ReadProgress(w, v, t); }
  }

  lemma PermitProgress(w: World, v: World, t: Id, x: Execution, op: Fence, a: Attempt, i: Input)
    requires FenceInv(w) && t in w.calls && ExecutionCopy(w.db, x, op) && v == StepPermit(w, t, x, op, a, i)
    ensures Progress(w, v, t)
  {
    if a.state == Pending && MoveAttempt(w.db, x.id, Pending, ExternalStarted).Some? {
      SameViewKeeps(w.db, v.db, t, w.next);
      assert Permits(w, v, t);
    } else { ReadProgress(w, v, t); }
  }

  lemma CallProgress(w: World, v: World, t: Id, x: Execution, op: Fence, a: Attempt, i: Input)
    requires FenceInv(w) && t in w.calls && ExecutionCopy(w.db, x, op)
    requires w.calls[t] == RecoveryCall(RecoveryMayCall(x, op, a))
    requires v == StepCallRecover(w, t, x, op, a, i)
    ensures Progress(w, v, t)
  {
    SameViewKeeps(w.db, v.db, t, w.next);
    assert CallsRecover(w, v, t);
  }

  lemma RecordView(w: World, v: World, t: Id, x: Execution, op: Fence, a: Attempt, r: Result, called: bool)
    requires ExecutionCopy(w.db, x, op) && v == StepRecord(w, t, x, op, a, r, called)
    ensures ViewsOn(w, v, t)
  {
    hide RecoveryValid, SameExecution;
  }

  lemma RecordProgress(w: World, v: World, t: Id, x: Execution, op: Fence, a: Attempt, r: Result, called: bool)
    requires FenceInv(w) && t in w.calls && ExecutionCopy(w.db, x, op) && v == StepRecord(w, t, x, op, a, r, called)
    ensures Progress(w, v, t)
  {
    hide Progress, FenceInv, StepRecord, ViewsOn;
    RecordView(w, v, t, x, op, a, r, called);
    ViewsOnProgress(w, v, t);
  }

  lemma InspectedProgress(w: World, v: World, t: Id, x: Execution, op: Fence, r: Result)
    requires FenceInv(w) && t in w.calls && ExecutionCopy(w.db, x, op)
    requires v == Commit(w, t, SaveResult(w.db, r), RecoveryCall(RecoveryFinal(x, op, Some(r.id))), [])
    ensures Progress(w, v, t)
  {
    hide Progress, FenceInv;
    assert ViewsOn(w, v, t);
    ViewsOnProgress(w, v, t);
  }

  lemma FinalProgress(w: World, v: World, t: Id, x: Execution, op: Fence, resume: Option<Id>)
    requires FenceInv(w) && t in w.calls && ExecutionCopy(w.db, x, op) && v == StepFinal(w, t, x, op, resume)
    ensures Progress(w, v, t)
  {
    hide Progress, DbOk, Evolves, FinalizeRecovery;
    if FinalizeRecovery(w.db, x, op, resume).Some? {
      FinalizeEffect(w.db, x, op, resume);
      FinalizeKeeps(w.db, t, x, op, resume, w.next);
      assert v.trace[|w.trace|] == Released(w.db.fence.generation, ByRecovery(x.id));
      ReleasesProgress(w, v, t);
    } else { ReadProgress(w, v, t); }
  }

  lemma ReplayProgress(w: World, v: World, t: Id, x: Execution, op: Fence, a: Attempt)
    requires FenceInv(w) && t in w.calls && ExecutionCopy(w.db, x, op) && v == StepReplay(w, t, x, op, a)
    ensures Progress(w, v, t)
  {
    hide Progress, FenceInv;
    ReadProgress(w, v, t);
  }

  lemma RecoveryReads(w: World, v: World, t: Id, s: RecoveryStage, i: Input)
    requires (forall e | e in w.db.executions :: w.db.executions[e].id == e) && HoldsCopy(w.db, RecoveryCall(s))
    requires s.Recovery? || s.RecoveryOf? || s.RecoveryHeld? || s.RecoveryUnblocked?
    requires v == StepRecovery(w, t, s, i)
    ensures ReadsOn(w, v, t)
  {
    hide StepClaim, StepReplay, StepPermit, StepCallRecover, StepRecord, StepFinal;
  }

  lemma RecoveryReadProgress(w: World, v: World, t: Id, s: RecoveryStage, i: Input)
    requires FenceInv(w) && t in w.calls && HoldsCopy(w.db, RecoveryCall(s))
    requires s.Recovery? || s.RecoveryOf? || s.RecoveryHeld? || s.RecoveryUnblocked?
    requires v == StepRecovery(w, t, s, i)
    ensures Progress(w, v, t)
  {
    hide Progress, StepRecovery, HoldsCopy, ReadsOn;
    forall e | e in w.db.executions ensures w.db.executions[e].id == e { assert ExecutionOk(w.db, e); }
    RecoveryReads(w, v, t, s, i);
    ReadsOnProgress(w, v, t);
  }

  lemma RecoveryProgress(w: World, v: World, t: Id, s: RecoveryStage, i: Input)
    requires FenceInv(w) && Stands(w, t, RecoveryCall(s)) && Justified(w.db, t, KnowsInRecovery(s))
    requires v == StepRecovery(w, t, s, i)
    ensures Progress(w, v, t)
  {
    hide EvaluateFailover, ExecuteFailover, FenceInv, Progress, StepClaim, StepReplay, StepPermit, StepCallRecover,
        StepRecord, StepFinal, RecoveryValid, SaveResult, SameExecution, OperationFor;
    match s
    case RecoveryBound(x, op) => ClaimProgress(w, v, t, x, op, i);
    case RecoveryInspected(x, op, r) => InspectedProgress(w, v, t, x, op, r);
    case RecoveryAttempt(x, op, a) => ReplayProgress(w, v, t, x, op, a);
    case RecoveryAttemptOpen(x, op, a) => PermitProgress(w, v, t, x, op, a, i);
    case RecoveryMayCall(x, op, a) => CallProgress(w, v, t, x, op, a, i);
    case RecoveryAnswered(x, op, a, r, called) => RecordProgress(w, v, t, x, op, a, r, called);
    case RecoveryFinal(x, op, resume) => FinalProgress(w, v, t, x, op, resume);
    case _ => RecoveryReadProgress(w, v, t, s, i);
  }

  // ----- discover, activate, recover -----

  lemma DiscoverHeldProgress(w: World, v: World, t: Id, op: Fence, i: Input)
    requires FenceInv(w) && t in w.calls && Justified(w.db, t, Took(op)) && v == StepDiscovery(w, t, op, i)
    ensures Progress(w, v, t)
  {
    hide Progress, DbOk;
    if i.flag && CommitDiscovery(w.db, op, i.sessions).Some? { SaveSessionsView(w.db, i.sessions); }
    ViewProgress(w, v, t);
  }

  lemma DiscoverDoneProgress(w: World, v: World, t: Id, op: Fence)
    requires FenceInv(w) && t in w.calls && Justified(w.db, t, Took(op))
    requires v == CommitAndEnd(w, t, ReleaseOperation(w.db, op), [Released(w.db.fence.generation, ByDiscovery(t))])
    ensures Progress(w, v, t)
  {
    hide Progress, DbOk, Evolves;
    DiscoverReleaseKeeps(w.db, t, op, w.next);
    assert v.trace[|w.trace|] == Released(w.db.fence.generation, ByDiscovery(t));
    ReleasesProgress(w, v, t);
  }

  lemma DiscoverProgress(w: World, v: World, t: Id, s: SessionStage, i: Input)
    requires FenceInv(w) && t in w.calls && Justified(w.db, t, KnowsInSession(s)) && v == StepSession(w, t, s, i)
    requires s.Discover? || s.DiscoverHeld? || s.DiscoverDone?
    ensures Progress(w, v, t)
  {
    hide Progress, FenceInv, StepDiscovery, OpenEpoch, RecoverSession, Authoritative;
    match s
    case Discover => if w.db.fence.Open? { ReserveProgress(w, v, t); } else { ReadProgress(w, v, t); }
    case DiscoverHeld(op) => DiscoverHeldProgress(w, v, t, op, i);
    case DiscoverDone(op) => DiscoverDoneProgress(w, v, t, op);
  }

  lemma OpenProgress(w: World, v: World, t: Id, s: SessionStage, i: Input)
    requires FenceInv(w) && t in w.calls && v == StepSession(w, t, s, i)
    requires s.Activate? || s.ActivateStarted? || s.Recover?
    ensures Progress(w, v, t)
  {
    hide EvaluateFailover, ExecuteFailover, CommitDiscovery, OpenEpoch, RecoverSession, Progress, FenceInv;
    match s
    case Activate(provider) => ReadProgress(w, v, t);
    case ActivateStarted(provider, external) =>
      if OpenEpoch(w.db, t, provider, None, external, Running).Some? {
        OpenEpochView(w.db, t, provider, None, external, Running);
      }
      ViewProgress(w, v, t);
    case Recover(session) =>
      if RecoverSession(w.db, t, session, i.result).Some? { RecoverSessionView(w.db, t, session, i.result); }
      ViewProgress(w, v, t);
  }

  lemma AdvanceProgress(w: World, v: World, t: Id, i: Input)
    requires FenceInv(w) && Moves(w, v, t, i)
    ensures Progress(w, v, t)
  {
    hide StepFailover, StepHandoff, StepComplete, StepReconcile, StepRollback, StepRecovery, StepSession,
        EvaluateFailover, ExecuteFailover;
    assert CallOk(w.db, t, w.calls[t]);
    match w.calls[t]
    case FailoverCall(s) => FailoverProgress(w, v, t, s, i);
    case HandoffCall(s) => HandoffProgress(w, v, t, s, i);
    case CompletionCall(s) => CompleteProgress(w, v, t, s, i);
    case ReconcileCall(s) => ReconcileProgress(w, v, t, s, i);
    case RollbackCall(s) => RollbackProgress(w, v, t, s, i);
    case RecoveryCall(s) => RecoveryProgress(w, v, t, s, i);
    case SessionCall(s) =>
      if s.Discover? || s.DiscoverHeld? || s.DiscoverDone? {
        DiscoverProgress(w, v, t, s, i);
      } else {
        OpenProgress(w, v, t, s, i);
      }
  }
}
