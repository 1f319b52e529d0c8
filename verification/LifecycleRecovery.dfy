/** The rows of failover executions under every interleaving: what an execution, its decision, its recovery
    attempt and the recorded outcome say about each other, and so exactly when a recovery ends. */
module LifecycleRecovery {
  import opened Contracts
  import opened Fences
  import opened LifecycleStore
  import opened LifecycleRuns
  import opened LifecycleFence
  import opened LifecycleHistory
  import opened LifecycleSafety
  import opened LifecycleDecisions
  import opened LifecycleOrdinals
  import opened LifecycleSerial
  import opened LifecycleEvidence
  import M = AgentManager
  import E = FailoverEvidence

  // ----- The rows -----

  /** The execution repeats its decision, which is used up, and names an epoch of its session and provider. */
  predicate FromDecision(db: Db, x: Execution) {
    && x.decision in db.decisions && db.decisions[x.decision].consumed
    && var d := db.decisions[x.decision].decision;
    && d.instance == db.instance && d.allowed && d.outgoingEpoch == x.outgoing && d.outgoingProvider == x.provider
    && d.checkpoint == x.checkpoint && d.generation == x.generation
    && x.outgoing in db.epochs && db.epochs[x.outgoing].session == x.session
    && db.epochs[x.outgoing].provider == x.provider
  }

  /** The provider's answer speaks for the outgoing epoch and session of the execution. */
  predicate SpeaksFor(db: Db, x: Execution, r: Result) {
    && (r.state == Acknowledged || r.state == Running || r.state == Succeeded)
    && r.instance == db.instance && r.provider == x.provider && r.epoch == x.outgoing
    && x.session in db.sessions
    && var external := db.sessions[x.session].external;
    && (r.session == x.session || (external.Some? && r.session == Named(external.value)))
    && (r.external.None? || r.external == external)
  }

  /** The result answers the recover call of this attempt. */
  predicate AnswersAttempt(r: Result, a: Id) {
    r.request == RecoveryRequest(a) && r.recoveryEvidence == Some(RecoveryRequest(a)) && r.adapterMatches
  }

  /** The outcome names a stored result, with its request and state. */
  predicate NamesResult(db: Db, o: Outcome) {
    && o.result in db.results && db.results[o.result].id == o.result
    && o.request == db.results[o.result].request && o.state == db.results[o.result].state
  }

  /** The outcome of an attempt names a result that speaks for the execution. */
  predicate OutcomeFits(db: Db, x: Execution, a: Id) {
    a in db.outcomes && NamesResult(db, db.outcomes[a]) && SpeaksFor(db, x, db.results[db.outcomes[a].result])
  }

  predicate HasOutcome(s: AttemptState) { s == ResultRecorded || s == Finalized }

  /** An execution that was claimed: its attempt is finalized with it, and has an outcome from its recording on,
      which a recovered execution names. */
  predicate AttemptFits(db: Db, x: Execution, a: Attempt) {
    && a.execution == x.id && (x.state == Recovering || x.state == Recovered)
    && (a.state == Finalized <==> x.state == Recovered)
    && (HasOutcome(a.state) <==> a.id in db.outcomes)
    && (HasOutcome(a.state) ==> OutcomeFits(db, x, a.id))
    && (x.state == Recovered ==> a.id in db.outcomes && x.resume == Some(db.outcomes[a.id].result))
  }

  /** An execution that was never claimed. */
  predicate UnclaimedFits(db: Db, x: Execution) {
    && x.state != Recovering
    && (x.resume.Some? ==> x.resume.value in db.results && db.results[x.resume.value].id == x.resume.value
                           && SpeaksFor(db, x, db.results[x.resume.value]))
  }

  predicate ExecutionFits(db: Db, e: Id)
    requires e in db.executions
  {
    var x := db.executions[e];
    && x.id == e && (x.state != Recovered ==> x.resume.None?)
    && if e in db.attempts then AttemptFits(db, x, db.attempts[e]) else UnclaimedFits(db, x)
  }

  /** Attempts have ids of their own. */
  ghost predicate AttemptsOk(db: Db, next: Id) {
    && (forall e | e in db.attempts :: e in db.executions && db.attempts[e].id < next)
    && (forall e, f | e in db.attempts && f in db.attempts && e != f :: db.attempts[e].id != db.attempts[f].id)
    && (forall a | a in db.outcomes :: a < next)
  }

  ghost predicate Decided(db: Db) { forall e | e in db.executions :: FromDecision(db, db.executions[e]) }

  ghost predicate Recorded(db: Db) { forall e | e in db.executions :: ExecutionFits(db, e) }

  ghost predicate OutcomesOk(db: Db) { forall a | a in db.outcomes :: NamesResult(db, db.outcomes[a]) }

  // ----- What recovery calls hold -----

  /** No attempt or outcome has this id. */
  ghost predicate FreshAttempt(db: Db, t: Id) {
    t !in db.outcomes && forall e | e in db.attempts :: db.attempts[e].id != t
  }

  predicate Attempts(db: Db, x: Execution, a: Id) {
    x.state == Recovering && x.id in db.attempts && db.attempts[x.id].id == a
  }

  /** The result reference of a recovery that is about to be finalized. */
  predicate Ends(db: Db, x: Execution, resume: Option<Id>) {
    match x.state
    case ExReserved => resume.None?
    case Draining =>
      && resume.Some? && resume.value in db.results && db.results[resume.value].id == resume.value
      && SpeaksFor(db, x, db.results[resume.value])
    case Recovering =>
      x.id in db.attempts && db.attempts[x.id].id in db.outcomes
      && resume == Some(db.outcomes[db.attempts[x.id].id].result)
    case _ => false
  }

  ghost predicate StageFits(db: Db, t: Id, s: RecoveryStage) {
    match s
    case Recovery(_) => FreshAttempt(db, t)
    case RecoveryInspected(x, _, r) => x.state == Draining && SpeaksFor(db, x, r)
    case RecoveryAttempt(x, _, a) => Attempts(db, x, a.id)
    case RecoveryAttemptOpen(x, _, a) => Attempts(db, x, a.id)
    case RecoveryMayCall(x, _, a) => Attempts(db, x, a.id)
    case RecoveryAnswered(x, _, a, _, _) => Attempts(db, x, a.id)
    case RecoveryFinal(x, _, resume) => Ends(db, x, resume)
    case RecoveryBound(x, _) => FreshAttempt(db, t) && IsRecoverable(x.state) && x.state != ExReserved
    case _ => FreshAttempt(db, t) && IsRecoverable(s.copy.state)
  }

  ghost predicate CallFits(db: Db, t: Id, c: Call) { c.RecoveryCall? ==> StageFits(db, t, c.recovery) }

  ghost predicate RecordsInv(w: World) {
    && Decided(w.db) && Recorded(w.db) && OutcomesOk(w.db) && AttemptsOk(w.db, w.next)
    && forall t | t in w.calls :: CallFits(w.db, t, w.calls[t])
  }

  // ----- Steps that leave executions, attempts and outcomes alone -----

  predicate Untouched(db: Db, after: Db) {
    after.executions == db.executions && after.attempts == db.attempts && after.outcomes == db.outcomes
  }

  lemma FailoverTouches(w: World, v: World, t: Id, s: FailoverStage, i: Input)
    requires !s.ExecuteChecked? && v == StepFailover(w, t, s, i)
    ensures Untouched(w.db, v.db) && (t in v.calls ==> !v.calls[t].RecoveryCall?)
  {
    hide StepExecute, EvaluateFailover;
  }

  lemma HandoffTouches(w: World, v: World, t: Id, s: HandoffStage, i: Input)
    requires !MovesExecution(s) && v == StepHandoff(w, t, s, i)
    ensures Untouched(w.db, v.db) && (t in v.calls ==> !v.calls[t].RecoveryCall?)
  {
    hide StartImport, Authoritative;
    if s.HandoffImporting? && s.plan.op.Fenced?
        && StartImport(w.db, t, s.plan.provider, s.plan.op, s.plan.outgoing).Some? {
      ImportEffect(w.db, t, s.plan);
    }
  }

  lemma AnswerTouches(w: World, v: World, t: Id, p: Package, incoming: Epoch, r: Result, quarantine: bool)
    requires v == StepImportAnswer(w, t, p, incoming, r, quarantine)
    ensures Untouched(w.db, v.db) && (t in v.calls ==> !v.calls[t].RecoveryCall?)
  {
    hide AcknowledgeImport, FailHandoff, ImportAccepted;
    if ImportAccepted(w.db, p, incoming, r) {
      if AcknowledgeImport(w.db, p, incoming, r).Some? { AcknowledgeEffect(w.db, p, incoming, r); }
    } else if FailHandoff(w.db, p, incoming, r, quarantine).Some? { FailEffect(w.db, p, incoming, r, quarantine); }
  }

  lemma CompletionTouches(w: World, v: World, t: Id, s: CompletionStage, i: Input)
    requires v == StepComplete(w, t, s, i)
    ensures Untouched(w.db, v.db) && (t in v.calls ==> !v.calls[t].RecoveryCall?)
  {
    hide StepImportAnswer, Promote, SessionBound, ResultBound;
    match s
    case Complete(p, incoming, r, quarantine) => AnswerTouches(w, v, t, p, incoming, r, quarantine);
    case PromotionReady(p, tr, incoming, outgoing) =>
      if Promote(w.db, p, tr, incoming, outgoing).Some? { PromoteEffect(w.db, p, tr, incoming, outgoing); }
    case _ =>
  }

  lemma ReconcileTouches(w: World, v: World, t: Id, s: ReconcileStage, i: Input)
    requires v == StepReconcile(w, t, s, i)
    ensures Untouched(w.db, v.db) && (t in v.calls ==> !v.calls[t].RecoveryCall?)
  {
    hide StartReconcile, SameBindings;
    if s.ReconcileOpen? && StartReconcile(w.db, s.package, s.transition).Some? {
      ReconcileEffect(w.db, s.package, s.transition);
    }
  }

  lemma RollbackTouches(w: World, v: World, t: Id, s: RollbackStage, i: Input)
    requires v == StepRollback(w, t, s, i)
    ensures Untouched(w.db, v.db) && (t in v.calls ==> !v.calls[t].RecoveryCall?)
  {
    hide BlockRollback, RollBack, SessionBound, DurablyAcknowledged, OperationFor;
    match s
    case RollbackReady(p, tr, outgoing, incoming, op) =>
      if RollBack(w.db, p, tr, incoming, outgoing, op).Some? { RollBackEffect(w.db, p, tr, incoming, outgoing, op); }
    case RollbackBlocked(p, tr, incoming) =>
      if BlockRollback(w.db, p, tr, incoming).Some? { BlockEffect(w.db, p, tr, incoming); }
    case _ =>
  }

  lemma SessionTouches(w: World, v: World, t: Id, s: SessionStage, i: Input)
    requires v == StepSession(w, t, s, i)
    ensures Untouched(w.db, v.db) && (t in v.calls ==> !v.calls[t].RecoveryCall?)
  {
    hide OpenEpoch, RecoverSession, SaveSessions;
    match s
    case DiscoverHeld(op) =>
      if i.flag && CommitDiscovery(w.db, op, i.sessions).Some? { SaveSessionsView(w.db, i.sessions); }
    case ActivateStarted(provider, external) =>
      if OpenEpoch(w.db, t, provider, None, external, Running).Some? {
        OpenEpochView(w.db, t, provider, None, external, Running);
      }
    case Recover(session) =>
      if RecoverSession(w.db, t, session, i.result).Some? { RecoverSessionView(w.db, t, session, i.result); }
    case _ =>
  }

  // ----- What a step does to the records -----

  /** Executions that have ended, attempts and outcomes stay; call `t` adds at most an attempt of its own id, or
      an outcome of an attempt that was there. */
  ghost predicate RecordsGrow(db: Db, after: Db, t: Id) {
    && (forall e | e in db.executions && !IsRecoverable(db.executions[e].state) ::
          e in after.executions && after.executions[e] == db.executions[e])
    && (forall e | e in db.attempts :: e in after.attempts && after.attempts[e].id == db.attempts[e].id)
    && (forall e | e in after.attempts && e !in db.attempts :: after.attempts[e].id == t)
    && (forall a | a in db.outcomes :: a in after.outcomes && after.outcomes[a] == db.outcomes[a])
    && (after.outcomes.Keys == db.outcomes.Keys
        || exists e :: e in db.attempts && after.outcomes.Keys == db.outcomes.Keys + {db.attempts[e].id})
  }

  /** What one step of call `t` must show. */
  ghost predicate Records(w: World, v: World, t: Id) {
    && RecordsGrow(w.db, v.db, t) && Recorded(v.db) && AttemptsOk(v.db, v.next)
    && (t in v.calls ==> CallFits(v.db, t, v.calls[t]))
  }

  lemma SpeaksStill(db: Db, after: Db, x: Execution, y: Execution, r: Result)
    requires Keeps(db, after) && SpeaksFor(db, x, r) && SameExecution(x, y)
    ensures SpeaksFor(after, y, r)
  {
  }

  lemma OutcomeStays(db: Db, after: Db, x: Execution, y: Execution, a: Id)
    requires Keeps(db, after) && OutcomeFits(db, x, a) && SameExecution(x, y)
    requires a in after.outcomes && after.outcomes[a] == db.outcomes[a]
    ensures OutcomeFits(after, y, a)
  {
    SpeaksStill(db, after, x, y, db.results[db.outcomes[a].result]);
  }

  predicate SameOutcome(db: Db, after: Db, a: Id) {
    (a in db.outcomes <==> a in after.outcomes) && (a in db.outcomes ==> after.outcomes[a] == db.outcomes[a])
  }

  /** A row that is not rewritten, with its attempt and outcome. */
  lemma RowStays(db: Db, after: Db, e: Id)
    requires Keeps(db, after) && e in db.executions && ExecutionFits(db, e)
    requires e in after.executions && after.executions[e] == db.executions[e]
    requires e in db.attempts <==> e in after.attempts
    requires e in db.attempts ==> after.attempts[e] == db.attempts[e]
    requires e in db.attempts ==> SameOutcome(db, after, db.attempts[e].id)
    ensures ExecutionFits(after, e)
  {
    hide SpeaksFor, OutcomeFits, Keeps;
    var x := db.executions[e];
    if e in db.attempts {
      if HasOutcome(db.attempts[e].state) { OutcomeStays(db, after, x, x, db.attempts[e].id); }
    } else if x.resume.Some? {
      SpeaksStill(db, after, x, x, db.results[x.resume.value]);
      KeepsResult(db, after, x.resume.value);
    }
  }

  lemma KeepsResult(db: Db, after: Db, r: Id)
    requires Keeps(db, after) && r in db.results
    ensures r in after.results && after.results[r] == db.results[r]
  {
  }

  lemma UntouchedRecords(w: World, v: World, t: Id)
    requires Recorded(w.db) && AttemptsOk(w.db, w.next) && v.next == w.next && Keeps(w.db, v.db)
    requires Untouched(w.db, v.db) && (t in v.calls ==> !v.calls[t].RecoveryCall?)
    ensures Records(w, v, t)
  {
    hide ExecutionFits, Keeps;
    forall e | e in v.db.executions ensures ExecutionFits(v.db, e) { RowStays(w.db, v.db, e); }
  }

  /** At most the row, the attempt and the outcome of execution `e` are rewritten. */
  predicate Rewrites(db: Db, after: Db, t: Id, e: Id) {
    && e in after.executions && after.executions == db.executions[e := after.executions[e]]
    && (e in db.executions && !IsRecoverable(db.executions[e].state) ==> after.executions[e] == db.executions[e])
    && (after.attempts == db.attempts || (e in after.attempts && after.attempts == db.attempts[e := after.attempts[e]]))
    && (if e in db.attempts then e in after.attempts && after.attempts[e].id == db.attempts[e].id
        else after.outcomes == db.outcomes && (e in after.attempts ==> after.attempts[e].id == t))
    && (after.outcomes == db.outcomes
        || (e in db.attempts && db.attempts[e].id !in db.outcomes && db.attempts[e].id in after.outcomes
            && after.outcomes == db.outcomes[db.attempts[e].id := after.outcomes[db.attempts[e].id]]))
  }

  lemma OthersStay(db: Db, after: Db, t: Id, e: Id, next: Id)
    requires Recorded(db) && AttemptsOk(db, next) && Keeps(db, after) && Rewrites(db, after, t, e)
    requires ExecutionFits(after, e)
    ensures Recorded(after)
  {
    hide ExecutionFits, Keeps;
    forall x | x in after.executions ensures ExecutionFits(after, x) {
      if x != e { RowStays(db, after, x); }
    }
  }

  lemma AttemptsStay(db: Db, after: Db, t: Id, e: Id, next: Id)
    requires AttemptsOk(db, next) && Keeps(db, after) && Rewrites(db, after, t, e)
    requires e !in db.attempts && e in after.attempts ==> t < next && FreshAttempt(db, t)
    ensures AttemptsOk(after, next) && RecordsGrow(db, after, t)
  {
    hide Keeps, RecordsGrow;
    AttemptsGrow(db, after, t, e);
  }

  lemma AttemptsGrow(db: Db, after: Db, t: Id, e: Id)
    requires Keeps(db, after) && Rewrites(db, after, t, e)
    ensures RecordsGrow(db, after, t)
  {
    hide Keeps;
    if after.outcomes != db.outcomes { assert after.outcomes.Keys == db.outcomes.Keys + {db.attempts[e].id}; }
  }

  lemma OneRow(w: World, v: World, t: Id, e: Id)
    requires Recorded(w.db) && AttemptsOk(w.db, w.next) && v.next == w.next && Keeps(w.db, v.db)
    requires Rewrites(w.db, v.db, t, e) && ExecutionFits(v.db, e)
    requires e !in w.db.attempts && e in v.db.attempts ==> t < w.next && FreshAttempt(w.db, t)
    requires t in v.calls ==> CallFits(v.db, t, v.calls[t])
    ensures Records(w, v, t)
  {
    hide ExecutionFits, Keeps, CallFits, Rewrites, Recorded, AttemptsOk, FreshAttempt, RecordsGrow;
    OthersStay(w.db, v.db, t, e, w.next);
    AttemptsStay(w.db, v.db, t, e, w.next);
  }

  // ----- Executing a decision and handing off -----

  lemma DecisionNamesEpoch(db: Db, id: Id, evidence: E.Evidence, now: int, d: E.Decision)
    requires EpochsOk(db.epochs)
    requires var e := EvaluateFailover(db, id, evidence, now);
      e.Some? && e.value.Decided? && SameFindings(d, e.value.decision)
    ensures d.instance == db.instance && d.generation == db.fence.generation
    ensures d.outgoingEpoch in db.epochs && Authoritative(db) == {d.outgoingEpoch}
    ensures d.outgoingProvider == db.epochs[d.outgoingEpoch].provider
  {
    hide Authoritative;
  }

  /** The row that executing a decision writes. */
  lemma ExecuteRow(db: Db, t: Id, id: Id, original: DecisionRow, i: Input)
    requires EpochsOk(db.epochs) && original.decision.allowed
    requires ExecuteFailover(db, t, id, original, i.evidence, i.now, i.later).Some?
    ensures var after := ExecuteFailover(db, t, id, original, i.evidence, i.now, i.later).value;
      && t in after.executions && FromDecision(after, after.executions[t])
      && IsOpen(after, after.executions[t].outgoing)
      && after.executions[t].id == t && after.executions[t].state == ExReserved && after.executions[t].resume.None?
      && after.epochs == db.epochs
  {
    hide EvaluateFailover;
    DecisionNamesEpoch(db, id, i.evidence, i.now, original.decision);
    assert original.decision.outgoingEpoch in Authoritative(db);
  }

  lemma NoAttempt(db: Db, next: Id, e: Id)
    requires AttemptsOk(db, next) && e !in db.executions
    ensures e !in db.attempts
  {
  }

  lemma ExecuteRecords(w: World, v: World, t: Id, d: Id, original: DecisionRow, i: Input)
    requires Recorded(w.db) && AttemptsOk(w.db, w.next) && v == StepExecute(w, t, d, original, i)
    requires EpochsOk(w.db.epochs) && original.decision.allowed && Keeps(w.db, v.db)
    ensures Records(w, v, t)
  {
    hide ExecuteFailover, Keeps, FromDecision, Records, SpeaksFor, OutcomeFits, EpochsOk, Recorded, AttemptsOk;
    if original.decision.incoming.Some? && ExecuteFailover(w.db, t, d, original, i.evidence, i.now, i.later).Some? {
      ExecuteEffect(w.db, t, d, original, i);
      ExecuteRow(w.db, t, d, original, i);
      NoAttempt(w.db, w.next, t);
      OneRow(w, v, t, t);
    } else { UntouchedRecords(w, v, t); }
  }

  lemma MoveRow(db: Db, t: Id, e: Id, from: ExecutionState, to: ExecutionState)
    requires e in db.executions && ExecutionFits(db, e) && MoveExecution(db, e, from, to, None).Some?
    requires from == ExReserved || from == Draining
    requires to != Recovered && to != Recovering
    ensures var after := MoveExecution(db, e, from, to, None).value;
      ExecutionFits(after, e) && Rewrites(db, after, t, e) && after == db.(executions := after.executions)
  {
    hide SpeaksFor, OutcomeFits;
  }

  lemma HandoffMoveRecords(w: World, v: World, t: Id, s: HandoffStage, i: Input)
    requires Recorded(w.db) && AttemptsOk(w.db, w.next) && v == StepHandoff(w, t, s, i)
    requires MovesExecution(s) && Keeps(w.db, v.db)
    ensures Records(w, v, t)
  {
    hide Keeps, Records, SpeaksFor, OutcomeFits, ExecutionFits, AttemptsOk, StepImport, Authoritative, MoveExecution;
    var from := if s.HandoffReserved? then ExReserved else Draining;
    var to := if s.HandoffReserved? then Draining else if s.HandoffUnusable? then BlockedPreimport
    else TransitionStarted;
    if s.plan.failover && MoveExecution(w.db, t, from, to, None).Some? {
      MoveExists(w.db, t, from, to, None);
      MoveRow(w.db, t, t, from, to);
      OneRow(w, v, t, t);
    } else { UntouchedRecords(w, v, t); }
  }

  lemma MoveExists(db: Db, e: Id, from: ExecutionState, to: ExecutionState, resume: Option<Id>)
    requires MoveExecution(db, e, from, to, resume).Some?
    ensures e in db.executions
  {
  }

  // ----- Recovering -----

  /** The checks of a recovery on an answer, in terms of the rows. */
  lemma ValidSpeaks(db: Db, x: Execution, r: Result, attempt: Option<Id>)
    ensures RecoveryValid(db, x, r, attempt)
        <==> SpeaksFor(db, x, r) && (attempt.Some? ==> AnswersAttempt(r, attempt.value))
  {
  }

  lemma ClaimRow(db: Db, t: Id, x: Execution)
    requires ClaimRecovery(db, t, x.id).Some? && x.id in db.executions && ExecutionFits(db, x.id) && t !in db.outcomes
    requires x.state == BlockedPreimport
    ensures var after := ClaimRecovery(db, t, x.id).value;
      && ExecutionFits(after, x.id) && Rewrites(db, after, t, x.id)
      && after == db.(executions := after.executions, attempts := after.attempts)
      && Attempts(after, x.(state := Recovering), t) && x.id !in db.attempts
  {
    hide SpeaksFor, OutcomeFits;
  }

  lemma ClaimRecords(w: World, v: World, t: Id, x: Execution, op: Fence, i: Input)
    requires RecordsInv(w) && Stands(w, t, RecoveryCall(RecoveryBound(x, op))) && t < w.next
    requires v == StepClaim(w, t, x, op, i) && ExecutionCopy(w.db, x, op) && Keeps(w.db, v.db)
    ensures Records(w, v, t)
  {
    hide Keeps, Records, SpeaksFor, OutcomeFits, ExecutionFits, AttemptsOk, ClaimRecovery, RecoveryValid;
    assert CallFits(w.db, t, w.calls[t]);
    if x.state == BlockedPreimport && ClaimRecovery(w.db, t, x.id).Some? {
      ClaimRow(w.db, t, x);
      OneRow(w, v, t, x.id);
    } else {
      ValidSpeaks(w.db, x, i.result, None);
      ReadRecords(w, v, t);
    }
  }

  /** Nothing is written and the call goes on. */
  lemma ReadRecords(w: World, v: World, t: Id)
    requires Recorded(w.db) && AttemptsOk(w.db, w.next) && v.next == w.next && Untouched(w.db, v.db)
    requires Keeps(w.db, v.db)
    requires t in v.calls ==> CallFits(v.db, t, v.calls[t])
    ensures Records(w, v, t)
  {
    hide ExecutionFits, Keeps, CallFits;
    forall e | e in v.db.executions ensures ExecutionFits(v.db, e) { RowStays(w.db, v.db, e); }
  }

  lemma PermitRow(db: Db, t: Id, x: Execution, a: Id)
    requires Attempts(db, x, a) && x.id in db.executions && ExecutionFits(db, x.id)
    requires MoveAttempt(db, x.id, Pending, ExternalStarted).Some?
    ensures var after := MoveAttempt(db, x.id, Pending, ExternalStarted).value;
      && ExecutionFits(after, x.id) && Rewrites(db, after, t, x.id)
      && after == db.(attempts := after.attempts) && Attempts(after, x, a)
  {
    hide SpeaksFor, OutcomeFits;
  }

  lemma PermitRecords(w: World, v: World, t: Id, x: Execution, op: Fence, a: Attempt, i: Input)
    requires RecordsInv(w) && Stands(w, t, RecoveryCall(RecoveryAttemptOpen(x, op, a)))
    requires v == StepPermit(w, t, x, op, a, i) && ExecutionCopy(w.db, x, op) && Keeps(w.db, v.db)
    ensures Records(w, v, t)
  {
    hide Keeps, Records, SpeaksFor, OutcomeFits, ExecutionFits, AttemptsOk, MoveAttempt;
    assert CallFits(w.db, t, w.calls[t]);
    if a.state == Pending && MoveAttempt(w.db, x.id, Pending, ExternalStarted).Some? {
      PermitRow(w.db, t, x, a.id);
      OneRow(w, v, t, x.id);
    } else { ReadRecords(w, v, t); }
  }

  lemma RecordRow(db: Db, t: Id, x: Execution, a: Id, r: Result, attempt: Option<Id>)
    requires Attempts(db, x, a) && x.id in db.executions && SameExecution(x, db.executions[x.id])
    requires ExecutionFits(db, x.id) && RecoveryValid(db, x, r, attempt) && RecordRecovery(db, x.id, a, r).Some?
    ensures var after := RecordRecovery(db, x.id, a, r).value;
      && ExecutionFits(after, x.id) && Rewrites(db, after, t, x.id)
      && after == db.(results := after.results, attempts := after.attempts, outcomes := after.outcomes)
      && Ends(after, x, Some(r.id)) && after.attempts[x.id].state == ResultRecorded
      && r.id !in db.results && after.results == db.results[r.id := r]
  {
    ValidSpeaks(db, x, r, attempt);
  }

  lemma RecordRecords(w: World, v: World, t: Id, x: Execution, op: Fence, a: Attempt, r: Result, called: bool)
    requires RecordsInv(w) && Stands(w, t, RecoveryCall(RecoveryAnswered(x, op, a, r, called)))
    requires v == StepRecord(w, t, x, op, a, r, called) && ExecutionCopy(w.db, x, op) && Keeps(w.db, v.db)
    ensures Records(w, v, t)
  {
    hide Keeps, Records, SpeaksFor, OutcomeFits, ExecutionFits, AttemptsOk, RecoveryValid, RecordRecovery;
    assert CallFits(w.db, t, w.calls[t]);
    var attempt := if called then Some(a.id) else None;
    if RecoveryValid(w.db, x, r, attempt) && RecordRecovery(w.db, x.id, a.id, r).Some? {
      RecordRow(w.db, t, x, a.id, r, attempt);
      OneRow(w, v, t, x.id);
    } else { UntouchedRecords(w, v, t); }
  }

  lemma FinalizeAttempts(db: Db, x: Execution, op: Fence, resume: Option<Id>)
    requires FinalizeRecovery(db, x, op, resume).Some?
    ensures FinalizeRecovery(db, x, op, resume).value.attempts
      == if x.id in db.attempts && IsStarted(db.attempts[x.id].state)
         then db.attempts[x.id := db.attempts[x.id].(state := Finalized)] else db.attempts
  {
    hide MoveExecution;
    var a := if x.id in db.attempts && IsStarted(db.attempts[x.id].state)
             then MoveAttempt(db, x.id, db.attempts[x.id].state, Finalized).value else db;
    var b := ReleaseOperation(a, op).value;
    assert b.attempts == a.attempts;
    MoveFrame(b, x.id, x.state, Recovered, resume);
  }

  /** What finalizing writes. */
  lemma FinalizeWrites(db: Db, x: Execution, op: Fence, resume: Option<Id>)
    requires FinalizeRecovery(db, x, op, resume).Some?
    ensures x.id in db.executions && db.executions[x.id].state == x.state && IsRecoverable(x.state)
    ensures op.Fenced? && db.fence == op
    ensures FinalizeRecovery(db, x, op, resume).value == db.(
      fence := Open(op.generation + 1),
      executions := db.executions[x.id := db.executions[x.id].(state := Recovered, resume := resume)],
      attempts := if x.id in db.attempts && IsStarted(db.attempts[x.id].state)
                  then db.attempts[x.id := db.attempts[x.id].(state := Finalized)] else db.attempts)
  {
    hide FinalizeRecovery;
    FinalizeEffect(db, x, op, resume);
    FinalizeFrame(db, x, op, resume);
    FinalizeAttempts(db, x, op, resume);
  }

  lemma FinalRow(db: Db, t: Id, x: Execution, op: Fence, resume: Option<Id>)
    requires x.id in db.executions && ExecutionFits(db, x.id) && Ends(db, x, resume)
    requires SameExecution(x, db.executions[x.id]) && FinalizeRecovery(db, x, op, resume).Some?
    ensures var after := FinalizeRecovery(db, x, op, resume).value;
      ExecutionFits(after, x.id) && Rewrites(db, after, t, x.id) && (x.id in after.attempts <==> x.id in db.attempts)
  {
    hide FinalizeRecovery, SpeaksFor;
    FinalizeWrites(db, x, op, resume);
    FinalFits(db, FinalizeRecovery(db, x, op, resume).value, x, resume);
  }

  /** The finalized row names its result. */
  lemma FinalFits(db: Db, after: Db, x: Execution, resume: Option<Id>)
    requires x.id in db.executions && ExecutionFits(db, x.id) && Ends(db, x, resume)
    requires SameExecution(x, db.executions[x.id]) && db.executions[x.id].state == x.state
    requires after.instance == db.instance && after.sessions == db.sessions && after.results == db.results
    requires after.outcomes == db.outcomes
    requires after.executions == db.executions[x.id := db.executions[x.id].(state := Recovered, resume := resume)]
    requires after.attempts == if x.id in db.attempts && IsStarted(db.attempts[x.id].state)
             then db.attempts[x.id := db.attempts[x.id].(state := Finalized)] else db.attempts
    ensures ExecutionFits(after, x.id)
  {
    hide SpeaksFor, OutcomeFits;
    var y, z := db.executions[x.id], after.executions[x.id];
    if x.id in db.attempts {
      OutcomeStays(db, after, y, z, db.attempts[x.id].id);
    } else if resume.Some? {
      SpeaksStill(db, after, x, z, db.results[resume.value]);
    }
  }

  lemma FinalRecords(w: World, v: World, t: Id, x: Execution, op: Fence, resume: Option<Id>)
    requires RecordsInv(w) && Stands(w, t, RecoveryCall(RecoveryFinal(x, op, resume)))
    requires v == StepFinal(w, t, x, op, resume) && ExecutionCopy(w.db, x, op) && Keeps(w.db, v.db)
    ensures Records(w, v, t)
  {
    hide Keeps, Records, SpeaksFor, OutcomeFits, ExecutionFits, AttemptsOk, FinalizeRecovery;
    assert CallFits(w.db, t, w.calls[t]);
    if FinalizeRecovery(w.db, x, op, resume).Some? {
      FinalRow(w.db, t, x, op, resume);
      OneRow(w, v, t, x.id);
    } else { UntouchedRecords(w, v, t); }
  }

  lemma ReplayRecords(w: World, v: World, t: Id, x: Execution, op: Fence, a: Attempt)
    requires RecordsInv(w) && Stands(w, t, RecoveryCall(RecoveryAttempt(x, op, a)))
    requires v == StepReplay(w, t, x, op, a) && ExecutionCopy(w.db, x, op)
    ensures Records(w, v, t)
  {
    hide Records, SpeaksFor, OutcomeFits, ExecutionFits, AttemptsOk, RecoveryValid;
    assert CallFits(w.db, t, w.calls[t]);
    ReadRecords(w, v, t);
  }

  lemma InspectedRecords(w: World, v: World, t: Id, x: Execution, op: Fence, r: Result)
    requires RecordsInv(w) && Stands(w, t, RecoveryCall(RecoveryInspected(x, op, r)))
    requires v == Commit(w, t, SaveResult(w.db, r), RecoveryCall(RecoveryFinal(x, op, Some(r.id))), [])
    requires Keeps(w.db, v.db)
    ensures Records(w, v, t)
  {
    hide Records, ExecutionFits, AttemptsOk;
    assert CallFits(w.db, t, w.calls[t]);
    ReadRecords(w, v, t);
  }

  lemma EarlyRecords(w: World, v: World, t: Id, s: RecoveryStage, i: Input)
    requires RecordsInv(w) && Stands(w, t, RecoveryCall(s)) && v == StepRecovery(w, t, s, i)
    requires s.Recovery? || s.RecoveryOf? || s.RecoveryHeld? || s.RecoveryUnblocked? || s.RecoveryMayCall?
    ensures Records(w, v, t)
  {
    hide Records, SpeaksFor, OutcomeFits, ExecutionFits, AttemptsOk, StepClaim, StepReplay, StepPermit, StepRecord,
        StepFinal;
    assert CallFits(w.db, t, w.calls[t]);
    ReadRecords(w, v, t);
  }

  lemma RecoveryRecords(w: World, v: World, t: Id, s: RecoveryStage, i: Input)
    requires RecordsInv(w) && Stands(w, t, RecoveryCall(s)) && t < w.next && CallOk(w.db, t, RecoveryCall(s))
    requires v == StepRecovery(w, t, s, i) && Keeps(w.db, v.db)
    ensures Records(w, v, t)
  {
    hide RecordsInv, Keeps, Records, StepClaim, StepReplay, StepPermit, StepCallRecover, StepRecord, StepFinal,
        SaveResult, RecoveryValid, SameExecution;
    match s
    case RecoveryBound(x, op) => ClaimRecords(w, v, t, x, op, i);
    case RecoveryInspected(x, op, r) => InspectedRecords(w, v, t, x, op, r);
    case RecoveryAttempt(x, op, a) => ReplayRecords(w, v, t, x, op, a);
    case RecoveryAttemptOpen(x, op, a) => PermitRecords(w, v, t, x, op, a, i);
    case RecoveryAnswered(x, op, a, r, called) => RecordRecords(w, v, t, x, op, a, r, called);
    case RecoveryFinal(x, op, resume) => FinalRecords(w, v, t, x, op, resume);
    case _ => EarlyRecords(w, v, t, s, i);
  }

  // ----- Every step -----

  predicate KnowsRight(w: World, t: Id) { t in w.calls && CallOk(w.db, t, w.calls[t]) }

  lemma StepRecords(w: World, v: World, t: Id, i: Input)
    requires RecordsInv(w) && KnowsRight(w, t) && Moves(w, v, t, i) && t < w.next && v.next == w.next
    requires EpochsOk(w.db.epochs) && Keeps(w.db, v.db)
    ensures Records(w, v, t)
  {
    hide StepFailover, StepHandoff, StepComplete, StepReconcile, StepRollback, StepRecovery, StepSession, Keeps,
        Records, ExecutionFits, EpochsOk;
    match w.calls[t]
    case FailoverCall(s) => FailoverRecords(w, v, t, s, i);
    case HandoffCall(s) =>
      if MovesExecution(s) { HandoffMoveRecords(w, v, t, s, i); }
      else {
        HandoffTouches(w, v, t, s, i);
        UntouchedRecords(w, v, t);
      }
    case CompletionCall(s) =>
      CompletionTouches(w, v, t, s, i);
      UntouchedRecords(w, v, t);
    case ReconcileCall(s) =>
      ReconcileTouches(w, v, t, s, i);
      UntouchedRecords(w, v, t);
    case RollbackCall(s) =>
      RollbackTouches(w, v, t, s, i);
      UntouchedRecords(w, v, t);
    case RecoveryCall(s) => RecoveryRecords(w, v, t, s, i);
    case SessionCall(s) =>
      SessionTouches(w, v, t, s, i);
      UntouchedRecords(w, v, t);
  }

  lemma FailoverRecords(w: World, v: World, t: Id, s: FailoverStage, i: Input)
    requires Recorded(w.db) && AttemptsOk(w.db, w.next) && v == StepFailover(w, t, s, i)
    requires EpochsOk(w.db.epochs) && Keeps(w.db, v.db) && CallOk(w.db, t, FailoverCall(s))
    ensures Records(w, v, t)
  {
    hide Keeps, Records, ExecutionFits, EpochsOk, StepExecute;
    if s.ExecuteChecked? { ExecuteRecords(w, v, t, s.decision, s.original, i); }
    else {
      FailoverTouches(w, v, t, s, i);
      UntouchedRecords(w, v, t);
    }
  }

  /** An execution stays true to its decision. */
  lemma DecisionStays(db: Db, after: Db, x: Execution, y: Execution)
    requires FromDecision(db, x) && SameExecution(x, y)
    requires Persists(db, after) && Grows(db.epochs, after.epochs) && after.instance == db.instance
    ensures FromDecision(after, y)
  {
  }

  predicate DecidedAt(db: Db, e: Id) { e in db.executions && FromDecision(db, db.executions[e]) }

  /** Only executing a decision adds an execution. */
  lemma NewExecution(w: World, v: World, t: Id, i: Input)
    requires t in v.db.executions && t !in w.db.executions && EpochsOk(w.db.epochs) && KnowsRight(w, t)
    requires Progress(w, v, t) && Moves(w, v, t, i)
    ensures DecidedAt(v.db, t) && IsOpen(v.db, v.db.executions[t].outgoing)
  {
    hide StepFailover, StepHandoff, StepComplete, StepReconcile, StepRollback, StepRecovery, StepSession, DbOk,
        Evolves, Persists, EpochsOk, FromDecision;
    var d :| Executes(w, v, t, d);
    assert v.trace[|w.trace| + 1].Executed?;
    OnlyExecuteAdds(w, t, w.calls[t], i);
    ExecutedRow(w, v, t, w.calls[t].failover, i);
  }

  lemma ExecutedRow(w: World, v: World, t: Id, s: FailoverStage, i: Input)
    requires s.ExecuteChecked? && v == StepFailover(w, t, s, i) && t in v.db.executions && t !in w.db.executions
    requires EpochsOk(w.db.epochs) && s.original.decision.allowed
    ensures FromDecision(v.db, v.db.executions[t]) && IsOpen(v.db, v.db.executions[t].outgoing)
  {
    hide ExecuteFailover, EpochsOk, FromDecision;
    if ExecuteFailover(w.db, t, s.decision, s.original, i.evidence, i.now, i.later).Some? {
      ExecuteRow(w.db, t, s.decision, s.original, i);
    }
  }

  lemma StepDecided(w: World, v: World, t: Id, i: Input)
    requires Decided(w.db) && EpochsOk(w.db.epochs) && Grows(w.db.epochs, v.db.epochs)
    requires v.db.instance == w.db.instance && KnowsRight(w, t) && Progress(w, v, t) && Moves(w, v, t, i)
    ensures Decided(v.db)
  {
    hide StepCall, DbOk, Persists, FromDecision, EpochsOk, Grows, CallOk;
    forall e | e in v.db.executions ensures FromDecision(v.db, v.db.executions[e]) {
      if e in w.db.executions { DecisionStays(w.db, v.db, w.db.executions[e], v.db.executions[e]); }
      else { NewExecution(w, v, t, i); }
    }
  }

  /** What the other calls hold stays true. */
  lemma StageStays(db: Db, after: Db, t: Id, u: Id, s: RecoveryStage)
    requires StageFits(db, u, s) && RecordsGrow(db, after, t) && Keeps(db, after) && u != t
    ensures StageFits(after, u, s)
  {
    hide SpeaksFor;
    match s
    case RecoveryInspected(x, _, r) => SpeaksStill(db, after, x, x, r);
    case RecoveryFinal(x, _, resume) =>
      if x.state == Draining { SpeaksStill(db, after, x, x, db.results[resume.value]); }
    case _ =>
  }

  /** A new outcome belongs to an attempt, whose execution it fits. */
  lemma OutcomesStep(db: Db, after: Db, t: Id, next: Id)
    requires OutcomesOk(db) && Keeps(db, after) && RecordsGrow(db, after, t) && Recorded(after)
    requires AttemptsOk(after, next)
    ensures OutcomesOk(after)
  {
    hide SpeaksFor;
    forall a | a in after.outcomes ensures NamesResult(after, after.outcomes[a]) {
      if a !in db.outcomes {
        var e :| e in db.attempts && after.outcomes.Keys == db.outcomes.Keys + {db.attempts[e].id};
        assert ExecutionFits(after, e);
      }
    }
  }

  lemma SameInstance(db: Db, after: Db)
    requires Keeps(db, after)
    ensures after.instance == db.instance
  {
  }

  lemma AdvanceKeepsRecords(w: World, v: World, t: Id, i: Input)
    requires Invariant(w) && OrderInv(w) && RecordsInv(w) && Moves(w, v, t, i)
    ensures RecordsInv(v) && RecordsGrow(w.db, v.db, t)
  {
    hide StepCall, DbOk, Persists, EpochsOk, Grows, StageFits, FromDecision, ExecutionFits, Keeps, CallOk, RecordsGrow;
    AdvanceProgress(w, v, t, i);
    AdvanceOrders(w, v, t, i);
    StepWrites(w, v, t, i);
    assert CallOk(w.db, t, w.calls[t]);
    SameInstance(w.db, v.db);
    StepDecided(w, v, t, i);
    StepRecords(w, v, t, i);
    OutcomesStep(w.db, v.db, t, v.next);
    forall u | u in v.calls ensures CallFits(v.db, u, v.calls[u]) {
      if u != t && v.calls[u].RecoveryCall? { StageStays(w.db, v.db, t, u, v.calls[u].recovery); }
    }
  }

  lemma EntryFits(db: Db, next: Id, c: Call)
    requires AttemptsOk(db, next) && IsEntry(c)
    ensures CallFits(db, next, c) && AttemptsOk(db, next + 1)
  {
  }

  lemma StepKeepsRecords(w: World, a: Action)
    requires Invariant(w) && OrderInv(w) && RecordsInv(w)
    ensures RecordsInv(Step(w, a))
  {
    hide StepCall, Invariant, OrderInv, ExecutionFits, FromDecision, NamesResult;
    match a
    case Begin(c) => if IsEntry(c) { BeginKeepsRecords(w, c); }
    case Crash(t) =>
    case Advance(t, i) => if t in w.calls { AdvanceKeepsRecords(w, Step(w, a), t, i); }
  }

  lemma BeginKeepsRecords(w: World, c: Call)
    requires RecordsInv(w) && IsEntry(c)
    ensures RecordsInv(w.(calls := w.calls[w.next := c], next := w.next + 1))
  {
    hide AttemptsOk, CallFits, ExecutionFits, FromDecision, NamesResult;
    EntryFits(w.db, w.next, c);
  }

  ghost predicate Accountable(w: World) { Invariant(w) && OrderInv(w) && RecordsInv(w) }

  lemma StepAccounts(w: World, a: Action)
    requires Accountable(w)
    ensures Accountable(Step(w, a))
  {
    hide StepCall, Invariant, OrderInv, RecordsInv;
    StepKeeps(w, a);
    StepKeepsOrder(w, a);
    StepKeepsRecords(w, a);
  }

  /** In every interleaving: each execution repeats its decision and names an epoch of its session and provider;
      each outcome names a stored result with its request and state; and the states of an execution and its
      attempt, the outcome and the result reference agree. */
  lemma {:induction false} RunsKeepRecords(instance: Id, actions: seq<Action>)
    ensures Accountable(Run(Start(instance), actions))
  {
    hide Step, StepCall;
    if actions != [] {
      RunsKeepRecords(instance, actions[..|actions| - 1]);
      StepAccounts(Run(Start(instance), actions[..|actions| - 1]), actions[|actions| - 1]);
    }
  }
}
