/** The persisted lifecycle records of one agent instance and the transactions on them
    (src/overseer/agent_manager.py, with the store contract of src/overseer/store.py).

    Every function gives the database after one atomic step, or `None` when the step raises and
    leaves no trace. Clock values and free-text reasons are not kept. An id drawn from the id factory
    is the number of the call that drew it: the fence token, execution, handoff, incoming epoch,
    decision and recovery attempt of call `t` are all named `t`. */
module LifecycleStore {
  import opened Contracts
  import opened Fences
  import E = FailoverEvidence

  // ----- Records -----

  datatype TransitionState = Importing | ImportAcknowledged | Reconciling | HandoffFailed | Completed | RolledBack

  /** `_BLOCKING_TRANSITION_STATES`. */
  predicate IsBlocking(s: TransitionState) { s != Completed && s != RolledBack }

  /** `_AGENT_TRANSITION_SUCCESSORS` of the store. */
  predicate MayFollow(from: TransitionState, to: TransitionState) {
    match from
    case Importing => to == ImportAcknowledged || to == Reconciling || to == HandoffFailed || to == RolledBack
    case ImportAcknowledged => to == Completed || to == HandoffFailed || to == RolledBack
    case Reconciling => to == ImportAcknowledged || to == Reconciling || to == HandoffFailed || to == RolledBack
    case HandoffFailed => to == Reconciling || to == RolledBack
    case Completed => false
    case RolledBack => false
  }

  datatype Epoch = Epoch(
    id: Id, session: SessionId, provider: Id, ordinal: nat,
    state: OperationState, closed: bool, replacement: Option<Id>)

  datatype Transition = Transition(handoff: Id, outgoing: Id, incoming: Id, state: TransitionState)

  datatype PackageStatus =
    | PkgImporting | PkgImportAcknowledged | PkgReconciling | PkgBlocked | PkgQuarantined
    | PkgRollbackBlocked | PkgRolledBack | PkgAcknowledged

  datatype Package = Package(
    id: Id, outgoing: Id, provider: Id, incomingEpoch: Id, incomingSession: SessionId,
    generation: nat, owner: Id, status: PackageStatus, importResult: Option<Id>, external: Option<Id>)

  datatype Session = Session(provider: Id, external: Option<Id>)

  datatype Request = HandoffRequest(handoff: Id) | RecoveryRequest(attempt: Id) | OtherRequest(name: Id)

  datatype Result = Result(
    id: Id, request: Request, instance: Id, session: SessionId, epoch: Id, provider: Id,
    state: OperationState, external: Option<Id>, recoveryEvidence: Option<Request>, adapterMatches: bool)

  datatype DecisionRow = DecisionRow(decision: E.Decision, consumed: bool)

  datatype ExecutionState = ExReserved | Draining | BlockedPreimport | Recovering | Recovered | TransitionStarted

  predicate IsRecoverable(s: ExecutionState) { s != Recovered && s != TransitionStarted }

  /** The transition table of `transition_failover_execution`. */
  predicate MayMove(from: ExecutionState, to: ExecutionState) {
    match from
    case ExReserved => to == Draining || to == Recovered
    case Draining => to == BlockedPreimport || to == TransitionStarted || to == Recovered
    case BlockedPreimport => to == Recovering
    case Recovering => to == BlockedPreimport || to == Recovered
    case Recovered => false
    case TransitionStarted => false
  }

  datatype Execution = Execution(
    id: Id, decision: Id, outgoing: Id, session: SessionId, provider: Id, checkpoint: Option<Id>,
    generation: nat, owner: Id, state: ExecutionState, resume: Option<Id>)

  datatype AttemptState = Pending | ExternalStarted | ResultRecorded | Finalized

  predicate IsStarted(s: AttemptState) { s == ExternalStarted || s == ResultRecorded }

  datatype Attempt = Attempt(id: Id, execution: Id, state: AttemptState)

  datatype Outcome = Outcome(result: Id, request: Request, state: OperationState)

  /** Attempts are indexed by their execution and outcomes by their attempt, which is how they are
      looked up. */
  datatype Db = Db(
    instance: Id,
    fence: Fence,
    epochs: map<Id, Epoch>,
    transition: Option<Transition>,
    packages: map<Id, Package>,
    sessions: map<SessionId, Session>,
    results: map<Id, Result>,
    decisions: map<Id, DecisionRow>,
    executions: map<Id, Execution>,
    attempts: map<Id, Attempt>,
    outcomes: map<Id, Outcome>)
  {
    predicate Blocked() { transition.Some? && IsBlocking(transition.value.state) }
  }

  // ----- Queries -----

  /** Epochs that some handoff opened. */
  function IncomingIds(db: Db): set<Id> { set p | p in db.packages :: db.packages[p].incomingEpoch }

  predicate IsOpen(db: Db, e: Id) { e in db.epochs && !db.epochs[e].closed }

  predicate IsAwaiting(s: OperationState) { s == Queued || s == OpBlocked || s == Quarantined }

  /** `_authoritative_epochs`: open, and not an incoming epoch still waiting for promotion. */
  function Authoritative(db: Db): set<Id> {
    set e | e in db.epochs && IsOpen(db, e)
            && !(e in IncomingIds(db) && IsAwaiting(db.epochs[e].state))
  }

  function MaxOf(s: set<nat>): (m: nat)
    ensures forall x | x in s :: x <= m
    ensures s != {} ==> m in s
  {
    if m :| m in s && forall x | x in s :: x <= m then m else
      assert s == {} by { if s != {} { var m := HasMaximum(s); } }
      0
  }

  lemma HasMaximum(s: set<nat>) returns (m: nat)
    requires s != {}
    ensures m in s && forall x | x in s :: x <= m
  {
    m :| m in s;
    var first, rest := m, s - {m};
    assert forall x | x in s :: x == first || x in rest;
    if rest != {} {
      var n := HasMaximum(rest);
      if n > m { m := n; }
    }
  }

  function Ordinals(epochs: map<Id, Epoch>): set<nat> { set e | e in epochs :: epochs[e].ordinal }

  function NextOrdinal(db: Db): nat { 1 + MaxOf(Ordinals(db.epochs)) }

  // ----- Store primitives -----

  /** One row per id and per ordinal; session, provider and ordinal of a row never change. */
  function PutEpoch(epochs: map<Id, Epoch>, e: Epoch): Option<map<Id, Epoch>> {
    if exists x | x in epochs :: x != e.id && epochs[x].ordinal == e.ordinal then None
    else if e.id in epochs
            && !(epochs[e.id].session == e.session && epochs[e.id].provider == e.provider
                 && epochs[e.id].ordinal == e.ordinal) then None
    else Some(epochs[e.id := e])
  }

  function SaveEpoch(db: Db, e: Epoch): Option<Db> {
    var epochs :- PutEpoch(db.epochs, e);
    Some(db.(epochs := epochs))
  }

  function BeginTransition(db: Db, t: Transition): Option<Db> {
    if db.Blocked() then None else Some(db.(transition := Some(t)))
  }

  function SaveTransition(db: Db, t: Transition): Option<Db> {
    if db.transition.None? then None
    else
      var current := db.transition.value;
      if current.handoff == t.handoff && current.outgoing == t.outgoing && current.incoming == t.incoming
         && MayFollow(current.state, t.state)
      then Some(db.(transition := Some(t))) else None
  }

  function SavePackage(db: Db, p: Package): Option<Db> {
    if p.id in db.packages && !(db.packages[p.id].outgoing == p.outgoing && db.packages[p.id].provider == p.provider)
    then None else Some(db.(packages := db.packages[p.id := p]))
  }

  function SaveSession(db: Db, id: SessionId, s: Session): Option<Db> {
    if id in db.sessions
       && (db.sessions[id].provider != s.provider
           || (db.sessions[id].external.Some? && s.external != db.sessions[id].external)) then None
    else Some(db.(sessions := db.sessions[id := s]))
  }

  function SaveResult(db: Db, r: Result): Option<Db> {
    if r.id in db.results && db.results[r.id] != r then None else Some(db.(results := db.results[r.id := r]))
  }

  function MoveExecution(db: Db, id: Id, expected: ExecutionState, to: ExecutionState, resume: Option<Id>): Option<Db> {
    if id !in db.executions || db.executions[id].state != expected || !MayMove(expected, to) then None
    else Some(db.(executions := db.executions[id := db.executions[id].(state := to, resume := resume)]))
  }

  function MoveAttempt(db: Db, execution: Id, expected: AttemptState, to: AttemptState): Option<Db> {
    if execution !in db.attempts || db.attempts[execution].state != expected then None
    else Some(db.(attempts := db.attempts[execution := db.attempts[execution].(state := to)]))
  }

  function ReserveOperation(db: Db, token: Id): Option<Db> {
    var f :- Reserve(db.fence, token);
    Some(db.(fence := f))
  }

  function ReleaseOperation(db: Db, held: Fence): Option<Db> {
    var f :- Release(db.fence, held);
    Some(db.(fence := f))
  }

  // ----- Failover decisions and executions -----

  function EpochRefOf(e: Epoch): E.EpochRef { E.EpochRef(e.id, e.session, e.provider) }

  /** `_evaluate_failover` on the database and the outside evidence; `None` without one active epoch. */
  function EvaluateFailover(db: Db, id: Id, evidence: E.Evidence, now: int): Option<E.Evaluation> {
    if e :| e in db.epochs && Authoritative(db) == {e} then
      Some(E.Evaluate(E.Query(id, db.instance, EpochRefOf(db.epochs[e]), db.fence.generation, evidence, now,
                              db.fence.Fenced? || db.Blocked())))
    else None
  }

  /** The fields `execute_failover` compares: everything but the evaluation and expiry times. */
  predicate SameFindings(a: E.Decision, b: E.Decision) {
    a == b.(evaluatedAt := a.evaluatedAt, expiresAt := a.expiresAt)
  }

  function SaveDecision(db: Db, id: Id, d: E.Decision): Option<Db> {
    if id in db.decisions then None else Some(db.(decisions := db.decisions[id := DecisionRow(d, false)]))
  }

  /** The transaction of `execute_failover`: re-evaluate, reserve, record the execution, consume. */
  function ExecuteFailover(db: Db, t: Id, id: Id, original: DecisionRow, evidence: E.Evidence, now: int, later: int)
    : Option<Db>
  {
    if id !in db.decisions || db.decisions[id] != original || original.consumed then None
    else
      var evaluation :- EvaluateFailover(db, id, evidence, now);
      if !evaluation.Decided? || !SameFindings(original.decision, evaluation.decision) then None
      else
        var reserved :- ReserveOperation(db, t);
        if original.decision.expiresAt <= later || t in db.executions then None
        else if e :| e in db.epochs && Authoritative(db) == {e} then
          var x := Execution(t, id, original.decision.outgoingEpoch, db.epochs[e].session,
                             original.decision.outgoingProvider, original.decision.checkpoint,
                             db.fence.generation, t, ExReserved, None);
          Some(reserved.(executions := db.executions[t := x],
                         decisions := db.decisions[id := original.(consumed := true)]))
        else None
  }

  // ----- Handoff transactions -----

  /** The session an incoming epoch will use, created without an external identity when new. */
  function EnsureSession(db: Db, id: SessionId, provider: Id, external: Option<Id>): Db {
    if id in db.sessions then db else db.(sessions := db.sessions[id := Session(provider, external)])
  }

  function IncomingEpoch(db: Db, t: Id, provider: Id): Epoch {
    Epoch(t, Derived(provider, NextOrdinal(db)), provider, NextOrdinal(db), Queued, false, None)
  }

  function NewPackage(db: Db, t: Id, provider: Id, op: Fence, outgoing: Id): Package
    requires op.Fenced?
  {
    Package(t, outgoing, provider, t, Derived(provider, NextOrdinal(db)), op.generation, op.owner,
            PkgImporting, None, None)
  }

  /** The import transaction of `_perform_handoff`. */
  function StartImport(db: Db, t: Id, provider: Id, op: Fence, outgoing: Epoch): Option<Db>
    requires op.Fenced?
  {
    var incoming := IncomingEpoch(db, t, provider);
    var a := EnsureSession(db, incoming.session, provider, None);
    var b :- BeginTransition(a, Transition(t, outgoing.id, t, Importing));
    var c :- SavePackage(b, NewPackage(db, t, provider, op, outgoing.id));
    SaveEpoch(c, incoming)
  }

  /** The checks on an import result. */
  predicate ImportAccepted(db: Db, p: Package, incoming: Epoch, r: Result) {
    && IsAcknowledged(r.state)
    && r.request == HandoffRequest(p.id) && r.instance == db.instance && r.provider == p.provider
    && r.session == incoming.session && r.epoch == incoming.id && r.external.Some?
  }

  /** The failure branch of `_complete_handoff`. */
  function FailHandoff(db: Db, p: Package, incoming: Epoch, r: Result, quarantine: bool): Option<Db> {
    var a :- SaveResult(db, r);
    var b :- SaveEpoch(a, incoming.(state := if quarantine then Quarantined else OpBlocked, closed := quarantine));
    var c :- SavePackage(b, p.(status := if quarantine then PkgQuarantined else PkgBlocked));
    if c.transition.None? then None
    else SaveTransition(c, c.transition.value.(state := HandoffFailed))
  }

  /** `_persist_import_acknowledgement`. */
  function AcknowledgeImport(db: Db, p: Package, incoming: Epoch, r: Result): Option<Db> {
    var a :- SaveResult(db, r);
    if incoming.session !in a.sessions || a.transition.None? then None
    else
      var b :- SaveSession(a, incoming.session, a.sessions[incoming.session].(external := r.external));
      var c :- SavePackage(b, p.(status := PkgImportAcknowledged, importResult := Some(r.id), external := r.external));
      SaveTransition(c, c.transition.value.(state := ImportAcknowledged))
  }

  /** The session check of the promotion. */
  predicate SessionBound(db: Db, p: Package, incoming: Epoch) {
    && incoming.session in db.sessions
    && p.external.Some? && db.sessions[incoming.session].external == p.external
    && p.importResult.Some?
  }

  /** The result check of the promotion. */
  predicate ResultBound(db: Db, p: Package, incoming: Epoch) {
    && p.importResult.Some? && p.importResult.value in db.results
    && var r := db.results[p.importResult.value];
    && r.request == HandoffRequest(p.id) && r.id == p.importResult.value && r.instance == db.instance
    && r.provider == p.provider && r.session == incoming.session && r.epoch == incoming.id
    && r.external == p.external && IsAcknowledged(r.state)
  }

  /** The fields a repeated acknowledgement must share with the recorded one. */
  predicate SameBindings(r: Result, durable: Result) {
    r.id == durable.id && r.request == durable.request && r.instance == durable.instance
        && r.provider == durable.provider
    && r.external == durable.external && r.session == durable.session && r.epoch == durable.epoch
      && r.state == durable.state
  }

  /** The result check of the rollback, `_durable_incoming_session`. */
  predicate DurablyAcknowledged(db: Db, p: Package, incoming: Epoch) {
    && p.importResult.Some? && p.importResult.value in db.results
    && var r := db.results[p.importResult.value];
    && r.request == HandoffRequest(p.id) && r.provider == incoming.provider && r.instance == db.instance
    && r.session == incoming.session && r.epoch == incoming.id && r.external == p.external && IsAcknowledged(r.state)
  }

  /** `_operation_for_package`: the fence, if it is still held exactly as the package records. */
  function OperationFor(db: Db, p: Package): Option<Fence> {
    if db.fence == Fenced(p.generation, p.owner) then Some(db.fence) else None
  }

  /** The transaction of `_promote_acknowledged_handoff`. */
  function Promote(db: Db, p: Package, t: Transition, incoming: Epoch, outgoing: Epoch): Option<Db> {
    var a :- SavePackage(db, p.(status := PkgAcknowledged));
    var b :- SaveEpoch(a, outgoing.(state := Succeeded, closed := true, replacement := Some(incoming.id)));
    var c :- SaveEpoch(b, incoming.(state := Running));
    var d :- SaveTransition(c, t.(state := Completed));
    var op :- OperationFor(d, p);
    ReleaseOperation(d, op)
  }

  /** The transaction that opens a reconciliation. */
  function StartReconcile(db: Db, p: Package, t: Transition): Option<Db> {
    var a :- SaveTransition(db, t.(state := Reconciling));
    SavePackage(a, p.(status := PkgReconciling))
  }

  /** The branch of `rollback_handoff` for a cancellation that could not be verified. */
  function BlockRollback(db: Db, p: Package, t: Transition, incoming: Epoch): Option<Db> {
    var a :- SaveEpoch(db, incoming.(state := OpBlocked));
    var b :- SavePackage(a, p.(status := PkgRollbackBlocked));
    if t.state == HandoffFailed then Some(b) else SaveTransition(b, t.(state := HandoffFailed))
  }

  /** The final transaction of `rollback_handoff`. */
  function RollBack(db: Db, p: Package, t: Transition, incoming: Epoch, outgoing: Epoch, op: Fence): Option<Db> {
    var a :- if incoming.closed then Some(db) else SaveEpoch(db, incoming.(state := Cancelled, closed := true));
    var b :- SaveEpoch(a, outgoing.(state := Running));
    var c :- SavePackage(b, p.(status := PkgRolledBack));
    var d :- SaveTransition(c, t.(state := RolledBack));
    ReleaseOperation(d, op)
  }

  // ----- Failover recovery transactions -----

  /** `claim_failover_recovery`. */
  function ClaimRecovery(db: Db, t: Id, execution: Id): Option<Db> {
    if execution in db.attempts then None
    else
      var a :- MoveExecution(db, execution, BlockedPreimport, Recovering, None);
      Some(a.(attempts := a.attempts[execution := Attempt(t, execution, Pending)]))
  }

  /** `_validate_recovery_result`; `attempt` is given when the result answers a recover call. */
  predicate RecoveryValid(db: Db, x: Execution, r: Result, attempt: Option<Id>) {
    && x.session in db.sessions
    && IsAcknowledged(r.state) && r.instance == db.instance && r.provider == x.provider && r.epoch == x.outgoing
    && (r.session == x.session
        || (db.sessions[x.session].external.Some? && r.session == Named(db.sessions[x.session].external.value)))
    && (r.external.None? || r.external == db.sessions[x.session].external)
    && (attempt.Some? ==> r.request == RecoveryRequest(attempt.value)
                          && r.recoveryEvidence == Some(RecoveryRequest(attempt.value)) && r.adapterMatches)
  }

  /** `record_agent_recovery_result_bundle`. */
  function RecordRecovery(db: Db, execution: Id, attempt: Id, r: Result): Option<Db> {
    if r.id in db.results || attempt in db.outcomes then None
    else
      var a :- SaveResult(db, r);
      var b := a.(outcomes := a.outcomes[attempt := Outcome(r.id, r.request, r.state)]);
      MoveAttempt(b, execution, ExternalStarted, ResultRecorded)
  }

  /** `_finalize_failover_recovery`. */
  function FinalizeRecovery(db: Db, x: Execution, op: Fence, resume: Option<Id>): Option<Db> {
    if db.fence != op then None
    else
      var a :- if x.id in db.attempts && IsStarted(db.attempts[x.id].state)
               then MoveAttempt(db, x.id, db.attempts[x.id].state, Finalized) else Some(db);
      var b :- ReleaseOperation(a, op);
      MoveExecution(b, x.id, x.state, Recovered, resume)
  }

  // ----- Other lifecycle steps -----

  function SaveSessions(db: Db, sessions: seq<(SessionId, Session)>): Option<Db> {
    if sessions == [] then Some(db)
    else
      var a :- SaveSessions(db, sessions[..|sessions| - 1]);
      var last := sessions[|sessions| - 1];
      SaveSession(a, last.0, last.1)
  }

  /** The commit of `discover`, under its own reservation. */
  function CommitDiscovery(db: Db, op: Fence, sessions: seq<(SessionId, Session)>): Option<Db> {
    if db.fence != op then None else SaveSessions(db, sessions)
  }

  /** `_open_epoch` with persistence: only when no epoch is open. */
  function OpenEpoch(db: Db, t: Id, provider: Id, session: Option<SessionId>, external: Option<Id>,
      state: OperationState)
    : Option<Db>
  {
    if exists e | e in db.epochs :: !db.epochs[e].closed then None
    else
      var ordinal := NextOrdinal(db);
      var chosen := if session.Some? then session.value else Derived(provider, ordinal);
      SaveEpoch(EnsureSession(db, chosen, provider, external), Epoch(t, chosen, provider, ordinal, state, false, None))
  }

  /** The open epoch with the largest ordinal. */
  predicate IsNewestOpen(db: Db, e: Id) {
    IsOpen(db, e) && forall x | x in db.epochs && IsOpen(db, x) :: db.epochs[x].ordinal <= db.epochs[e].ordinal
  }

  function QuarantineOthers(epochs: map<Id, Epoch>, active: Id): map<Id, Epoch> {
    map e | e in epochs ::
      if !epochs[e].closed && e != active
      then epochs[e].(state := Quarantined, closed := true, replacement := Some(active)) else epochs[e]
  }

  /** The checks on the provider's answer to a resume. */
  predicate ResumeBound(db: Db, session: SessionId, r: Result)
    requires session in db.sessions
  {
    && r.instance == db.instance && r.provider == db.sessions[session].provider
    && db.sessions[session].external.Some? && r.session == Named(db.sessions[session].external.value)
  }

  function ResumedState(r: Result): OperationState { if IsAcknowledged(r.state) then Running else OpBlocked }

  /** The open epoch has to be resumed: it takes no dispatches and belongs to the session. */
  predicate NeedsResume(e: Epoch, session: SessionId) { !IsAcknowledged(e.state) && e.session == session }

  /** `recover`, taken as one step, with the provider's answer to a resume. An answer with other bindings
      raises after the older epochs have been closed; those writes stay. */
  ghost function RecoverSession(db: Db, t: Id, session: SessionId, r: Result): Option<Db> {
    if session !in db.sessions || db.Blocked() || db.fence.Fenced? then None
    else if active :| active in db.epochs && IsNewestOpen(db, active) then
      var tidy := db.(epochs := QuarantineOthers(db.epochs, active));
      var e := tidy.epochs[active];
      if !NeedsResume(e, session) || !ResumeBound(db, session, r) then Some(tidy)
      else SaveEpoch(tidy, e.(state := ResumedState(r)))
    else if !ResumeBound(db, session, r) then None
    else OpenEpoch(db, t, db.sessions[session].provider, Some(session), None, ResumedState(r))
  }

  /** The call raises although it has closed older epochs. */
  ghost predicate ResumeRaises(db: Db, session: SessionId, r: Result)
    requires session in db.sessions
  {
    !ResumeBound(db, session, r) && exists e | e in db.epochs ::
        IsNewestOpen(db, e) && NeedsResume(db.epochs[e], session)
  }
}
