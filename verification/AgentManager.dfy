/** The lifecycle methods of src/overseer/agent_manager.py as code over one instance's records, run
    without interruption. Each method is proved against the transactions of `LifecycleStore`; what
    interleavings and crashes do to them is proved on those in the other lifecycle modules. */
module AgentManager {
  import opened Contracts
  import opened Fences
  import opened LifecycleStore
  import E = FailoverEvidence

  // ----- What the methods compute -----

  /** The open epochs other than `active`. */
  function Stale(epochs: map<Id, Epoch>, active: Id): set<Id> {
    set e | e in epochs && !epochs[e].closed && e != active
  }

  /** `_promote_acknowledged_handoff`: its lookups, its checks and its transaction. */
  function Promotion(db: Db, h: Id): Option<Db> {
    if h !in db.packages || db.transition.None? || db.transition.value.state != ImportAcknowledged then None
    else
      var p, tr := db.packages[h], db.transition.value;
      if tr.incoming !in db.epochs || tr.outgoing !in db.epochs || !SessionBound(db, p, db.epochs[tr.incoming])
         || !ResultBound(db, p, db.epochs[tr.incoming]) then None
      else Promote(db, p, tr, db.epochs[tr.incoming], db.epochs[tr.outgoing])
  }

  /** How a method ended: with an exception before any lasting write, refused by a failed handoff, or
      done. */
  datatype Ending = Raised | HandoffRefused | Done

  /** `_complete_handoff`: record a refusal, or record the acknowledgement and promote. */
  function Completion(db: Db, p: Package, incoming: Epoch, r: Result, quarantine: bool): (Db, Ending) {
    if !ImportAccepted(db, p, incoming, r) then
      var failed := FailHandoff(db, p, incoming, r, quarantine);
      if failed.Some? then (failed.value, HandoffRefused) else (db, Raised)
    else
      var acknowledged := AcknowledgeImport(db, p, incoming, r);
      if acknowledged.None? then (db, Raised)
      else
        var promoted := Promotion(acknowledged.value, p.id);
        if promoted.Some? then (promoted.value, Done) else (acknowledged.value, Raised)
  }

  /** The transition that reconcile and rollback may work on. */
  predicate Awaits(db: Db, h: Id) {
    h in db.packages && db.transition.Some? && db.transition.value.handoff == db.packages[h].id
    && IsBlocking(db.transition.value.state)
  }

  /** `reconcile_handoff`. */
  function Reconciliation(db: Db, h: Id, answer: Option<Result>): (Db, Ending) {
    if !Awaits(db, h) then (db, Raised)
    else
      var p, tr := db.packages[h], db.transition.value;
      if p.incomingEpoch !in db.epochs || db.epochs[p.incomingEpoch].closed then (db, Raised)
      else if tr.state == ImportAcknowledged then
        if answer.Some? && !(p.importResult.Some? && p.importResult.value in db.results
                             && SameBindings(answer.value, db.results[p.importResult.value])) then (db, Raised)
        else
          var promoted := Promotion(db, p.id);
          if promoted.Some? then (promoted.value, Done) else (db, Raised)
      else if answer.None? then (db, Raised)
      else
        var reopened := StartReconcile(db, p, tr);
        if reopened.None? then (db, Raised)
        else Completion(reopened.value, p.(status := PkgReconciling), db.epochs[p.incomingEpoch], answer.value, true)
  }

  /** `rollback_handoff`; `verified` says whether the provider's cancel reached a verified end. */
  function Rollback(db: Db, h: Id, verified: bool): (Db, Ending) {
    if !Awaits(db, h) then (db, Raised)
    else
      var p, tr := db.packages[h], db.transition.value;
      if !IsOpen(db, tr.outgoing) || tr.incoming !in db.epochs || OperationFor(db, p).None? then (db, Raised)
      else
        var incoming, outgoing := db.epochs[tr.incoming], db.epochs[tr.outgoing];
        if SessionBound(db, p, incoming) && DurablyAcknowledged(db, p, incoming) && verified then
          var undone := RollBack(db, p, tr, incoming, outgoing, db.fence);
          if undone.Some? then (undone.value, Done) else (db, Raised)
        else
          var blocked := BlockRollback(db, p, tr, incoming);
          if blocked.Some? then (blocked.value, HandoffRefused) else (db, Raised)
  }

  /** `active_epoch`. */
  function ActiveEpoch(db: Db): Option<Epoch> {
    if e :| e in db.epochs && Authoritative(db) == {e} then Some(db.epochs[e]) else None
  }

  /** `_perform_handoff` by call `t`; a failover brings the reservation it `held`. `usable` says whether the
      checkpoint can be used, `r` is the provider's answer to the import. Writes before an exception stay. */
  function Handoff(db: Db, t: Id, provider: Id, held: Option<Fence>, usable: bool, r: Result): (Db, Ending) {
    if db.Blocked() || (held.None? && db.fence.Fenced?) then (db, Raised)
    else
      var active := ActiveEpoch(db);
      if active.None? || !IsAcknowledged(active.value.state) then (db, Raised)
      else if held.None? then
        var op := Fenced(db.fence.generation, t);
        HandoffUnder(db.(fence := op), t, provider, op, false, active.value, usable, r)
      else if db.fence != held.value then (db, Raised)
      else HandoffUnder(db, t, provider, held.value, true, active.value, usable, r)
  }

  /** The handoff once its reservation stands: drain, check the checkpoint, import, complete. */
  function HandoffUnder(db: Db, t: Id, provider: Id, op: Fence, failover: bool, outgoing: Epoch, usable: bool,
      r: Result)
    : (Db, Ending)
  {
    var draining := if failover then MoveExecution(db, t, ExReserved, Draining, None) else Some(db);
    if draining.None? then (db, Raised)
    else if draining.value.fence != op then (draining.value, Raised)
    else if !usable then
      var blocked := if failover then MoveExecution(draining.value, t, Draining, BlockedPreimport, None) else None;
      (if blocked.Some? then blocked.value else draining.value, Raised)
    else
      var started := if failover then MoveExecution(draining.value, t, Draining, TransitionStarted, None) else draining;
      if started.None? then (draining.value, Raised)
      else Import(started.value, t, provider, op, outgoing, r)
  }

  /** The import transaction and what follows. */
  function Import(db: Db, t: Id, provider: Id, op: Fence, outgoing: Epoch, r: Result): (Db, Ending) {
    if op.Open? then (db, Raised)
    else
      var imported := StartImport(db, t, provider, op, outgoing);
      if imported.None? then (db, Raised)
      else Completion(imported.value, NewPackage(db, t, provider, op, outgoing.id), IncomingEpoch(db, t, provider),
        r, false)
  }

  /** A decision that may be executed at time `now`. */
  predicate Executable(db: Db, d: Id, now: int) {
    && d in db.decisions && db.decisions[d].decision.instance == db.instance && db.decisions[d].decision.allowed
    && !db.decisions[d].consumed && db.decisions[d].decision.expiresAt > now
  }

  /** The clock readings, evidence, checkpoint and provider answer an execution of a decision meets. */
  datatype Circumstances = Circumstances(now: int, evidence: E.Evidence, again: int, later: int, usable: bool,
      result: Result)

  /** `execute_failover` by call `t`: check the decision, execute it in one transaction, hand off under its
      reservation. */
  function FailoverExecution(db: Db, t: Id, d: Id, c: Circumstances): (Db, Ending) {
    if !Executable(db, d, c.now) || db.decisions[d].decision.incoming.None? then (db, Raised)
    else
      var original := db.decisions[d];
      var executed := ExecuteFailover(db, t, d, original, c.evidence, c.again, c.later);
      if executed.None? then (db, Raised)
      else Handoff(executed.value, t, original.decision.incoming.value, Some(Fenced(db.fence.generation, t)),
        c.usable, c.result)
  }

  /** The epoch binding that a recovery checks. */
  predicate OutgoingBound(db: Db, x: Execution) {
    && x.outgoing in db.epochs && db.epochs[x.outgoing].session == x.session
      && db.epochs[x.outgoing].provider == x.provider
    && !exists e | e in db.epochs :: IsOpen(db, e) && db.epochs[e].ordinal > db.epochs[x.outgoing].ordinal
  }

  /** How a recovery ended, and whether it called the provider's recover. */
  datatype RecoveryRun = RecoveryRun(db: Db, ending: Ending, called: bool)

  function Finishing(db: Db, x: Execution, op: Fence, resume: Option<Id>, called: bool): RecoveryRun {
    var after := FinalizeRecovery(db, x, op, resume);
    if after.Some? then RecoveryRun(after.value, Done, called) else RecoveryRun(db, Raised, called)
  }

  /** `recover_failover_execution` by call `t`; `r` is what the provider answers to inspect or recover,
      whichever it is asked. */
  function FailoverRecovery(db: Db, t: Id, e: Id, r: Result): RecoveryRun {
    if e !in db.executions || !IsRecoverable(db.executions[e].state) then RecoveryRun(db, Raised, false)
    else
      var x := db.executions[e];
      var op := Fenced(x.generation, x.owner);
      if db.fence != op || db.Blocked() || !OutgoingBound(db, x) then RecoveryRun(db, Raised, false)
      else if x.state == ExReserved then Finishing(db, x, op, None, false)
      else if x.state == Draining then
        var saved := if RecoveryValid(db, x, r, None) then SaveResult(db, r) else None;
        if saved.Some? then Finishing(saved.value, x, op, Some(r.id), false) else RecoveryRun(db, Raised, false)
      else if x.state == BlockedPreimport then
        var claimed := ClaimRecovery(db, t, x.id);
        if claimed.None? then RecoveryRun(db, Raised, false)
        else Attempting(claimed.value, x.(state := Recovering), op, Attempt(t, x.id, Pending), r)
      else if x.id in db.attempts then Attempting(db, x, op, db.attempts[x.id], r)
      else RecoveryRun(db, Raised, false)
  }

  /** The recovery once its attempt is known: replay, call, or inspect. */
  function Attempting(db: Db, x: Execution, op: Fence, a: Attempt, r: Result): RecoveryRun {
    if a.id in db.outcomes then
      var o := db.outcomes[a.id];
      if o.result in db.results && o.request == db.results[o.result].request && o.state == db.results[o.result].state
         && RecoveryValid(db, x, db.results[o.result], if db.results[o.result].recoveryEvidence.Some? then Some(a.id)
         else None)
      then Finishing(db, x, op, Some(o.result), false) else RecoveryRun(db, Raised, false)
    else if a.state == Pending then
      var started := MoveAttempt(db, x.id, Pending, ExternalStarted);
      if started.Some? then Answering(started.value, x, op, a, r, true) else RecoveryRun(db, Raised, false)
    else Answering(db, x, op, a, r, false)
  }

  function Answering(db: Db, x: Execution, op: Fence, a: Attempt, r: Result, called: bool): RecoveryRun {
    var recorded := if RecoveryValid(db, x, r, if called then Some(a.id) else None)
    then RecordRecovery(db, x.id, a.id, r) else None;
    if recorded.Some? then Finishing(recorded.value, x, op, Some(r.id), called) else RecoveryRun(db, Raised, called)
  }

  // ----- What recovering a session does to the epochs -----

  /** The provider's answer to a resume belongs to the session. */
  predicate AnswersSession(db: Db, session: SessionId, r: Result) {
    && session in db.sessions && r.instance == db.instance && r.provider == db.sessions[session].provider
    && db.sessions[session].external.Some? && r.session == Named(db.sessions[session].external.value)
  }

  /** An epoch that was resumed or opened on the answer is running if the provider acknowledged, runs or
      succeeded, and blocked otherwise. */
  predicate EndsAsAnswered(state: OperationState, answer: OperationState) {
    && (state == Running <==> answer == Acknowledged || answer == Running || answer == Succeeded)
    && (state != Running ==> state == OpBlocked)
  }

  /** An epoch that takes dispatches or belongs to another session is left as it is. */
  predicate NothingToResume(e: Epoch, session: SessionId) {
    e.state == Acknowledged || e.state == Running || e.state == Succeeded || e.session != session
  }

  /** With `active` the newest open epoch: closed ones stay, the other open ones are closed in its favour, and
      only its own state may change. */
  predicate Resumes(db: Db, after: map<Id, Epoch>, session: SessionId, r: Result, active: Id)
    requires active in db.epochs
  {
    && after.Keys == db.epochs.Keys
    && (forall e | e in db.epochs && db.epochs[e].closed :: after[e] == db.epochs[e])
    && (forall e | e in db.epochs && !db.epochs[e].closed && e != active ::
          after[e] == db.epochs[e].(state := Quarantined, closed := true, replacement := Some(active)))
    && after[active] == db.epochs[active].(state := after[active].state)
    && (if NothingToResume(db.epochs[active], session) || !AnswersSession(db, session, r)
        then after[active].state == db.epochs[active].state else EndsAsAnswered(after[active].state, r.state))
  }

  /** With no epoch open: epoch `t` is opened behind all others, for the session and its provider. */
  predicate Opens(db: Db, after: map<Id, Epoch>, t: Id, session: SessionId, r: Result) {
    && t !in db.epochs && after.Keys == db.epochs.Keys + {t} && session in db.sessions
    && (forall e | e in db.epochs :: after[e] == db.epochs[e] && db.epochs[e].ordinal < after[t].ordinal)
    && (after[t].ordinal == 1 || exists e :: e in db.epochs && after[t].ordinal == db.epochs[e].ordinal + 1)
    && after[t].id == t && after[t].session == session && after[t].provider == db.sessions[session].provider
    && !after[t].closed && after[t].replacement.None? && EndsAsAnswered(after[t].state, r.state)
  }

  predicate NoneOpen(db: Db) { forall e | e in db.epochs :: db.epochs[e].closed }

  /** Nothing forbids recovering the session. */
  predicate MayRecover(db: Db, session: SessionId) { session in db.sessions && !db.Blocked() && db.fence.Open? }

  lemma {:induction false} NextOrdinalExactly(db: Db)
    ensures forall e | e in db.epochs :: db.epochs[e].ordinal < NextOrdinal(db)
    ensures NextOrdinal(db) == 1 || exists e :: e in db.epochs && NextOrdinal(db) == db.epochs[e].ordinal + 1
  {
    var s := Ordinals(db.epochs);
    forall e | e in db.epochs ensures db.epochs[e].ordinal < NextOrdinal(db) { assert db.epochs[e].ordinal in s; }
    if s != {} {
      var e :| e in db.epochs && db.epochs[e].ordinal == MaxOf(s);
    }
  }

  ghost predicate Indexed(db: Db) {
    && (forall e | e in db.epochs :: db.epochs[e].id == e)
    && (forall a, b | a in db.epochs && b in db.epochs && a != b :: db.epochs[a].ordinal != db.epochs[b].ordinal)
  }

  /** The epochs that a recovery of the newest open one leaves. */
  function ResumedEpochs(db: Db, session: SessionId, r: Result, active: Id): map<Id, Epoch>
    requires active in db.epochs && session in db.sessions
  {
    var tidy := QuarantineOthers(db.epochs, active);
    if NeedsResume(db.epochs[active], session) && ResumeBound(db, session, r)
    then tidy[active := db.epochs[active].(state := ResumedState(r))] else tidy
  }

  lemma ResumeCommits(db: Db, t: Id, session: SessionId, r: Result, active: Id)
    requires Indexed(db) && MayRecover(db, session) && IsNewestOpen(db, active)
    ensures RecoverSession(db, t, session, r) == Some(db.(epochs := ResumedEpochs(db, session, r, active)))
  {
    hide ResumeBound, ResumedState;
    assert forall e | e in db.epochs && IsNewestOpen(db, e) :: e == active;
    var tidy := db.(epochs := QuarantineOthers(db.epochs, active));
    assert tidy.epochs[active] == db.epochs[active];
    SavesActive(db, active, ResumedState(r));
  }

  lemma SavesActive(db: Db, active: Id, state: OperationState)
    requires Indexed(db) && active in db.epochs
    ensures var tidy := QuarantineOthers(db.epochs, active);
      SaveEpoch(db.(epochs := tidy), db.epochs[active].(state := state))
        == Some(db.(epochs := tidy[active := db.epochs[active].(state := state)]))
  {
  }

  lemma ResumesExactly(db: Db, session: SessionId, r: Result, active: Id)
    requires IsNewestOpen(db, active) && session in db.sessions
    ensures Resumes(db, ResumedEpochs(db, session, r, active), session, r, active)
  {
  }

  /** Recovering with an open epoch resumes the newest one; the call raises, with the older ones closed, if
      the answer it needed belongs to something else. */
  lemma ResumesNewest(db: Db, t: Id, session: SessionId, r: Result, active: Id)
    requires Indexed(db) && MayRecover(db, session) && IsNewestOpen(db, active)
    ensures RecoverSession(db, t, session, r) == Some(db.(epochs := ResumedEpochs(db, session, r, active)))
    ensures Resumes(db, ResumedEpochs(db, session, r, active), session, r, active)
    ensures ResumeRaises(db, session, r)
      <==> !NothingToResume(db.epochs[active], session) && !AnswersSession(db, session, r)
  {
    hide RecoverSession, Resumes, ResumedEpochs;
    ResumeCommits(db, t, session, r, active);
    ResumesExactly(db, session, r, active);
    assert forall e | e in db.epochs && IsNewestOpen(db, e) :: e == active;
  }

  /** Without one it opens a new epoch, if the answer belongs to the session and the id is free. */
  lemma OpensNewest(db: Db, t: Id, session: SessionId, r: Result)
    requires MayRecover(db, session) && NoneOpen(db)
    ensures var after := RecoverSession(db, t, session, r);
      && (after.Some? <==> AnswersSession(db, session, r) && t !in db.epochs)
      && (after.Some? ==>
            after.value == db.(epochs := after.value.epochs) && Opens(db, after.value.epochs, t, session, r))
    ensures !ResumeRaises(db, session, r)
  {
    NextOrdinalExactly(db);
  }

  // ----- The manager -----

  class Manager {
    const instance: Id
    var fence: Fence
    var epochs: map<Id, Epoch>
    var transition: Option<Transition>
    var packages: map<Id, Package>
    var sessions: map<SessionId, Session>
    var results: map<Id, Result>
    var decisions: map<Id, DecisionRow>
    var executions: map<Id, Execution>
    var attempts: map<Id, Attempt>
    var outcomes: map<Id, Outcome>

    function View(): Db
      reads this
    {
      Db(instance, fence, epochs, transition, packages, sessions, results, decisions, executions, attempts, outcomes)
    }

    constructor (instance: Id)
      ensures View() == Db(instance, INITIAL, map[], None, map[], map[], map[], map[], map[], map[], map[])
    {
      this.instance := instance;
      fence, epochs, transition, packages, sessions := INITIAL, map[], None, map[], map[];
      results, decisions, executions, attempts, outcomes := map[], map[], map[], map[], map[];
    }

    // ----- Store calls -----

    /** Roll a transaction back. */
    method Restore(db: Db)
      requires db.instance == instance
      modifies this
      ensures View() == db
    {
      fence, epochs, transition, packages, sessions := db.fence, db.epochs, db.transition, db.packages, db.sessions;
      results, decisions, executions, attempts, outcomes := db.results, db.decisions, db.executions, db.attempts,
          db.outcomes;
    }

    method SaveDriverEpoch(e: Epoch) returns (ok: bool)
      modifies this`epochs
      ensures ok == SaveEpoch(old(View()), e).Some?
      ensures View() == if ok then SaveEpoch(old(View()), e).value else old(View())
    {
      var put := PutEpoch(epochs, e);
      ok := put.Some?;
      if ok { epochs := put.value; }
    }

    method SaveHandoff(p: Package) returns (ok: bool)
      modifies this`packages
      ensures ok == SavePackage(old(View()), p).Some?
      ensures View() == if ok then SavePackage(old(View()), p).value else old(View())
    {
      ok := p.id !in packages || (packages[p.id].outgoing == p.outgoing && packages[p.id].provider == p.provider);
      if ok { packages := packages[p.id := p]; }
    }

    method SaveAgentTransition(t: Transition) returns (ok: bool)
      modifies this`transition
      ensures ok == SaveTransition(old(View()), t).Some?
      ensures View() == if ok then SaveTransition(old(View()), t).value else old(View())
    {
      ok := transition.Some? && transition.value.handoff == t.handoff && transition.value.outgoing == t.outgoing
            && transition.value.incoming == t.incoming && MayFollow(transition.value.state, t.state);
      if ok { transition := Some(t); }
    }

    method BeginAgentTransition(t: Transition) returns (ok: bool)
      modifies this`transition
      ensures ok == BeginTransition(old(View()), t).Some?
      ensures View() == if ok then BeginTransition(old(View()), t).value else old(View())
    {
      ok := !(transition.Some? && IsBlocking(transition.value.state));
      if ok { transition := Some(t); }
    }

    method SaveAgentSession(id: SessionId, s: Session) returns (ok: bool)
      modifies this`sessions
      ensures ok == SaveSession(old(View()), id, s).Some?
      ensures View() == if ok then SaveSession(old(View()), id, s).value else old(View())
    {
      ok := id !in sessions
            || (sessions[id].provider == s.provider
              && (sessions[id].external.None? || s.external == sessions[id].external));
      if ok { sessions := sessions[id := s]; }
    }

    method SaveDispatchResult(r: Result) returns (ok: bool)
      modifies this`results
      ensures ok == SaveResult(old(View()), r).Some?
      ensures View() == if ok then SaveResult(old(View()), r).value else old(View())
    {
      ok := r.id !in results || results[r.id] == r;
      if ok { results := results[r.id := r]; }
    }

    method ReleaseFence(held: Fence) returns (ok: bool)
      modifies this`fence
      ensures ok == ReleaseOperation(old(View()), held).Some?
      ensures View() == if ok then ReleaseOperation(old(View()), held).value else old(View())
    {
      ok := held.Fenced? && fence == held;
      if ok { fence := Open(held.generation + 1); }
    }

    // ----- Handoffs -----

    method PromoteAcknowledgedHandoff(h: Id) returns (ok: bool)
      modifies this
      ensures ok == Promotion(old(View()), h).Some?
      ensures View() == if ok then Promotion(old(View()), h).value else old(View())
    {
      if h !in packages || transition.None? || transition.value.state != ImportAcknowledged { return false; }
      var p, tr := packages[h], transition.value;
      if tr.incoming !in epochs || tr.outgoing !in epochs { return false; }
      var incoming, outgoing := epochs[tr.incoming], epochs[tr.outgoing];
      if !SessionBound(View(), p, incoming) || !ResultBound(View(), p, incoming) { return false; }
      var before := View();
      ok := SaveHandoff(p.(status := PkgAcknowledged));
      if ok { ok := SaveDriverEpoch(outgoing.(state := Succeeded, closed := true, replacement := Some(incoming.id))); }
      if ok { ok := SaveDriverEpoch(incoming.(state := Running)); }
      if ok { ok := SaveAgentTransition(tr.(state := Completed)); }
      if ok { ok := ReleaseFence(Fenced(p.generation, p.owner)); }
      if !ok { Restore(before); }
    }

    method PersistImportAcknowledgement(p: Package, incoming: Epoch, r: Result) returns (ok: bool)
      modifies this
      ensures ok == AcknowledgeImport(old(View()), p, incoming, r).Some?
      ensures View() == if ok then AcknowledgeImport(old(View()), p, incoming, r).value else old(View())
    {
      var before := View();
      ok := SaveDispatchResult(r);
      if ok { ok := incoming.session in sessions && transition.Some?; }
      if ok { ok := SaveAgentSession(incoming.session, sessions[incoming.session].(external := r.external)); }
      if ok {
        ok := SaveHandoff(p.(status := PkgImportAcknowledged, importResult := Some(r.id), external := r.external));
      }
      if ok { ok := SaveAgentTransition(transition.value.(state := ImportAcknowledged)); }
      if !ok { Restore(before); }
    }

    method RefuseHandoff(p: Package, incoming: Epoch, r: Result, quarantine: bool) returns (ok: bool)
      modifies this
      ensures ok == FailHandoff(old(View()), p, incoming, r, quarantine).Some?
      ensures View() == if ok then FailHandoff(old(View()), p, incoming, r, quarantine).value else old(View())
    {
      var before := View();
      ok := SaveDispatchResult(r);
      if ok {
        ok := SaveDriverEpoch(incoming.(state := if quarantine then Quarantined else OpBlocked, closed := quarantine));
      }
      if ok { ok := SaveHandoff(p.(status := if quarantine then PkgQuarantined else PkgBlocked)); }
      if ok { ok := transition.Some?; }
      if ok { ok := SaveAgentTransition(transition.value.(state := HandoffFailed)); }
      if !ok { Restore(before); }
    }

    method CompleteHandoff(p: Package, incoming: Epoch, r: Result, quarantine: bool) returns (ending: Ending)
      modifies this
      ensures (View(), ending) == Completion(old(View()), p, incoming, r, quarantine)
    {
      var ok: bool;
      if !ImportAccepted(View(), p, incoming, r) {
        ok := RefuseHandoff(p, incoming, r, quarantine);
        return if ok then HandoffRefused else Raised;
      }
      ok := PersistImportAcknowledgement(p, incoming, r);
      if !ok { return Raised; }
      ok := PromoteAcknowledgedHandoff(p.id);
      return if ok then Done else Raised;
    }

    method StartReconciliation(p: Package, tr: Transition) returns (ok: bool)
      modifies this
      ensures ok == StartReconcile(old(View()), p, tr).Some?
      ensures View() == if ok then StartReconcile(old(View()), p, tr).value else old(View())
    {
      var before := View();
      ok := SaveAgentTransition(tr.(state := LifecycleStore.Reconciling));
      if ok { ok := SaveHandoff(p.(status := PkgReconciling)); }
      if !ok { Restore(before); }
    }

    method ReconcileHandoff(h: Id, answer: Option<Result>) returns (ending: Ending)
      modifies this
      ensures (View(), ending) == Reconciliation(old(View()), h, answer)
    {
      if !Awaits(View(), h) { return Raised; }
      var p, tr := packages[h], transition.value;
      if p.incomingEpoch !in epochs || epochs[p.incomingEpoch].closed { return Raised; }
      var incoming := epochs[p.incomingEpoch];
      var ok: bool;
      if tr.state == ImportAcknowledged {
        if answer.Some? {
          if p.importResult.None? || p.importResult.value !in results
              || !SameBindings(answer.value, results[p.importResult.value]) {
            return Raised;
          }
        }
        ok := PromoteAcknowledgedHandoff(p.id);
        return if ok then Done else Raised;
      }
      if answer.None? { return Raised; }
      ok := StartReconciliation(p, tr);
      if !ok { return Raised; }
      ending := CompleteHandoff(p.(status := PkgReconciling), incoming, answer.value, true);
    }

    method UndoHandoff(p: Package, tr: Transition, incoming: Epoch, outgoing: Epoch, op: Fence) returns (ok: bool)
      modifies this
      ensures ok == RollBack(old(View()), p, tr, incoming, outgoing, op).Some?
      ensures View() == if ok then RollBack(old(View()), p, tr, incoming, outgoing, op).value else old(View())
    {
      var before := View();
      ok := true;
      if !incoming.closed { ok := SaveDriverEpoch(incoming.(state := Cancelled, closed := true)); }
      if ok { ok := SaveDriverEpoch(outgoing.(state := Running)); }
      if ok { ok := SaveHandoff(p.(status := PkgRolledBack)); }
      if ok { ok := SaveAgentTransition(tr.(state := RolledBack)); }
      if ok { ok := ReleaseFence(op); }
      if !ok { Restore(before); }
    }

    method BlockUndo(p: Package, tr: Transition, incoming: Epoch) returns (ok: bool)
      modifies this
      ensures ok == BlockRollback(old(View()), p, tr, incoming).Some?
      ensures View() == if ok then BlockRollback(old(View()), p, tr, incoming).value else old(View())
    {
      var before := View();
      ok := SaveDriverEpoch(incoming.(state := OpBlocked));
      if ok { ok := SaveHandoff(p.(status := PkgRollbackBlocked)); }
      if ok && tr.state != HandoffFailed { ok := SaveAgentTransition(tr.(state := HandoffFailed)); }
      if !ok { Restore(before); }
    }

    method RollbackHandoff(h: Id, verified: bool) returns (ending: Ending)
      modifies this
      ensures (View(), ending) == Rollback(old(View()), h, verified)
    {
      if !Awaits(View(), h) { return Raised; }
      var p, tr := packages[h], transition.value;
      if !IsOpen(View(), tr.outgoing) || tr.incoming !in epochs || OperationFor(View(), p).None? { return Raised; }
      var incoming, outgoing := epochs[tr.incoming], epochs[tr.outgoing];
      var ok: bool;
      if SessionBound(View(), p, incoming) && DurablyAcknowledged(View(), p, incoming) && verified {
        ok := UndoHandoff(p, tr, incoming, outgoing, fence);
        return if ok then Done else Raised;
      }
      ok := BlockUndo(p, tr, incoming);
      return if ok then HandoffRefused else Raised;
    }

    /** `_active_epoch` over the authoritative rows. */
    method FindActiveEpoch() returns (active: Option<Epoch>)
      ensures active == ActiveEpoch(View())
    {
      var found := Authoritative(View());
      if found == {} { return None; }
      var e :| e in found;
      if found != {e} { return None; }
      active := Some(epochs[e]);
    }

    method TransitionFailoverExecution(id: Id, expected: ExecutionState, to: ExecutionState) returns (ok: bool)
      modifies this`executions
      ensures ok == MoveExecution(old(View()), id, expected, to, None).Some?
      ensures View() == if ok then MoveExecution(old(View()), id, expected, to, None).value else old(View())
    {
      ok := id in executions && executions[id].state == expected && MayMove(expected, to);
      if ok { executions := executions[id := executions[id].(state := to, resume := None)]; }
    }

    /** The import transaction of `_perform_handoff`. */
    method ImportHandoff(t: Id, provider: Id, op: Fence, outgoing: Epoch) returns (ok: bool)
      requires op.Fenced?
      modifies this
      ensures ok == StartImport(old(View()), t, provider, op, outgoing).Some?
      ensures View() == if ok then StartImport(old(View()), t, provider, op, outgoing).value else old(View())
    {
      var before := View();
      var incoming := IncomingEpoch(before, t, provider);
      if incoming.session !in sessions { sessions := sessions[incoming.session := Session(provider, None)]; }
      ghost var a := EnsureSession(before, incoming.session, provider, None);
      assert View() == a;
      ok := BeginAgentTransition(Transition(t, outgoing.id, t, Importing));
      if ok { ok := SaveHandoff(NewPackage(before, t, provider, op, outgoing.id)); }
      if ok { ok := SaveDriverEpoch(incoming); }
      if !ok { Restore(before); }
    }

    method ImportAndComplete(t: Id, provider: Id, op: Fence, outgoing: Epoch, r: Result) returns (ending: Ending)
      modifies this
      ensures (View(), ending) == Import(old(View()), t, provider, op, outgoing, r)
    {
      if op.Open? { return Raised; }
      var p, incoming := NewPackage(View(), t, provider, op, outgoing.id), IncomingEpoch(View(), t, provider);
      var ok := ImportHandoff(t, provider, op, outgoing);
      if !ok { return Raised; }
      ending := CompleteHandoff(p, incoming, r, false);
    }

    method HandOffUnder(t: Id, provider: Id, op: Fence, failover: bool, outgoing: Epoch, usable: bool, r: Result)
      returns (ending: Ending)
      modifies this
      ensures (View(), ending) == HandoffUnder(old(View()), t, provider, op, failover, outgoing, usable, r)
    {
      var ok := true;
      if failover { ok := TransitionFailoverExecution(t, ExReserved, Draining); }
      if !ok || fence != op { return Raised; }
      if !usable {
        if failover { ok := TransitionFailoverExecution(t, Draining, BlockedPreimport); }
        return Raised;
      }
      if failover { ok := TransitionFailoverExecution(t, Draining, TransitionStarted); }
      if !ok { return Raised; }
      ending := ImportAndComplete(t, provider, op, outgoing, r);
    }

    /** `_perform_handoff`, manual or on behalf of a failover. */
    method PerformHandoff(t: Id, provider: Id, held: Option<Fence>, usable: bool, r: Result) returns (ending: Ending)
      modifies this
      ensures (View(), ending) == Handoff(old(View()), t, provider, held, usable, r)
    {
      if View().Blocked() || (held.None? && fence.Fenced?) { return Raised; }
      var active := FindActiveEpoch();
      if active.None? || !IsAcknowledged(active.value.state) { return Raised; }
      var op: Fence;
      if held.None? {
        fence := Fenced(fence.generation, t);
        op := fence;
      } else {
        op := held.value;
        if fence != op { return Raised; }
      }
      ending := HandOffUnder(t, provider, op, held.Some?, active.value, usable, r);
    }

    // ----- Failover -----

    /** `_evaluate_failover`, with the evaluator as code. */
    method Evaluate(id: Id, evidence: E.Evidence, now: int) returns (evaluation: Option<E.Evaluation>)
      requires evidence.Valid()
      ensures evaluation == EvaluateFailover(View(), id, evidence, now)
    {
      var active := FindActiveEpoch();
      if active.None? { return None; }
      var found := E.EvaluateFailoverEvidence(
        E.Query(id, instance, EpochRefOf(active.value), fence.generation, evidence, now, fence.Fenced?
            || View().Blocked()));
      return Some(found);
    }

    /** The transaction of `execute_failover`: re-evaluate, reserve, record the execution, consume the
        decision; or change nothing. */
    method ExecuteDecision(t: Id, id: Id, original: DecisionRow, evidence: E.Evidence, now: int,
        later: int) returns (ok: bool)
      requires evidence.Valid()
      modifies this
      ensures ok == ExecuteFailover(old(View()), t, id, original, evidence, now, later).Some?
      ensures View() == if ok then ExecuteFailover(old(View()), t, id, original, evidence, now, later).value
      else old(View())
    {
      if id !in decisions || decisions[id] != original || original.consumed { return false; }
      var evaluation := Evaluate(id, evidence, now);
      if evaluation.None? || !evaluation.value.Decided? || !SameFindings(original.decision, evaluation.value.decision) {
        return false;
      }
      if fence.Fenced? || original.decision.expiresAt <= later || t in executions { return false; }
      var active := FindActiveEpoch();
      if active.None? { return false; }
      executions := executions[t :=
        Execution(t, id, original.decision.outgoingEpoch, active.value.session, original.decision.outgoingProvider,
                  original.decision.checkpoint, fence.generation, t, ExReserved, None)];
      fence := Fenced(fence.generation, t);
      decisions := decisions[id := original.(consumed := true)];
      return true;
    }

    /** `execute_failover` from its checks to the end of its handoff. */
    method PerformFailover(t: Id, d: Id, c: Circumstances) returns (ending: Ending)
      requires c.evidence.Valid()
      modifies this
      ensures (View(), ending) == FailoverExecution(old(View()), t, d, c)
    {
      if d !in decisions || decisions[d].decision.instance != instance || !decisions[d].decision.allowed {
        return Raised;
      }
      if decisions[d].consumed || decisions[d].decision.expiresAt <= c.now { return Raised; }
      var original, generation := decisions[d], fence.generation;
      if original.decision.incoming.None? { return Raised; }
      var ok := ExecuteDecision(t, d, original, c.evidence, c.again, c.later);
      if !ok { return Raised; }
      ending := PerformHandoff(t, original.decision.incoming.value, Some(Fenced(generation, t)), c.usable, c.result);
    }

    // ----- Failover recovery -----

    method FinalizeFailoverRecovery(x: Execution, op: Fence, resume: Option<Id>) returns (ok: bool)
      modifies this
      ensures ok == FinalizeRecovery(old(View()), x, op, resume).Some?
      ensures View() == if ok then FinalizeRecovery(old(View()), x, op, resume).value else old(View())
    {
      if fence != op { return false; }
      var before := View();
      if x.id in attempts && IsStarted(attempts[x.id].state) {
        attempts := attempts[x.id := attempts[x.id].(state := Finalized)];
      }
      ok := ReleaseFence(op);
      if ok { ok := x.id in executions && executions[x.id].state == x.state && MayMove(x.state, Recovered); }
      if ok { executions := executions[x.id := executions[x.id].(state := Recovered, resume := resume)]; }
      else { Restore(before); }
    }

    method FinishRecovery(x: Execution, op: Fence, resume: Option<Id>, called: bool) returns (ending: Ending)
      modifies this
      ensures RecoveryRun(View(), ending, called) == Finishing(old(View()), x, op, resume, called)
    {
      var ok := FinalizeFailoverRecovery(x, op, resume);
      ending := if ok then Done else Raised;
    }

    method RecordRecoveryResult(x: Execution, a: Attempt, r: Result) returns (ok: bool)
      modifies this
      ensures ok == RecordRecovery(old(View()), x.id, a.id, r).Some?
      ensures View() == if ok then RecordRecovery(old(View()), x.id, a.id, r).value else old(View())
    {
      ok := r.id !in results && a.id !in outcomes && x.id in attempts && attempts[x.id].state == ExternalStarted;
      if !ok { return; }
      results := results[r.id := r];
      outcomes := outcomes[a.id := Outcome(r.id, r.request, r.state)];
      attempts := attempts[x.id := attempts[x.id].(state := ResultRecorded)];
    }

    method AnswerRecovery(x: Execution, op: Fence, a: Attempt, r: Result, called: bool) returns (ending: Ending)
      modifies this
      ensures RecoveryRun(View(), ending, called) == Answering(old(View()), x, op, a, r, called)
    {
      if !RecoveryValid(View(), x, r, if called then Some(a.id) else None) { return Raised; }
      var ok := RecordRecoveryResult(x, a, r);
      if !ok { return Raised; }
      ending := FinishRecovery(x, op, Some(r.id), called);
    }

    method ContinueRecovery(x: Execution, op: Fence, a: Attempt, r: Result) returns (ending: Ending, called: bool)
      modifies this
      ensures RecoveryRun(View(), ending, called) == Attempting(old(View()), x, op, a, r)
    {
      if a.id in outcomes {
        var o := outcomes[a.id];
        if o.result !in results || o.request != results[o.result].request || o.state != results[o.result].state {
          return Raised, false;
        }
        var replayed := results[o.result];
        if !RecoveryValid(View(), x, replayed, if replayed.recoveryEvidence.Some? then Some(a.id) else None) {
          return Raised, false;
        }
        ending := FinishRecovery(x, op, Some(o.result), false);
        return ending, false;
      }
      called := a.state == Pending;
      if called {
        if x.id !in attempts || attempts[x.id].state != Pending { return Raised, false; }
        attempts := attempts[x.id := attempts[x.id].(state := ExternalStarted)];
      }
      ending := AnswerRecovery(x, op, a, r, called);
    }

    /** `recover_failover_execution`; `called` says whether the provider's recover was called. */
    method RecoverFailoverExecution(t: Id, e: Id, r: Result) returns (ending: Ending, called: bool)
      modifies this
      ensures RecoveryRun(View(), ending, called) == FailoverRecovery(old(View()), t, e, r)
    {
      if e !in executions || !IsRecoverable(executions[e].state) { return Raised, false; }
      var x := executions[e];
      var op := Fenced(x.generation, x.owner);
      if fence != op || View().Blocked() || !OutgoingBound(View(), x) { return Raised, false; }
      if x.state == ExReserved {
        ending := FinishRecovery(x, op, None, false);
        return ending, false;
      }
      if x.state == Draining {
        if !RecoveryValid(View(), x, r, None) { return Raised, false; }
        var ok := SaveDispatchResult(r);
        if !ok { return Raised, false; }
        ending := FinishRecovery(x, op, Some(r.id), false);
        return ending, false;
      }
      if x.state == BlockedPreimport {
        if x.id in attempts || x.id !in executions || executions[x.id].state != BlockedPreimport {
          return Raised, false;
        }
        executions := executions[x.id := executions[x.id].(state := Recovering, resume := None)];
        attempts := attempts[x.id := Attempt(t, x.id, Pending)];
        ending, called := ContinueRecovery(x.(state := Recovering), op, Attempt(t, x.id, Pending), r);
        return;
      }
      if x.id !in attempts { return Raised, false; }
      ending, called := ContinueRecovery(x, op, attempts[x.id], r);
    }

    // ----- Sessions -----

    /** The open epoch with the largest ordinal, by one pass over the rows. */
    method NewestOpenEpoch() returns (newest: Option<Id>)
      ensures newest.Some? ==> newest.value in epochs && IsNewestOpen(View(), newest.value)
      ensures newest.None? ==> forall e | e in epochs :: epochs[e].closed
    {
      newest := None;
      var todo := epochs.Keys;
      while todo != {}
        invariant todo <= epochs.Keys
        invariant newest.Some? ==> IsOpen(View(), newest.value)
        invariant forall e | e in epochs && e !in todo && !epochs[e].closed ::
          newest.Some? && epochs[e].ordinal <= epochs[newest.value].ordinal
        decreases todo
      {
        var e :| e in todo;
        todo := todo - {e};
        if !epochs[e].closed && (newest.None? || epochs[newest.value].ordinal < epochs[e].ordinal) {
          newest := Some(e);
        }
      }
    }

    /** The loop of `recover` that closes every open epoch but the newest, in favour of it. */
    method QuarantineStale(active: Id)
      requires active in epochs
      modifies this`epochs
      ensures epochs == QuarantineOthers(old(epochs), active)
    {
      var todo := Stale(epochs, active);
      while todo != {}
        invariant todo <= Stale(old(epochs), active)
        invariant epochs.Keys == old(epochs).Keys
        invariant forall e | e in epochs ::
          epochs[e] == if e in Stale(old(epochs), active) - todo then QuarantineOthers(old(epochs), active)[e]
          else old(epochs)[e]
        decreases todo
      {
        var e :| e in todo;
        epochs := epochs[e := epochs[e].(state := Quarantined, closed := true, replacement := Some(active))];
        todo := todo - {e};
      }
    }

    /** Rows lie under their own id, and the store has a unique index on ordinals. */
    ghost predicate Valid()
      reads this
    {
      && (forall e | e in epochs :: epochs[e].id == e)
      && (forall a, b | a in epochs && b in epochs && a != b :: epochs[a].ordinal != epochs[b].ordinal)
    }

    /** `_open_epoch` in a transaction; it refuses while an epoch is open. */
    method OpenDriverEpoch(t: Id, provider: Id, session: Option<SessionId>, external: Option<Id>, state: OperationState)
      returns (ok: bool)
      modifies this
      ensures ok == OpenEpoch(old(View()), t, provider, session, external, state).Some?
      ensures View() == if ok then OpenEpoch(old(View()), t, provider, session, external, state).value else old(View())
    {
      var newest := NewestOpenEpoch();
      if newest.Some? { return false; }
      var before := View();
      var ordinal := NextOrdinal(View());
      var chosen := if session.Some? then session.value else Derived(provider, ordinal);
      if chosen !in sessions { sessions := sessions[chosen := Session(provider, external)]; }
      assert View() == EnsureSession(before, chosen, provider, external);
      ok := SaveDriverEpoch(Epoch(t, chosen, provider, ordinal, state, false, None));
      if !ok { Restore(before); }
    }

    /** `recover`: `t` is the id a new epoch would draw, `r` the provider's answer to a resume. */
    method Recover(t: Id, session: SessionId, r: Result) returns (ok: bool)
      requires Valid()
      modifies this
      ensures var after := RecoverSession(old(View()), t, session, r);
        && View() == (if after.Some? then after.value else old(View()))
        && (ok <==> after.Some? && !ResumeRaises(old(View()), session, r))
      ensures View() == old(View()).(epochs := epochs)
      ensures !MayRecover(old(View()), session) ==> !ok && epochs == old(epochs)
      ensures forall active | MayRecover(old(View()), session) && IsNewestOpen(old(View()), active) ::
        && Resumes(old(View()), epochs, session, r, active)
        && (ok <==> NothingToResume(old(epochs)[active], session) || AnswersSession(old(View()), session, r))
      ensures MayRecover(old(View()), session) && NoneOpen(old(View())) ==>
        && (ok <==> AnswersSession(old(View()), session, r) && t !in old(epochs))
        && (if ok then Opens(old(View()), epochs, t, session, r) else epochs == old(epochs))
    {
      if session !in sessions || View().Blocked() || fence.Fenced? { return false; }
      ghost var before := View();
      var bound := ResumeBound(View(), session, r);
      var newest := NewestOpenEpoch();
      if newest.None? {
        OpensNewest(before, t, session, r);
        if !bound { return false; }
        ok := OpenDriverEpoch(t, sessions[session].provider, Some(session), None, ResumedState(r));
        return;
      }
      var active := newest.value;
      ResumesNewest(before, t, session, r, active);
      assert forall e | e in epochs && IsNewestOpen(View(), e) :: e == active;
      QuarantineStale(active);
      if !NeedsResume(epochs[active], session) { return true; }
      if !bound {
        assert IsNewestOpen(before, active) && NeedsResume(before.epochs[active], session);
        return false;
      }
      ok := SaveDriverEpoch(epochs[active].(state := ResumedState(r)));
      assert ok;
    }
  }
}
