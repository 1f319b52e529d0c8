/** Activation and discovery left alone (src/overseer/agent_manager.py, `activate` and `discover`): which epoch and
    sessions they leave, and that a discovery gives its fence back whatever becomes of its commit. */
module LifecycleSessions {
  import opened Contracts
  import opened Fences
  import opened LifecycleStore
  import opened LifecycleRuns
  import opened LifecycleFence
  import opened LifecycleAlone
  import M = AgentManager

  // ----- Opening an epoch -----

  /** Epoch `t` is the only new one, at the next ordinal behind all others. */
  predicate Appended(epochs: map<Id, Epoch>, after: map<Id, Epoch>, t: Id) {
    && t !in epochs && after.Keys == epochs.Keys + {t}
    && (forall e | e in epochs :: after[e] == epochs[e] && epochs[e].ordinal < after[t].ordinal)
    && (after[t].ordinal == 1 || exists e :: e in epochs && after[t].ordinal == epochs[e].ordinal + 1)
  }

  /** Epoch `t` is the only new one, behind all others, open, in this state; its session is known, and new with this
      provider and external identity if it was not known before. */
  predicate OpensEpoch(db: Db, after: Db, t: Id, provider: Id, session: Option<SessionId>, external: Option<Id>,
      state: OperationState)
  {
    && Appended(db.epochs, after.epochs, t)
    && var chosen := if session.Some? then session.value else Derived(provider, after.epochs[t].ordinal);
    && after.epochs[t] == Epoch(t, chosen, provider, after.epochs[t].ordinal, state, false, None)
    && (if chosen in db.sessions then after.sessions == db.sessions
        else after.sessions == db.sessions[chosen := Session(provider, external)])
    && after == db.(epochs := after.epochs, sessions := after.sessions)
  }

  lemma PutsNew(db: Db, e: Epoch)
    requires e.ordinal == NextOrdinal(db)
    ensures PutEpoch(db.epochs, e) == if e.id in db.epochs then None else Some(db.epochs[e.id := e])
  {
    M.NextOrdinalExactly(db);
  }

  /** The epoch that is opened. */
  function NewEpoch(db: Db, t: Id, provider: Id, session: Option<SessionId>, state: OperationState): Epoch {
    var ordinal := NextOrdinal(db);
    Epoch(t, if session.Some? then session.value else Derived(provider, ordinal), provider, ordinal, state, false, None)
  }

  lemma OpenCommits(db: Db, t: Id, provider: Id, session: Option<SessionId>, external: Option<Id>,
      state: OperationState)
    ensures var e := NewEpoch(db, t, provider, session, state);
      OpenEpoch(db, t, provider, session, external, state)
      == if M.NoneOpen(db) && t !in db.epochs
         then Some(EnsureSession(db, e.session, provider, external).(epochs := db.epochs[t := e])) else None
  {
    hide PutEpoch, NextOrdinal;
    PutsNew(db, NewEpoch(db, t, provider, session, state));
  }

  lemma NewRows(db: Db, t: Id, provider: Id, session: Option<SessionId>, external: Option<Id>, state: OperationState)
    requires t !in db.epochs
    ensures var e := NewEpoch(db, t, provider, session, state);
      OpensEpoch(db, EnsureSession(db, e.session, provider, external).(epochs := db.epochs[t := e]), t, provider,
                 session, external, state)
  {
    hide NextOrdinal, Appended;
    Appends(db, NewEpoch(db, t, provider, session, state));
    assert t in db.epochs[t := NewEpoch(db, t, provider, session, state)];
  }

  lemma Appends(db: Db, e: Epoch)
    requires e.id !in db.epochs && e.ordinal == NextOrdinal(db)
    ensures Appended(db.epochs, db.epochs[e.id := e], e.id)
  {
    hide NextOrdinal;
    M.NextOrdinalExactly(db);
  }

  /** An epoch is opened if and only if none is open and its id is free. */
  lemma OpensExactly(db: Db, t: Id, provider: Id, session: Option<SessionId>, external: Option<Id>,
      state: OperationState)
    ensures var made := OpenEpoch(db, t, provider, session, external, state);
      && (made.Some? <==> M.NoneOpen(db) && t !in db.epochs)
      && (made.Some? ==> OpensEpoch(db, made.value, t, provider, session, external, state))
  {
    hide OpenEpoch, OpensEpoch, EnsureSession, NewEpoch, M.NoneOpen;
    OpenCommits(db, t, provider, session, external, state);
    if t !in db.epochs { NewRows(db, t, provider, session, external, state); }
  }

  /** Two steps of an activation left alone: with the fence open, no handoff under way and nobody in charge, the
      provider's start ends in a running epoch if no other is open; else nothing is written. */
  lemma ActivationEnds(w: World, t: Id, provider: Id, i: Input)
    requires Stands(w, t, SessionCall(Activate(provider)))
    ensures var after := Settle(w, t, i, 2).db;
      if w.db.fence.Open? && !w.db.Blocked() && Authoritative(w.db) == {} && M.NoneOpen(w.db) && t !in w.db.epochs
      then OpensEpoch(w.db, after, t, provider, None, i.external, Running) else after == w.db
  {
    hide StepFailover, StepHandoff, StepComplete, StepReconcile, StepRollback, StepRecovery, OpenEpoch, OpensEpoch,
        Authoritative, M.NoneOpen;
    OpensExactly(w.db, t, provider, None, i.external, Running);
    var v := Step(w, Advance(t, i));
    if t in v.calls {
      assert v == Goto(w, t, SessionCall(ActivateStarted(provider, i.external)));
      assert Settle(v, t, i, 1) == Settle(Step(v, Advance(t, i)), t, i, 0);
    } else { EndsSame(w, v, t, i, 2); }
  }

  // ----- Discovering -----

  type Sessions = map<SessionId, Session>

  /** The last row that `found` brings for this session, or the stored one. */
  function Latest(stored: Sessions, found: seq<(SessionId, Session)>, id: SessionId): Option<Session> {
    if found == [] then if id in stored then Some(stored[id]) else None
    else if found[|found| - 1].0 == id then Some(found[|found| - 1].1)
    else Latest(stored, found[..|found| - 1], id)
  }

  /** A session row may be replaced by one of the same provider that keeps a known external identity. */
  predicate MayReplace(known: Option<Session>, s: Session) {
    known.Some? ==>
      known.value.provider == s.provider && (known.value.external.None? || known.value.external == s.external)
  }

  /** Every session found may replace what is known of it by then. */
  predicate AllFit(stored: Sessions, found: seq<(SessionId, Session)>) {
    forall k | 0 <= k < |found| :: MayReplace(Latest(stored, found[..k], found[k].0), found[k].1)
  }

  /** The stored sessions with everything found. */
  ghost predicate Learned(stored: Sessions, found: seq<(SessionId, Session)>, after: Sessions) {
    forall id :: Latest(stored, found, id) == if id in after then Some(after[id]) else None
  }

  lemma AllFitStep(stored: Sessions, found: seq<(SessionId, Session)>)
    requires found != []
    ensures var most, last := found[..|found| - 1], found[|found| - 1];
      AllFit(stored, found) <==> AllFit(stored, most) && MayReplace(Latest(stored, most, last.0), last.1)
  {
    hide MayReplace, Latest;
    var most := found[..|found| - 1];
    assert forall k | 0 <= k < |most| :: most[..k] == found[..k] && most[k] == found[k];
  }

  lemma NothingFits(stored: Sessions)
    ensures AllFit(stored, [])
  {
  }

  lemma {:induction false} SavesExactly(db: Db, found: seq<(SessionId, Session)>)
    ensures SaveSessions(db, found).Some? <==> AllFit(db.sessions, found)
    ensures SaveSessions(db, found).Some? ==>
      var after := SaveSessions(db, found).value;
      after == db.(sessions := after.sessions) && Learned(db.sessions, found, after.sessions)
  {
    hide AllFit;
    if found == [] { NothingFits(db.sessions); }
    else {
      SavesExactly(db, found[..|found| - 1]);
      AllFitStep(db.sessions, found);
    }
  }

  lemma CommitStep(w: World, t: Id, op: Fence, i: Input)
    requires Stands(w, t, SessionCall(DiscoverHeld(op))) && w.db.fence == op
    ensures var u := Step(w, Advance(t, i));
      && Stands(u, t, SessionCall(DiscoverDone(op))) && u.db == w.db.(sessions := u.db.sessions)
      && (if i.flag && AllFit(w.db.sessions, i.sessions) then Learned(w.db.sessions, i.sessions, u.db.sessions)
          else u.db.sessions == w.db.sessions)
  {
    hide StepFailover, StepHandoff, StepComplete, StepReconcile, StepRollback, StepRecovery, SaveSessions, Learned,
        AllFit;
    SavesExactly(w.db, i.sessions);
    assert Step(w, Advance(t, i)) == StepDiscovery(w, t, op, i);
  }

  lemma HandBackStep(w: World, t: Id, op: Fence, i: Input)
    requires Stands(w, t, SessionCall(DiscoverDone(op))) && op.Fenced? && w.db.fence == op
    ensures Step(w, Advance(t, i)).db == w.db.(fence := Open(op.generation + 1))
  {
    hide StepFailover, StepHandoff, StepComplete, StepReconcile, StepRollback, StepRecovery;
  }

  lemma TakeStep(w: World, t: Id, i: Input)
    requires Stands(w, t, SessionCall(Discover))
    ensures var v, op := Step(w, Advance(t, i)), Fenced(w.db.fence.generation, t);
      if w.db.fence.Fenced? then v == End(w, t)
      else v.db == w.db.(fence := op) && Stands(v, t, SessionCall(DiscoverHeld(op)))
  {
    hide StepFailover, StepHandoff, StepComplete, StepReconcile, StepRollback, StepRecovery;
  }

  /** Three steps of a discovery left alone: with the fence held by another nothing happens; else the sessions found
      are stored, all of them or, when one does not fit, none, and the fence opens at the next generation either
      way. */
  lemma DiscoveryEnds(w: World, t: Id, i: Input)
    requires Stands(w, t, SessionCall(Discover))
    ensures var after := Settle(w, t, i, 3).db;
      if w.db.fence.Fenced? then after == w.db
      else
        && after == w.db.(fence := Open(w.db.fence.generation + 1), sessions := after.sessions)
        && (if i.flag && AllFit(w.db.sessions, i.sessions) then Learned(w.db.sessions, i.sessions, after.sessions)
            else after.sessions == w.db.sessions)
  {
    hide Step, StepCall, Learned, AllFit;
    var v := Step(w, Advance(t, i));
    TakeStep(w, t, i);
    if w.db.fence.Fenced? { EndsSame(w, v, t, i, 3); }
    else {
      CommitStep(v, t, v.db.fence, i);
      var u := Step(v, Advance(t, i));
      HandBackStep(u, t, v.db.fence, i);
      var z := Step(u, Advance(t, i));
      assert Settle(w, t, i, 3) == Settle(v, t, i, 2) == Settle(u, t, i, 1) == Settle(z, t, i, 0) == z;
    }
  }
}
