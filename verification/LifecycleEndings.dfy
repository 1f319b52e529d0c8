/** Exactly how an import answer, a reconciliation, a handoff and a rollback end, and every record they leave,
    from the rows of any state that some interleaving reaches. */
module LifecycleEndings {
  import opened Contracts
  import opened Fences
  import opened LifecycleStore
  import opened LifecycleRuns
  import opened LifecycleFence
  import opened LifecycleHistory
  import opened LifecycleSafety
  import opened LifecycleOrdinals
  import opened LifecycleSerial
  import opened LifecycleEvidence
  import R = LifecycleRaces
  import M = AgentManager
  import E = FailoverEvidence

  // ----- Reachable databases -----

  /** What every interleaving keeps of the rows. */
  ghost predicate Sane(db: Db, next: Id) {
    && DbOk(db, next) && EpochsOk(db.epochs) && AllEvident(db) && AllHomed(db)
    && forall p | p in db.packages :: Ordered(db.epochs, db.packages[p].outgoing, db.packages[p].incomingEpoch)
  }

  lemma ReachableIsSane(w: World)
    requires Reachable(w)
    ensures Sane(w.db, w.next)
  {
    hide DbOk, EpochsOk, AllEvident, AllHomed, CallOk;
  }

  /** Handoff `h` is under way, with its package and its two epochs. */
  predicate UnderWayHere(db: Db, h: Id) {
    && db.transition.Some? && db.transition.value.handoff == h && db.transition.value.incoming == h
    && IsBlocking(db.transition.value.state)
    && h in db.packages && db.packages[h].id == h && db.packages[h].owner == h && db.packages[h].incomingEpoch == h
    && db.packages[h].outgoing == db.transition.value.outgoing
    && db.fence == Fenced(db.packages[h].generation, h)
    && h in db.epochs && db.epochs[h].id == h && db.epochs[h].session == db.packages[h].incomingSession
    && db.epochs[h].provider == db.packages[h].provider
    && db.packages[h].outgoing in db.epochs && db.packages[h].outgoing != h
  }

  lemma HandoffIsUnderWay(db: Db, next: Id, h: Id)
    requires Sane(db, next) && M.Awaits(db, h)
    ensures UnderWayHere(db, h)
  {
    assert PackageOk(db, h) && Homed(db, db.packages[h]);
    assert Ordered(db.epochs, db.packages[h].outgoing, db.packages[h].incomingEpoch);
  }

  // ----- The answer to an import -----

  /** The provider accepted the import, and says so for exactly this handoff. */
  predicate AcceptsImport(db: Db, h: Id, r: Result)
    requires h in db.packages
  {
    && (r.state == Acknowledged || r.state == Running || r.state == Succeeded)
    && r.request == HandoffRequest(h) && r.instance == db.instance && r.provider == db.packages[h].provider
    && r.session == db.packages[h].incomingSession && r.epoch == h && r.external.Some?
  }

  predicate Storable(db: Db, r: Result) { r.id in db.results ==> db.results[r.id] == r }

  /** The session of the incoming epoch takes the external identity: it has none yet, or the same. */
  predicate SessionTakes(db: Db, session: SessionId, external: Option<Id>) {
    session in db.sessions && (db.sessions[session].external.None? || db.sessions[session].external == external)
  }

  /** The records of an acknowledged import. */
  function AcknowledgedRows(db: Db, h: Id, r: Result): Db
    requires h in db.packages && db.packages[h].incomingSession in db.sessions && db.transition.Some?
  {
    var s := db.packages[h].incomingSession;
    db.(results := db.results[r.id := r], sessions := db.sessions[s := db.sessions[s].(external := r.external)],
        packages := db.packages[h := db.packages[h].(status := PkgImportAcknowledged, importResult := Some(r.id),
                                                     external := r.external)],
        transition := Some(db.transition.value.(state := ImportAcknowledged)))
  }

  /** The records once it is promoted: the outgoing epoch closed and replaced, the incoming one running, the
      transition completed, the fence open at the next generation. */
  function PromotedRows(db: Db, h: Id): Db
    requires h in db.packages && db.transition.Some? && h in db.epochs && db.packages[h].outgoing in db.epochs
  {
    var o := db.packages[h].outgoing;
    db.(epochs := db.epochs[o := db.epochs[o].(state := Succeeded, closed := true, replacement := Some(h))]
                           [h := db.epochs[h].(state := Running)],
        packages := db.packages[h := db.packages[h].(status := PkgAcknowledged)],
        transition := Some(db.transition.value.(state := Completed)),
        fence := Open(db.packages[h].generation + 1))
  }

  /** The records of a refused import; a reconciliation also closes the incoming epoch. */
  function RefusedRows(db: Db, h: Id, r: Result, quarantine: bool): Db
    requires h in db.packages && h in db.epochs && db.transition.Some?
  {
    db.(results := db.results[r.id := r],
        epochs := db.epochs[h :=
            db.epochs[h].(state := if quarantine then Quarantined else OpBlocked, closed := quarantine)],
        packages := db.packages[h := db.packages[h].(status := if quarantine then PkgQuarantined else PkgBlocked)],
        transition := Some(db.transition.value.(state := HandoffFailed)))
  }

  predicate AwaitsAnswer(db: Db, h: Id) {
    UnderWayHere(db, h) && (db.transition.value.state == Importing || db.transition.value.state == Reconciling)
  }

  lemma AcceptedIs(db: Db, h: Id, r: Result)
    requires UnderWayHere(db, h)
    ensures ImportAccepted(db, db.packages[h], db.epochs[h], r) <==> AcceptsImport(db, h, r)
  {
  }

  lemma AcknowledgeCommits(db: Db, h: Id, r: Result)
    requires AwaitsAnswer(db, h)
    ensures AcknowledgeImport(db, db.packages[h], db.epochs[h], r)
      == if Storable(db, r) && SessionTakes(db, db.packages[h].incomingSession, r.external)
         then Some(AcknowledgedRows(db, h, r)) else None
  {
    var s := db.packages[h].incomingSession;
    if Storable(db, r) && s in db.sessions {
      var a := SaveResult(db, r).value;
      assert a == db.(results := db.results[r.id := r]);
    }
  }

  lemma SaveAnyState(epochs: Epochs, e: Id, to: Epoch)
    requires EpochsOk(epochs) && e in epochs && to.id == e && to.ordinal == epochs[e].ordinal
    requires to.session == epochs[e].session && to.provider == epochs[e].provider
    ensures PutEpoch(epochs, to) == Some(epochs[e := to])
  {
  }

  lemma RefuseCommits(db: Db, h: Id, r: Result, quarantine: bool)
    requires AwaitsAnswer(db, h) && EpochsOk(db.epochs)
    ensures FailHandoff(db, db.packages[h], db.epochs[h], r, quarantine)
      == if Storable(db, r) then Some(RefusedRows(db, h, r, quarantine)) else None
  {
    hide EpochsOk;
    SaveAnyState(db.epochs, h,
        db.epochs[h].(state := if quarantine then Quarantined else OpBlocked, closed := quarantine));
  }

  lemma PromoteRows(db: Db, h: Id)
    requires UnderWayHere(db, h) && EpochsOk(db.epochs) && db.transition.value.state == ImportAcknowledged
    ensures PromoteStored(db, h) == Some(PromotedRows(db, h))
  {
    hide EpochsOk, Promote;
    var o, after := db.packages[h].outgoing, PromotedRows(db, h);
    R.ReplaceCommits(db.epochs, o, db.epochs[o].(state := Succeeded, closed := true, replacement := Some(h)),
        db.epochs[h].(state := Running));
    SameId(db.epochs, o);
    R.PromoteStepwise(db, db.packages[h], db.transition.value, db.epochs[h], db.epochs[o], after.epochs);
  }

  lemma SameId(epochs: Epochs, e: Id)
    requires EpochsOk(epochs) && e in epochs
    ensures epochs[e].id == e
  {
  }

  /** However the provider answers an import that is awaited: it is acknowledged and promoted if the answer
      accepts it and can be stored, refused if the answer does not and can be stored; otherwise nothing
      is written. */
  lemma AnswerEnds(db: Db, h: Id, r: Result, quarantine: bool)
    requires AwaitsAnswer(db, h) && EpochsOk(db.epochs)
    ensures M.Completion(db, db.packages[h], db.epochs[h], r, quarantine)
      == if !Storable(db, r) then (db, M.Raised)
         else if !AcceptsImport(db, h, r) then (RefusedRows(db, h, r, quarantine), M.HandoffRefused)
         else if !SessionTakes(db, db.packages[h].incomingSession, r.external) then (db, M.Raised)
         else (PromotedRows(AcknowledgedRows(db, h, r), h), M.Done)
  {
    hide EpochsOk, AcknowledgeImport, FailHandoff, ImportAccepted, M.Promotion;
    AcceptedIs(db, h, r);
    AcknowledgeCommits(db, h, r);
    RefuseCommits(db, h, r, quarantine);
    if AcceptsImport(db, h, r) && Storable(db, r) && SessionTakes(db, db.packages[h].incomingSession, r.external) {
      AcknowledgedPromotes(db, h, r);
    }
  }

  lemma AcknowledgedPromotes(db: Db, h: Id, r: Result)
    requires AwaitsAnswer(db, h) && EpochsOk(db.epochs) && AcceptsImport(db, h, r)
    requires db.packages[h].incomingSession in db.sessions
    ensures UnderWayHere(AcknowledgedRows(db, h, r), h)
    ensures M.Promotion(AcknowledgedRows(db, h, r), h) == Some(PromotedRows(AcknowledgedRows(db, h, r), h))
  {
    hide EpochsOk, Promote;
    PromoteRows(AcknowledgedRows(db, h, r), h);
  }

  // ----- Reconciling -----

  /** The records of a reopened handoff. */
  function ReopenedRows(db: Db, h: Id): Db
    requires h in db.packages && db.transition.Some?
  {
    db.(transition := Some(db.transition.value.(state := LifecycleStore.Reconciling)),
        packages := db.packages[h := db.packages[h].(status := PkgReconciling)])
  }

  lemma ReopenCommits(db: Db, h: Id)
    requires UnderWayHere(db, h) && db.transition.value.state != ImportAcknowledged
    ensures StartReconcile(db, db.packages[h], db.transition.value) == Some(ReopenedRows(db, h))
    ensures AwaitsAnswer(ReopenedRows(db, h), h)
  {
  }

  /** In every state of every interleaving, reconciling a handoff under way that is not acknowledged ends as
      the answer says, once the handoff is reopened; without an answer, or with the incoming epoch closed,
      it raises and writes nothing. */
  lemma ReconciliationEnds(w: World, h: Id, answer: Option<Result>)
    requires Reachable(w) && M.Awaits(w.db, h) && w.db.transition.value.state != ImportAcknowledged
    ensures UnderWayHere(w.db, h)
    ensures M.Reconciliation(w.db, h, answer)
      == if w.db.epochs[h].closed || answer.None? then (w.db, M.Raised)
         else
           var db, r := ReopenedRows(w.db, h), answer.value;
           if !Storable(db, r) then (db, M.Raised)
           else if !AcceptsImport(db, h, r) then (RefusedRows(db, h, r, true), M.HandoffRefused)
           else if !SessionTakes(db, db.packages[h].incomingSession, r.external) then (db, M.Raised)
           else (PromotedRows(AcknowledgedRows(db, h, r), h), M.Done)
  {
    hide EpochsOk, M.Completion, StartReconcile, Reachable, DbOk, AllEvident, AllHomed, AcceptsImport, RefusedRows,
        PromotedRows, AcknowledgedRows;
    ReachableIsSane(w);
    HandoffIsUnderWay(w.db, w.next, h);
    ReopenCommits(w.db, h);
    if answer.Some? { AnswerEnds(ReopenedRows(w.db, h), h, answer.value, true); }
  }

  // ----- Rolling back -----

  /** The epochs that a rollback leaves. */
  function UndoneEpochs(epochs: Epochs, h: Id, o: Id): Epochs
    requires h in epochs && o in epochs
  {
    (if epochs[h].closed then epochs else epochs[h := epochs[h].(state := Cancelled, closed := true)])
      [o := epochs[o].(state := Running)]
  }

  /** The records of a handoff that was undone: the incoming epoch closed as cancelled unless it already was,
      the outgoing one running, the fence open at the next generation. */
  function UndoneRows(db: Db, h: Id): Db
    requires h in db.packages && db.transition.Some? && h in db.epochs && db.packages[h].outgoing in db.epochs
  {
    db.(epochs := UndoneEpochs(db.epochs, h, db.packages[h].outgoing),
        packages := db.packages[h := db.packages[h].(status := PkgRolledBack)],
        transition := Some(db.transition.value.(state := RolledBack)),
        fence := Open(db.packages[h].generation + 1))
  }

  /** The records of a handoff whose undoing was given up: the incoming epoch blocked, nothing released. */
  function GivenUpRows(db: Db, h: Id): Db
    requires h in db.packages && db.transition.Some? && h in db.epochs
  {
    db.(epochs := db.epochs[h := db.epochs[h].(state := OpBlocked)],
        packages := db.packages[h := db.packages[h].(status := PkgRollbackBlocked)],
        transition := Some(db.transition.value.(state := HandoffFailed)))
  }

  lemma UndoEpochs(epochs: Epochs, h: Id, o: Id)
    requires EpochsOk(epochs) && h in epochs && o in epochs && h != o
    ensures PutEpoch(epochs, epochs[o].(state := Running)) == Some(epochs[o := epochs[o].(state := Running)])
    ensures var closed := epochs[h := epochs[h].(state := Cancelled, closed := true)];
      && PutEpoch(epochs, epochs[h].(state := Cancelled, closed := true)) == Some(closed)
      && PutEpoch(closed, epochs[o].(state := Running)) == Some(closed[o := epochs[o].(state := Running)])
  {
  }

  lemma UndoStepwise(db: Db, p: Package, tr: Transition, incoming: Epoch, outgoing: Epoch, after: Epochs)
    requires p.id in db.packages && db.packages[p.id] == p && db.transition == Some(tr) && IsBlocking(tr.state)
    requires db.fence.Fenced?
    requires var a := if incoming.closed then Some(db.epochs)
                      else PutEpoch(db.epochs, incoming.(state := Cancelled, closed := true));
      a.Some? && PutEpoch(a.value, outgoing.(state := Running)) == Some(after)
    ensures RollBack(db, p, tr, incoming, outgoing, db.fence)
      == Some(db.(epochs := after, packages := db.packages[p.id := p.(status := PkgRolledBack)],
                  transition := Some(tr.(state := RolledBack)), fence := Open(db.fence.generation + 1)))
  {
    hide PutEpoch;
  }

  lemma UndoCommits(db: Db, h: Id)
    requires UnderWayHere(db, h) && EpochsOk(db.epochs)
    ensures RollBack(db, db.packages[h], db.transition.value, db.epochs[h], db.epochs[db.packages[h].outgoing],
        db.fence)
      == Some(UndoneRows(db, h))
  {
    hide EpochsOk, PutEpoch, RollBack;
    var o := db.packages[h].outgoing;
    UndoEpochs(db.epochs, h, o);
    UndoStepwise(db, db.packages[h], db.transition.value, db.epochs[h], db.epochs[o], UndoneEpochs(db.epochs, h, o));
  }

  lemma GiveUpCommits(db: Db, h: Id)
    requires UnderWayHere(db, h) && EpochsOk(db.epochs)
    ensures BlockRollback(db, db.packages[h], db.transition.value, db.epochs[h]) == Some(GivenUpRows(db, h))
  {
    hide EpochsOk, PutEpoch;
    SaveAnyState(db.epochs, h, db.epochs[h].(state := OpBlocked));
  }

  /** The checks of a rollback on the incoming session pass exactly when the package carries its evidence. */
  lemma EvidenceIsDurable(db: Db, next: Id, h: Id)
    requires Sane(db, next) && UnderWayHere(db, h)
    ensures SessionBound(db, db.packages[h], db.epochs[h]) && DurablyAcknowledged(db, db.packages[h], db.epochs[h])
      <==> db.packages[h].importResult.Some?
  {
    assert Evident(db, db.packages[h]);
  }

  /** In every state of every interleaving, rolling back a handoff under way: with the outgoing epoch closed it
      raises and writes nothing; with evidence of the import and a verified cancellation the handoff is
      undone; otherwise undoing it is given up. */
  lemma RollbackEnds(w: World, h: Id, verified: bool)
    requires Reachable(w) && M.Awaits(w.db, h)
    ensures UnderWayHere(w.db, h)
    ensures M.Rollback(w.db, h, verified)
      == if w.db.epochs[w.db.packages[h].outgoing].closed then (w.db, M.Raised)
         else if w.db.packages[h].importResult.Some? && verified then (UndoneRows(w.db, h), M.Done)
         else (GivenUpRows(w.db, h), M.HandoffRefused)
  {
    hide EpochsOk, Reachable, DbOk, AllEvident, AllHomed, RollBack, BlockRollback, SessionBound, DurablyAcknowledged,
        UndoneRows, GivenUpRows;
    ReachableIsSane(w);
    HandoffIsUnderWay(w.db, w.next, h);
    UndoCommits(w.db, h);
    GiveUpCommits(w.db, h);
    EvidenceIsDurable(w.db, w.next, h);
  }

  // ----- Handing off -----

  /** A handoff opened the epoch, and it has not been put in charge: it is queued, blocked or quarantined. */
  predicate StillWaits(db: Db, e: Id)
    requires e in db.epochs
  {
    && (exists p | p in db.packages :: db.packages[p].incomingEpoch == e)
    && (db.epochs[e].state == Queued || db.epochs[e].state == OpBlocked || db.epochs[e].state == Quarantined)
  }

  /** The epoch is open and in charge; every other open one waits. */
  predicate AloneInCharge(db: Db, e: Id) {
    && e in db.epochs && !db.epochs[e].closed && !StillWaits(db, e)
    && forall x | x in db.epochs && x != e && !db.epochs[x].closed :: StillWaits(db, x)
  }

  lemma ChargeIs(db: Db)
    ensures forall e: Id :: AloneInCharge(db, e) <==> e in db.epochs && Authoritative(db) == {e}
  {
    forall x | x in db.epochs ensures x in Authoritative(db) <==> !db.epochs[x].closed && !StillWaits(db, x) {
      assert x in IncomingIds(db) <==> exists p | p in db.packages :: db.packages[p].incomingEpoch == x;
    }
    hide Authoritative;
    forall e: Id ensures AloneInCharge(db, e) <==> e in db.epochs && Authoritative(db) == {e} {
      if AloneInCharge(db, e) { assert forall x | x in Authoritative(db) :: x in db.epochs by { FromEpochs(db); } }
      if e in db.epochs && Authoritative(db) == {e} {
        forall x | x in db.epochs && x != e && !db.epochs[x].closed ensures StillWaits(db, x) {
          assert x !in Authoritative(db);
        }
      }
    }
  }

  lemma FromEpochs(db: Db)
    ensures forall x | x in Authoritative(db) :: x in db.epochs
  {
  }

  /** Exactly this epoch is authoritative, and it takes dispatches. */
  predicate ActiveAlone(db: Db, e: Id) {
    && AloneInCharge(db, e)
    && (db.epochs[e].state == Acknowledged || db.epochs[e].state == Running || db.epochs[e].state == Succeeded)
  }

  /** The records of the import of handoff `t` from epoch `o`, under the fence of generation `g`: an epoch
      behind all others, on a session of that ordinal, waiting; and the package and transition between the
      two epochs. */
  function ImportedRows(db: Db, t: Id, provider: Id, o: Id): Db {
    var ordinal := NextOrdinal(db);
    var session := Derived(provider, ordinal);
    db.(sessions := if session in db.sessions then db.sessions else db.sessions[session := Session(provider, None)],
        epochs := db.epochs[t := Epoch(t, session, provider, ordinal, Queued, false, None)],
        packages := db.packages[t :=
            Package(t, o, provider, t, session, db.fence.generation, t, PkgImporting, None, None)],
        transition := Some(Transition(t, o, t, Importing)))
  }

  lemma NewEpochPuts(db: Db, e: Epoch)
    requires e.ordinal == NextOrdinal(db)
    ensures PutEpoch(db.epochs, e) == if e.id in db.epochs then None else Some(db.epochs[e.id := e])
  {
    NextIsNew(db);
  }

  lemma ImportCommits(db: Db, t: Id, provider: Id, outgoing: Epoch)
    requires !db.Blocked() && t !in db.packages && db.fence.Fenced? && db.fence.owner == t
    ensures StartImport(db, t, provider, db.fence, outgoing)
      == if t in db.epochs then None else Some(ImportedRows(db, t, provider, outgoing.id))
  {
    hide PutEpoch;
    NewEpochPuts(db, IncomingEpoch(db, t, provider));
  }

  lemma ImportAwaits(db: Db, t: Id, provider: Id, o: Id)
    requires EpochsOk(db.epochs) && t !in db.epochs && o in db.epochs && db.fence.Fenced? && db.fence.owner == t
    ensures AwaitsAnswer(ImportedRows(db, t, provider, o), t)
    ensures EpochsOk(ImportedRows(db, t, provider, o).epochs)
  {
    NewEpochPuts(db, IncomingEpoch(db, t, provider));
    SaveNewKeeps(db, IncomingEpoch(db, t, provider));
  }

  /** How the import of handoff `t` ends. */
  function ImportEnds(db: Db, t: Id, provider: Id, o: Id, r: Result): (Db, M.Ending)
    requires o in db.epochs
  {
    if t in db.epochs then (db, M.Raised)
    else
      var imported := ImportedRows(db, t, provider, o);
      if !Storable(imported, r) then (imported, M.Raised)
      else if !AcceptsImport(imported, t, r) then (RefusedRows(imported, t, r, false), M.HandoffRefused)
      else if !SessionTakes(imported, imported.packages[t].incomingSession, r.external) then (imported, M.Raised)
      else (PromotedRows(AcknowledgedRows(imported, t, r), t), M.Done)
  }

  lemma ImportHere(db: Db, t: Id, provider: Id, outgoing: Epoch, r: Result)
    requires EpochsOk(db.epochs) && !db.Blocked() && t !in db.packages && outgoing.id in db.epochs
    requires db.fence.Fenced? && db.fence.owner == t
    ensures M.Import(db, t, provider, db.fence, outgoing, r) == ImportEnds(db, t, provider, outgoing.id, r)
  {
    hide EpochsOk, StartImport, M.Completion, AcceptsImport, Storable, SessionTakes, RefusedRows, PromotedRows,
        AcknowledgedRows;
    ImportCommits(db, t, provider, outgoing);
    if t !in db.epochs {
      ImportAwaits(db, t, provider, outgoing.id);
      AnswerEnds(ImportedRows(db, t, provider, outgoing.id), t, r, false);
    }
  }

  lemma ActiveIs(db: Db, e: Id)
    requires ActiveAlone(db, e) && EpochsOk(db.epochs)
    ensures M.ActiveEpoch(db) == Some(db.epochs[e]) && db.epochs[e].id == e
  {
    hide AloneInCharge, Authoritative;
    ChargeIs(db);
    forall x | x in db.epochs && Authoritative(db) == {x} ensures x == e { assert x in {e}; }
  }

  /** In every state of every interleaving, a manual handoff that is left alone: refused at the door under a
      transition, a held fence, or without exactly one active epoch that takes dispatches; with an unusable
      checkpoint it raises and keeps the fence it took; otherwise its import ends as the answer says. */
  lemma HandoffEnds(w: World, t: Id, provider: Id, usable: bool, r: Result)
    requires Reachable(w) && w.next <= t
    ensures M.Handoff(w.db, t, provider, None, usable, r)
      == if w.db.Blocked() || w.db.fence.Fenced? then (w.db, M.Raised)
         else if e :| ActiveAlone(w.db, e) then
           var held := w.db.(fence := Fenced(w.db.fence.generation, t));
           if usable then ImportEnds(held, t, provider, e, r) else (held, M.Raised)
         else (w.db, M.Raised)
  {
    hide EpochsOk, Reachable, DbOk, AllEvident, AllHomed, M.Import, ImportEnds, Authoritative;
    ReachableIsSane(w);
    NoPackage(w.db, w.next, t);
    if w.db.Blocked() || w.db.fence.Fenced? {
    } else if e :| ActiveAlone(w.db, e) {
      OnlyActive(w.db, e);
      ActiveIs(w.db, e);
      ImportHere(w.db.(fence := Fenced(w.db.fence.generation, t)), t, provider, w.db.epochs[e], r);
    } else { NoneActive(w.db); }
  }

  lemma OnlyActive(db: Db, e: Id)
    requires ActiveAlone(db, e)
    ensures forall x | ActiveAlone(db, x) :: x == e
  {
    hide AloneInCharge, Authoritative;
    ChargeIs(db);
    forall x | ActiveAlone(db, x) ensures x == e { assert x in {e}; }
  }

  lemma NoneActive(db: Db)
    requires !exists e :: ActiveAlone(db, e)
    ensures M.ActiveEpoch(db).None? || !IsAcknowledged(M.ActiveEpoch(db).value.state)
  {
    hide AloneInCharge, Authoritative;
    ChargeIs(db);
    if e :| e in db.epochs && Authoritative(db) == {e} {
      forall x | x in db.epochs && Authoritative(db) == {x} ensures x == e { assert x in {e}; }
      assert !ActiveAlone(db, e);
    }
  }

  lemma NoPackage(db: Db, next: Id, t: Id)
    requires DbOk(db, next) && next <= t
    ensures t !in db.packages && t !in db.executions
  {
  }

  // ----- Failing over -----

  /** Asking again about decision `d` on this evidence, with `e` the only authoritative epoch, finds the same in
      everything but the two times. */
  predicate Confirms(db: Db, id: Id, d: E.Decision, evidence: E.Evidence, now: int, e: Id) {
    && AloneInCharge(db, e)
    && var outgoing := E.EpochRef(e, db.epochs[e].session, db.epochs[e].provider);
    && var found := E.Evaluate(E.Query(id, db.instance, outgoing, db.fence.generation, evidence, now,
                                       db.fence.Fenced? || db.Blocked()));
    && found.Decided?
    && d == found.decision.(evaluatedAt := d.evaluatedAt, expiresAt := d.expiresAt)
  }

  /** The records of an execution by call `t`: the fence taken, the decision used up, and the execution bound to
      the epoch and its session and provider, the checkpoint and the generation. */
  function ExecutedRows(db: Db, t: Id, id: Id, e: Id): Db
    requires id in db.decisions && e in db.epochs
  {
    var g := db.fence.generation;
    db.(fence := Fenced(g, t), decisions := db.decisions[id := db.decisions[id].(consumed := true)],
        executions := db.executions[t :=
            Execution(t, id, e, db.epochs[e].session, db.epochs[e].provider, db.decisions[id].decision.checkpoint, g,
                      t, ExReserved, None)])
  }

  lemma ConfirmedIs(db: Db, id: Id, d: E.Decision, evidence: E.Evidence, now: int, e: Id)
    requires EpochsOk(db.epochs) && e in db.epochs && Authoritative(db) == {e}
    ensures Confirms(db, id, d, evidence, now, e)
        <==> var found := EvaluateFailover(db, id, evidence, now);
             found.Some? && found.value.Decided? && SameFindings(d, found.value.decision)
    ensures Confirms(db, id, d, evidence, now, e) ==>
      d.outgoingEpoch == e && d.outgoingProvider == db.epochs[e].provider
  {
    hide Authoritative, AloneInCharge;
    ChargeIs(db);
    forall x | x in db.epochs && Authoritative(db) == {x} ensures x == e { assert x in {e}; }
  }

  /** Executing a decision commits exactly when it is stored as it was read and unused, the fence is open, asking
      again confirms it, and it has not expired by then. */
  lemma ExecutesExactly(db: Db, t: Id, id: Id, original: DecisionRow, evidence: E.Evidence, now: int, later: int)
    requires EpochsOk(db.epochs)
    ensures ExecuteFailover(db, t, id, original, evidence, now, later)
      == if id in db.decisions && db.decisions[id] == original && !original.consumed && db.fence.Open?
            && later < original.decision.expiresAt && t !in db.executions
         then
           if e :| Confirms(db, id, original.decision, evidence, now, e) then Some(ExecutedRows(db, t, id, e)) else None
         else None
  {
    hide Authoritative, EvaluateFailover, SameFindings, Confirms;
    if e :| e in db.epochs && Authoritative(db) == {e} {
      forall x | x in db.epochs && Authoritative(db) == {x} ensures x == e { assert x in {e}; }
      ConfirmedIs(db, id, original.decision, evidence, now, e);
      OnlyConfirmed(db, id, original.decision, evidence, now, e);
    } else {
      NeverConfirmed(db, id, original.decision, evidence, now);
    }
  }

  lemma OnlyConfirmed(db: Db, id: Id, d: E.Decision, evidence: E.Evidence, now: int, e: Id)
    requires Authoritative(db) == {e}
    ensures forall x | Confirms(db, id, d, evidence, now, x) :: x == e
  {
    hide Authoritative, AloneInCharge;
    ChargeIs(db);
    forall x | Confirms(db, id, d, evidence, now, x) ensures x == e { assert x in {e}; }
  }

  lemma NeverConfirmed(db: Db, id: Id, d: E.Decision, evidence: E.Evidence, now: int)
    requires !exists e :: e in db.epochs && Authoritative(db) == {e}
    ensures EvaluateFailover(db, id, evidence, now).None?
    ensures !exists e :: Confirms(db, id, d, evidence, now, e)
  {
    hide Authoritative, AloneInCharge;
    ChargeIs(db);
  }

  /** A decision that is stored for this instance, allowed, unused and unexpired, and names a provider. */
  predicate MayExecute(db: Db, d: Id, now: int) {
    && d in db.decisions && db.decisions[d].decision.instance == db.instance && db.decisions[d].decision.allowed
    && !db.decisions[d].consumed && now < db.decisions[d].decision.expiresAt
    && db.decisions[d].decision.incoming.Some?
  }

  function WithState(db: Db, t: Id, state: ExecutionState): Db
    requires t in db.executions
  {
    db.(executions := db.executions[t := db.executions[t].(state := state)])
  }

  /** How a failover goes on once its execution is reserved: it stays reserved if the epoch takes no dispatches,
      is blocked before the import if the checkpoint is unusable, and else its import ends as answered. */
  function FailoverGoes(db: Db, t: Id, provider: Id, e: Id, usable: bool, r: Result): (Db, M.Ending)
    requires t in db.executions && e in db.epochs
  {
    if !(db.epochs[e].state == Acknowledged || db.epochs[e].state == Running || db.epochs[e].state == Succeeded)
    then (db, M.Raised)
    else if !usable then (WithState(db, t, BlockedPreimport), M.Raised)
    else ImportEnds(WithState(db, t, TransitionStarted), t, provider, e, r)
  }

  lemma UnderGoes(db: Db, t: Id, provider: Id, e: Id, usable: bool, r: Result)
    requires EpochsOk(db.epochs) && !db.Blocked() && t !in db.packages && e in db.epochs
    requires db.fence == Fenced(db.fence.generation, t)
    requires t in db.executions && db.executions[t].state == ExReserved && db.executions[t].resume.None?
    ensures M.HandoffUnder(db, t, provider, db.fence, true, db.epochs[e], usable, r)
      == if usable then ImportEnds(WithState(db, t, TransitionStarted), t, provider, e, r)
         else (WithState(db, t, BlockedPreimport), M.Raised)
  {
    hide EpochsOk, M.Import, ImportEnds;
    var draining := WithState(db, t, Draining);
    assert MoveExecution(db, t, ExReserved, Draining, None) == Some(draining);
    assert draining.executions[t := draining.executions[t].(state := TransitionStarted)]
      == db.executions[t := db.executions[t].(state := TransitionStarted)];
    assert draining.executions[t := draining.executions[t].(state := BlockedPreimport)]
      == db.executions[t := db.executions[t].(state := BlockedPreimport)];
    SameId(db.epochs, e);
    if usable { ImportHere(WithState(db, t, TransitionStarted), t, provider, db.epochs[e], r); }
  }

  lemma GoesHere(db: Db, t: Id, provider: Id, e: Id, usable: bool, r: Result)
    requires EpochsOk(db.epochs) && !db.Blocked() && t !in db.packages && e in db.epochs && Authoritative(db) == {e}
    requires db.fence == Fenced(db.fence.generation, t)
    requires t in db.executions && db.executions[t].state == ExReserved && db.executions[t].resume.None?
    ensures M.Handoff(db, t, provider, Some(db.fence), usable, r) == FailoverGoes(db, t, provider, e, usable, r)
  {
    hide EpochsOk, M.HandoffUnder, ImportEnds, Authoritative;
    forall x | x in db.epochs && Authoritative(db) == {x} ensures x == e { assert x in {e}; }
    UnderGoes(db, t, provider, e, usable, r);
  }

  /** In every state of every interleaving, executing a failover decision that is left alone: refused with nothing
      written unless the decision may be executed and asking again confirms it; otherwise its execution is
      recorded, and the handoff goes on under its reservation. */
  lemma FailoverEnds(w: World, t: Id, d: Id, c: M.Circumstances)
    requires Reachable(w) && w.next <= t && c.evidence.Valid()
    ensures M.FailoverExecution(w.db, t, d, c)
      == if MayExecute(w.db, d, c.now) && w.db.fence.Open? && c.later < w.db.decisions[d].decision.expiresAt then
           if e :| Confirms(w.db, d, w.db.decisions[d].decision, c.evidence, c.again, e) then
             FailoverGoes(ExecutedRows(w.db, t, d, e), t, w.db.decisions[d].decision.incoming.value, e, c.usable,
                          c.result)
           else (w.db, M.Raised)
         else (w.db, M.Raised)
  {
    hide EpochsOk, Reachable, DbOk, AllEvident, AllHomed, ExecuteFailover, M.Handoff, FailoverGoes, Confirms;
    ReachableIsSane(w);
    NoPackage(w.db, w.next, t);
    if MayExecute(w.db, d, c.now) {
      var original := w.db.decisions[d];
      ExecutesExactly(w.db, t, d, original, c.evidence, c.again, c.later);
      if e :| Confirms(w.db, d, original.decision, c.evidence, c.again, e) {
        ConfirmsOnly(w.db, d, original.decision, c.evidence, c.again, e);
        if w.db.fence.Open? { ConfirmedGoes(w.db, w.next, t, d, c, e); }
      }
    }
  }

  lemma ConfirmsOnly(db: Db, id: Id, d: E.Decision, evidence: E.Evidence, now: int, e: Id)
    requires Confirms(db, id, d, evidence, now, e)
    ensures forall x | Confirms(db, id, d, evidence, now, x) :: x == e
  {
    hide Authoritative, AloneInCharge;
    ChargeIs(db);
    OnlyConfirmed(db, id, d, evidence, now, e);
  }

  /** A confirmed decision finds no handoff under way. */
  lemma ConfirmedUnblocked(db: Db, id: Id, d: E.Decision, evidence: E.Evidence, now: int, e: Id)
    requires Confirms(db, id, d, evidence, now, e) && d.allowed && evidence.Valid()
    ensures !db.Blocked() && e in db.epochs && Authoritative(db) == {e}
  {
    hide Authoritative, AloneInCharge;
    ChargeIs(db);
    E.AllowsExactly(E.Query(id, db.instance, E.EpochRef(e, db.epochs[e].session, db.epochs[e].provider),
        db.fence.generation, evidence, now, db.fence.Fenced? || db.Blocked()));
  }

  lemma ConfirmedGoes(db: Db, next: Id, t: Id, d: Id, c: M.Circumstances, e: Id)
    requires EpochsOk(db.epochs) && DbOk(db, next) && next <= t && c.evidence.Valid() && MayExecute(db, d, c.now)
    requires Confirms(db, d, db.decisions[d].decision, c.evidence, c.again, e)
    ensures e in db.epochs
    ensures var executed, provider := ExecutedRows(db, t, d, e), db.decisions[d].decision.incoming.value;
      M.Handoff(executed, t, provider, Some(executed.fence), c.usable, c.result)
        == FailoverGoes(executed, t, provider, e, c.usable, c.result)
  {
    hide EpochsOk, DbOk, M.Handoff, FailoverGoes, Confirms;
    ConfirmedUnblocked(db, d, db.decisions[d].decision, c.evidence, c.again, e);
    NoPackage(db, next, t);
    GoesHere(ExecutedRows(db, t, d, e), t, db.decisions[d].decision.incoming.value, e, c.usable, c.result);
  }
}
