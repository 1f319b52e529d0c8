/** Exactly when recovering a failover execution ends, in every state of every interleaving: a reserved, a
    draining, a blocked, a started and a recorded one; and what a crash between recording and finalizing costs. */
module LifecycleRetry {
  import opened Contracts
  import opened Fences
  import opened LifecycleStore
  import opened LifecycleRuns
  import opened LifecycleFence
  import opened LifecycleHistory
  import opened LifecycleSafety
  import opened LifecycleOrdinals
  import opened LifecycleSerial
  import opened LifecycleEvidence
  import opened LifecycleAlone
  import opened LifecycleRecovery
  import M = AgentManager

  // ----- What the rows of a recoverable execution guarantee -----

  /** No epoch behind this one is open. */
  predicate NoneNewer(epochs: Epochs, outgoing: Id)
    requires outgoing in epochs
  {
    forall k | k in epochs && !epochs[k].closed :: epochs[k].ordinal <= epochs[outgoing].ordinal
  }

  /** An execution with its own row, whose fence is held and whose outgoing epoch is known. */
  predicate Ready(db: Db, e: Id) {
    && e in db.executions && db.executions[e].id == e
    && db.fence == Fenced(db.executions[e].generation, db.executions[e].owner) && !db.Blocked()
    && FromDecision(db, db.executions[e]) && ExecutionFits(db, e)
  }

  lemma RecoverableIsReady(w: World, e: Id)
    requires Accountable(w) && e in w.db.executions && IsRecoverable(w.db.executions[e].state)
    ensures Ready(w.db, e)
  {
    hide FromDecision, ExecutionFits;
    assert ExecutionOk(w.db, e);
    RecoverableIsUnblocked(w.db, e, w.next);
  }

  lemma BoundExactly(db: Db, e: Id)
    requires Ready(db, e)
    ensures M.OutgoingBound(db, db.executions[e]) <==> NoneNewer(db.epochs, db.executions[e].outgoing)
  {
    hide ExecutionFits;
  }

  /** Finalizing from a copy in the stored state commits. */
  lemma FinalizeCommits(db: Db, x: Execution, resume: Option<Id>)
    requires x.id in db.executions && db.executions[x.id].state == x.state && MayMove(x.state, Recovered)
    requires db.fence.Fenced?
    ensures FinalizeRecovery(db, x, db.fence, resume) == Some(Finished(db, x.id, resume))
  {
    FinalizeSome(db, x, resume);
    FinalizeWrites(db, x, db.fence, resume);
  }

  function Finished(db: Db, e: Id, resume: Option<Id>): Db
    requires e in db.executions && db.fence.Fenced?
  {
    db.(fence := Open(db.fence.generation + 1),
        executions := db.executions[e := db.executions[e].(state := Recovered, resume := resume)],
        attempts := if e in db.attempts && IsStarted(db.attempts[e].state)
                    then db.attempts[e := db.attempts[e].(state := Finalized)] else db.attempts)
  }

  lemma FinalizeSome(db: Db, x: Execution, resume: Option<Id>)
    requires x.id in db.executions && db.executions[x.id].state == x.state && MayMove(x.state, Recovered)
    requires db.fence.Fenced?
    ensures FinalizeRecovery(db, x, db.fence, resume).Some?
  {
  }

  lemma FinishingCommits(db: Db, e: Id, resume: Option<Id>, called: bool)
    requires e in db.executions && db.executions[e].id == e && MayMove(db.executions[e].state, Recovered)
    requires db.fence.Fenced?
    ensures M.Finishing(db, db.executions[e], db.fence, resume, called)
      == M.RecoveryRun(Finished(db, e, resume), M.Done, called)
  {
    hide FinalizeRecovery;
    FinalizeCommits(db, db.executions[e], resume);
  }

  // ----- One execution, state by state -----

  /** Nothing has been drained: the reservation is given back, whatever the provider would say. */
  lemma ReservedHere(db: Db, t: Id, e: Id, r: Result)
    requires Ready(db, e) && db.executions[e].state == ExReserved
    ensures var x := db.executions[e];
      M.FailoverRecovery(db, t, e, r)
        == if NoneNewer(db.epochs, x.outgoing)
           then M.RecoveryRun(db.(fence := Open(x.generation + 1),
                                  executions := db.executions[e := x.(state := Recovered)]), M.Done, false)
           else M.RecoveryRun(db, M.Raised, false)
  {
    hide M.OutgoingBound, FromDecision, NoneNewer, M.Finishing, M.Attempting;
    BoundExactly(db, e);
    FinishingCommits(db, e, None, false);
  }

  /** An interrupted drain: the provider is inspected, and its answer must speak for the outgoing epoch. */
  lemma DrainingHere(db: Db, t: Id, e: Id, r: Result)
    requires Ready(db, e) && db.executions[e].state == Draining
    ensures var x := db.executions[e];
      M.FailoverRecovery(db, t, e, r)
        == if NoneNewer(db.epochs, x.outgoing) && SpeaksFor(db, x, r) && (r.id in db.results ==> db.results[r.id] == r)
           then M.RecoveryRun(db.(fence := Open(x.generation + 1), results := db.results[r.id := r],
                                  executions := db.executions[e := x.(state := Recovered, resume := Some(r.id))]),
                              M.Done, false)
           else M.RecoveryRun(db, M.Raised, false)
  {
    hide M.OutgoingBound, FromDecision, NoneNewer, M.Finishing, M.Attempting, RecoveryValid, SpeaksFor;
    BoundExactly(db, e);
    ValidSpeaks(db, db.executions[e], r, None);
    if SaveResult(db, r).Some? { FinishingCommits(SaveResult(db, r).value, e, Some(r.id), false); }
  }

  /** What a retry does once the answer has been recorded. */
  predicate RetryTold(db: Db, t: Id, e: Id, r: Result)
    requires e in db.executions && e in db.attempts && db.executions[e].outgoing in db.epochs
  {
    var x, a := db.executions[e], db.attempts[e];
    && a.id in db.outcomes && db.outcomes[a.id].result in db.results
    && var kept := db.results[db.outcomes[a.id].result];
    M.FailoverRecovery(db, t, e, r)
      == if NoneNewer(db.epochs, x.outgoing) && (kept.recoveryEvidence.Some? ==> AnswersAttempt(kept, a.id))
         then M.RecoveryRun(db.(fence := Open(x.generation + 1),
                                executions := db.executions[e := x.(state := Recovered, resume := Some(kept.id))],
                                attempts := db.attempts[e := a.(state := Finalized)]), M.Done, false)
         else M.RecoveryRun(db, M.Raised, false)
  }

  /** The recorded outcome is replayed; only a stored answer that carries recovery evidence of something else
      than this attempt is refused. */
  lemma RecordedHere(db: Db, t: Id, e: Id, r: Result)
    requires Ready(db, e) && db.executions[e].state == Recovering
    requires e in db.attempts && db.attempts[e].state == ResultRecorded
    ensures RetryTold(db, t, e, r)
  {
    hide M.OutgoingBound, FromDecision, NoneNewer, M.Finishing, M.Answering, RecoveryValid, SpeaksFor;
    BoundExactly(db, e);
    var a := db.attempts[e];
    var kept := db.results[db.outcomes[a.id].result];
    ValidSpeaks(db, db.executions[e], kept, if kept.recoveryEvidence.Some? then Some(a.id) else None);
    FinishingCommits(db, e, Some(kept.id), false);
  }

  /** The provider has not answered yet: its recover is still to be called, or may have been. */
  predicate Unanswered(db: Db, e: Id) {
    && e in db.executions
    && (db.executions[e].state == BlockedPreimport
        || (db.executions[e].state == Recovering && e in db.attempts && !HasOutcome(db.attempts[e].state)))
  }

  /** The attempt of the execution, made now by call `t` if there is none. */
  function AttemptOf(db: Db, t: Id, e: Id): Attempt {
    if e in db.attempts then db.attempts[e] else Attempt(t, e, Pending)
  }

  /** The answer settles the attempt: it speaks for the outgoing epoch, answers the recover call if one is
      due, and is new. */
  predicate SettlesAttempt(db: Db, x: Execution, a: Attempt, r: Result) {
    SpeaksFor(db, x, r) && (a.state == Pending ==> AnswersAttempt(r, a.id)) && r.id !in db.results
  }

  /** The database once the attempt has been made and its call started. */
  function Started(db: Db, e: Id, a: Attempt): Db
    requires e in db.executions
  {
    db.(executions := db.executions[e := db.executions[e].(state := Recovering)],
        attempts := db.attempts[e := a.(state := ExternalStarted)])
  }

  /** The database once the answer has been recorded and the execution finalized. */
  function Settled(db: Db, e: Id, a: Attempt, r: Result): Db
    requires e in db.executions
  {
    db.(fence := Open(db.executions[e].generation + 1),
        executions := db.executions[e := db.executions[e].(state := Recovered, resume := Some(r.id))],
        attempts := db.attempts[e := a.(state := Finalized)],
        results := db.results[r.id := r],
        outcomes := db.outcomes[a.id := Outcome(r.id, r.request, r.state)])
  }

  /** An attempt whose call has started and whose outcome is missing, of an execution that holds the fence. */
  predicate Awaited(db: Db, e: Id, a: Id) {
    && e in db.executions && db.executions[e].id == e && db.executions[e].state == Recovering
    && db.fence == Fenced(db.executions[e].generation, db.executions[e].owner)
    && e in db.attempts && db.attempts[e].id == a && db.attempts[e].state == ExternalStarted && a !in db.outcomes
  }

  lemma RecordCommits(db: Db, e: Id, a: Id, r: Result)
    requires Awaited(db, e, a)
    ensures RecordRecovery(db, e, a, r)
      == if r.id in db.results then None
         else Some(db.(results := db.results[r.id := r],
           outcomes := db.outcomes[a := Outcome(r.id, r.request, r.state)],
                       attempts := db.attempts[e := db.attempts[e].(state := ResultRecorded)]))
  {
  }

  lemma AnsweringHere(db: Db, e: Id, a: Attempt, r: Result, called: bool)
    requires Awaited(db, e, a.id)
    ensures var x := db.executions[e];
      M.Answering(db, x, db.fence, a, r, called)
        == if SpeaksFor(db, x, r) && (called ==> AnswersAttempt(r, a.id)) && r.id !in db.results
           then M.RecoveryRun(Settled(db, e, db.attempts[e], r), M.Done, called)
           else M.RecoveryRun(db, M.Raised, called)
  {
    hide M.Finishing, RecoveryValid, SpeaksFor, RecordRecovery;
    var x := db.executions[e];
    ValidSpeaks(db, x, r, if called then Some(a.id) else None);
    RecordCommits(db, e, a.id, r);
    if r.id !in db.results {
      var recorded := RecordRecovery(db, e, a.id, r).value;
      FinishingCommits(recorded, e, Some(r.id), called);
      assert recorded.attempts[e := recorded.attempts[e].(state := Finalized)]
        == db.attempts[e := db.attempts[e].(state := Finalized)];
    }
  }

  lemma SameSpeaks(db: Db, after: Db, x: Execution, y: Execution, r: Result)
    requires after.instance == db.instance && after.sessions == db.sessions && SameExecution(x, y)
    ensures SpeaksFor(after, y, r) <==> SpeaksFor(db, x, r)
  {
  }

  /** Starting first changes nothing in the end. */
  lemma SettledAgain(db: Db, e: Id, a: Attempt, r: Result)
    requires e in db.executions
    ensures Settled(Started(db, e, a), e, a.(state := ExternalStarted), r) == Settled(db, e, a, r)
  {
    var started, done := Started(db, e, a), Settled(db, e, a, r);
    assert started.executions[e := db.executions[e].(state := Recovered, resume := Some(r.id))] == done.executions;
    assert started.attempts[e := a.(state := Finalized)] == done.attempts;
  }

  lemma AttemptHere(db: Db, e: Id, r: Result)
    requires e in db.executions && db.executions[e].id == e && db.executions[e].state == Recovering
    requires db.fence == Fenced(db.executions[e].generation, db.executions[e].owner)
    requires e in db.attempts && !HasOutcome(db.attempts[e].state) && db.attempts[e].id !in db.outcomes
    ensures var x, a := db.executions[e], db.attempts[e];
      M.Attempting(db, x, db.fence, a, r)
        == if SettlesAttempt(db, x, a, r) then M.RecoveryRun(Settled(db, e, a, r), M.Done, a.state == Pending)
           else M.RecoveryRun(if a.state == Pending then Started(db, e, a) else db, M.Raised, a.state == Pending)
  {
    hide M.Answering, SpeaksFor;
    var x, a := db.executions[e], db.attempts[e];
    if a.state == Pending {
      var started := Started(db, e, a);
      assert db.executions[e := x.(state := Recovering)] == db.executions;
      assert MoveAttempt(db, e, Pending, ExternalStarted) == Some(started);
      SameSpeaks(db, started, x, x, r);
      AnsweringHere(started, e, a, r, true);
      assert Settled(started, e, started.attempts[e], r) == Settled(db, e, a, r) by { SettledAgain(db, e, a, r); }
    } else { AnsweringHere(db, e, a, r, false); }
  }

  /** Claiming first changes nothing in the end. */
  lemma ClaimedAgain(db: Db, claimed: Db, e: Id, a: Attempt, r: Result)
    requires e in db.executions && e !in db.attempts && db.executions[e].resume.None?
    requires claimed == db.(executions := db.executions[e := db.executions[e].(state := Recovering)],
                            attempts := db.attempts[e := a])
    ensures Settled(claimed, e, a, r) == Settled(db, e, a, r) && Started(claimed, e, a) == Started(db, e, a)
  {
    assert Settled(claimed, e, a, r).executions == Settled(db, e, a, r).executions;
    assert Settled(claimed, e, a, r).attempts == Settled(db, e, a, r).attempts;
    assert Started(claimed, e, a).executions == Started(db, e, a).executions;
    assert Started(claimed, e, a).attempts == Started(db, e, a).attempts;
  }

  /** Before the provider has answered: recover is called once, if it is due, and the answer must settle the
      attempt; otherwise the attempt stays claimed and started. */
  lemma UnansweredHere(db: Db, t: Id, e: Id, r: Result)
    requires Ready(db, e) && Unanswered(db, e) && t !in db.outcomes
    ensures var x, a := db.executions[e], AttemptOf(db, t, e);
      M.FailoverRecovery(db, t, e, r)
        == if !NoneNewer(db.epochs, x.outgoing) then M.RecoveryRun(db, M.Raised, false)
           else if SettlesAttempt(db, x, a, r) then M.RecoveryRun(Settled(db, e, a, r), M.Done, a.state == Pending)
           else M.RecoveryRun(if a.state == Pending then Started(db, e, a) else db, M.Raised, a.state == Pending)
  {
    hide M.OutgoingBound, FromDecision, NoneNewer, M.Attempting, SpeaksFor, Settled;
    var x, a := db.executions[e], AttemptOf(db, t, e);
    BoundExactly(db, e);
    if x.state == Recovering { AttemptHere(db, e, r); }
    else {
      var claimed := db.(executions := db.executions[e := x.(state := Recovering)],
                         attempts := db.attempts[e := a]);
      assert ClaimRecovery(db, t, e) == Some(claimed);
      ClaimedAgain(db, claimed, e, a, r);
      SameSpeaks(db, claimed, x, x.(state := Recovering), r);
      AttemptHere(claimed, e, r);
    }
  }

  // ----- Every run -----

  /** A recovery started now ends in success. */
  predicate Recovers(db: Db, t: Id, e: Id, r: Result)
    requires e in db.executions
  {
    var x := db.executions[e];
    && x.outgoing in db.epochs && NoneNewer(db.epochs, x.outgoing)
    && (x.state == Draining ==> SpeaksFor(db, x, r) && (r.id in db.results ==> db.results[r.id] == r))
    && (Unanswered(db, e) ==> SettlesAttempt(db, x, AttemptOf(db, t, e), r))
    && (x.state == Recovering && e in db.attempts && HasOutcome(db.attempts[e].state) ==>
          var a := db.attempts[e].id;
          a in db.outcomes && db.outcomes[a].result in db.results
          && var kept := db.results[db.outcomes[a].result];
          kept.recoveryEvidence.Some? ==> AnswersAttempt(kept, a))
  }

  /** The provider's recover has to be called, and has not been. */
  predicate CallDue(db: Db, t: Id, e: Id) { Unanswered(db, e) && AttemptOf(db, t, e).state == Pending }

  /** How a recovery ends, and what it leaves. */
  predicate RecoveryTold(db: Db, t: Id, e: Id, r: Result)
    requires e in db.executions && db.executions[e].outgoing in db.epochs
  {
    var x, run := db.executions[e], M.FailoverRecovery(db, t, e, r);
    && (run.ending == M.Done <==> Recovers(db, t, e, r))
    && (run.called <==> NoneNewer(db.epochs, x.outgoing) && CallDue(db, t, e))
    && (run.ending == M.Done ==>
          && run.db.fence == Open(x.generation + 1) && run.db.epochs == db.epochs
          && e in run.db.executions && run.db.executions[e].state == Recovered)
    && (run.ending != M.Done ==> run.db == if run.called then Started(db, e, AttemptOf(db, t, e)) else db)
  }

  lemma NotUsed(w: World, t: Id)
    requires Accountable(w) && w.next <= t
    ensures t !in w.db.outcomes
  {
  }

  lemma RecordedTells(db: Db, t: Id, e: Id, r: Result)
    requires Ready(db, e) && db.executions[e].state == Recovering
    requires e in db.attempts && db.attempts[e].state == ResultRecorded && RetryTold(db, t, e, r)
    ensures RecoveryTold(db, t, e, r)
  {
    hide M.FailoverRecovery, NoneNewer, AnswersAttempt, SpeaksFor, ExecutionFits, SettlesAttempt;
    assert !Unanswered(db, e);
    assert M.FailoverRecovery(db, t, e, r).ending == M.Done <==> Recovers(db, t, e, r);
  }

  lemma TellsHere(db: Db, t: Id, e: Id, r: Result)
    requires Ready(db, e) && IsRecoverable(db.executions[e].state) && t !in db.outcomes
    ensures RecoveryTold(db, t, e, r)
  {
    hide M.FailoverRecovery, NoneNewer, AnswersAttempt, SpeaksFor;
    var x := db.executions[e];
    if x.state == ExReserved { ReservedHere(db, t, e, r); }
    else if x.state == Draining { DrainingHere(db, t, e, r); }
    else if Unanswered(db, e) { UnansweredHere(db, t, e, r); }
    else {
      RecordedHere(db, t, e, r);
      RecordedTells(db, t, e, r);
    }
  }

  /** In every state of every interleaving, recovering an execution ends in success if and only if no newer
      epoch is open and the answer, or the recorded one, counts; the provider's recover is called if and only
      if no newer epoch is open and none was called before; success leaves the execution recovered and opens
      the fence at the next generation. */
  lemma RecoversExactly(w: World, t: Id, e: Id, r: Result)
    requires Accountable(w) && w.next <= t
    requires e in w.db.executions && IsRecoverable(w.db.executions[e].state)
    ensures w.db.executions[e].outgoing in w.db.epochs && RecoveryTold(w.db, t, e, r)
  {
    hide Accountable, RecoveryTold, ExecutionFits;
    RecoverableIsReady(w, e);
    NotUsed(w, t);
    TellsHere(w.db, t, e, r);
  }

  /** In every run, an execution with a recorded answer is recovered by a retry from exactly that answer, without
      any provider call, unless a newer epoch is open or the answer carries recovery evidence of something else. */
  lemma RetriesExactly(w: World, t: Id, e: Id, r: Result)
    requires Accountable(w) && e in w.db.executions && w.db.executions[e].state == Recovering
    requires e in w.db.attempts && w.db.attempts[e].state == ResultRecorded
    ensures w.db.executions[e].outgoing in w.db.epochs && RetryTold(w.db, t, e, r)
  {
    hide Accountable, M.FailoverRecovery, NoneNewer, AnswersAttempt, SpeaksFor;
    RecoverableIsReady(w, e);
    RecordedHere(w.db, t, e, r);
  }

  // ----- A crash between recording and finalizing -----

  lemma RecordedState(db: Db, t: Id, x: Execution, a: Id, r: Result, attempt: Option<Id>)
    requires Attempts(db, x, a) && x.id in db.executions && SameExecution(x, db.executions[x.id])
    requires ExecutionFits(db, x.id) && RecoveryValid(db, x, r, attempt) && RecordRecovery(db, x.id, a, r).Some?
    ensures var v := RecordRecovery(db, x.id, a, r).value;
      && v.executions == db.executions && v.fence == db.fence && v.epochs == db.epochs
      && x.id in v.attempts && v.attempts[x.id].state == ResultRecorded && v.attempts[x.id].id == a
      && v.executions[x.id].state == Recovering
      && a in v.outcomes && v.outcomes[a].result == r.id && r.id in v.results && v.results[r.id] == r
    ensures attempt == Some(a) ==> AnswersAttempt(r, a)
  {
    hide SpeaksFor, RecoveryValid;
    ValidSpeaks(db, x, r, attempt);
  }

  /** What recording an accepted answer leaves: the attempt recorded, and the call about to finalize. */
  lemma RecordedAnswer(w: World, v: World, t: Id, x: Execution, op: Fence, a: Attempt, r: Result, called: bool)
    requires Accountable(w) && Stands(w, t, RecoveryCall(RecoveryAnswered(x, op, a, r, called)))
    requires v == StepRecord(w, t, x, op, a, r, called) && t in v.calls
    ensures Stands(v, t, RecoveryCall(RecoveryFinal(x, op, Some(r.id)))) && x.state == Recovering
    ensures op == Fenced(x.generation, x.owner) && Retryable(v.db, x, a.id, r)
    ensures called ==> AnswersAttempt(r, a.id)
  {
    hide FromDecision, ExecutionFits, SpeaksFor, OrderInv, RecoveryValid, RecordRecovery;
    assert CallFits(w.db, t, w.calls[t]) && CallOk(w.db, t, w.calls[t]);
    RecordedState(w.db, t, x, a.id, r, if called then Some(a.id) else None);
  }

  /** The answer `r` of attempt `a` is recorded for the execution that was copied as `x`. */
  predicate Retryable(db: Db, x: Execution, a: Id, r: Result) {
    && x.id in db.executions && SameExecution(x, db.executions[x.id]) && db.executions[x.id].state == Recovering
    && x.id in db.attempts && db.attempts[x.id].state == ResultRecorded && db.attempts[x.id].id == a
    && a in db.outcomes && db.outcomes[a].result == r.id && r.id in db.results && db.results[r.id] == r
  }

  lemma RecordIsStep(w: World, t: Id, x: Execution, op: Fence, a: Attempt, r: Result, called: bool, i: Input)
    requires Stands(w, t, RecoveryCall(RecoveryAnswered(x, op, a, r, called)))
    ensures Step(w, Advance(t, i)) == StepRecord(w, t, x, op, a, r, called)
  {
    hide StepFailover, StepHandoff, StepComplete, StepReconcile, StepRollback, StepSession, StepRecord;
  }

  lemma FinalIsStep(w: World, t: Id, x: Execution, op: Fence, resume: Option<Id>, i: Input)
    requires Stands(w, t, RecoveryCall(RecoveryFinal(x, op, resume)))
    ensures Step(w, Advance(t, i)) == StepFinal(w, t, x, op, resume)
  {
    hide StepFailover, StepHandoff, StepComplete, StepReconcile, StepRollback, StepSession, StepFinal;
  }

  /** Retrying and finalizing write the same. */
  lemma RetrySame(v: World, t: Id, u: Id, x: Execution, op: Fence, a: Id, r: Result, other: Result)
    requires Retryable(v.db, x, a, r) && x.state == Recovering && op == Fenced(x.generation, x.owner)
    requires Ready(v.db, x.id) && NoneNewer(v.db.epochs, x.outgoing) && RetryTold(v.db, u, x.id, other)
    requires r.recoveryEvidence.Some? ==> AnswersAttempt(r, a)
    ensures M.FailoverRecovery(v.db, u, x.id, other)
      == M.RecoveryRun(StepFinal(v, t, x, op, Some(r.id)).db, M.Done, false)
  {
    hide M.FailoverRecovery, FinalizeRecovery, NoneNewer, ExecutionFits, AnswersAttempt;
    FinalizeCommits(v.db, x, Some(r.id));
  }

  /** The call that recorded an answer crashes before it finalizes: recovering again, by whomever and whatever
      the provider says, reaches exactly the database the call would have reached, without calling recover. An
      answer of the recover call itself always allows that; only an inspection whose evidence names something
      else, or a newer open epoch, does not. */
  lemma CrashLosesNothing(w: World, t: Id, x: Execution, op: Fence, a: Attempt, r: Result, called: bool, i: Input,
      u: Id, other: Result)
    requires Accountable(w) && Stands(w, t, RecoveryCall(RecoveryAnswered(x, op, a, r, called)))
    requires var v := StepRecord(w, t, x, op, a, r, called);
      t in v.calls && x.outgoing in v.db.epochs && NoneNewer(v.db.epochs, x.outgoing)
    requires r.recoveryEvidence.Some? ==> called || AnswersAttempt(r, a.id)
    ensures var v := Step(w, Advance(t, i));
      M.FailoverRecovery(Step(v, Crash(t)).db, u, x.id, other)
        == M.RecoveryRun(Step(v, Advance(t, i)).db, M.Done, false)
  {
    hide StepCall, Accountable, RetryTold, M.FailoverRecovery, RecordRecovery, RecoveryValid, NoneNewer;
    var v := StepRecord(w, t, x, op, a, r, called);
    RecordIsStep(w, t, x, op, a, r, called, i);
    StepAccounts(w, Advance(t, i));
    RecordedAnswer(w, v, t, x, op, a, r, called);
    RetriesExactly(v, u, x.id, other);
    RecoverableIsReady(v, x.id);
    FinalIsStep(v, t, x, op, Some(r.id), i);
    RetrySame(v, t, u, x, op, a.id, r, other);
  }

  // ----- Calls one after another -----

  /** The outgoing epoch of every execution that can still be recovered is open. */
  ghost predicate OutgoingOpen(db: Db) {
    forall e | e in db.executions && IsRecoverable(db.executions[e].state) :: IsOpen(db, db.executions[e].outgoing)
  }

  /** A held fence without a handoff, over an open epoch. */
  ghost predicate HeldOver(db: Db) { db.fence.Fenced? && !db.Blocked() && exists o :: IsOpen(db, o) }

  lemma HandoffHolds(w: World, v: World, t: Id, s: HandoffStage, i: Input)
    requires HeldOver(w.db) && SerialDb(w.db) && EpochsOk(w.db.epochs) && CurrentInHandoff(w.db, s)
    requires v == StepHandoff(w, t, s, i) && !v.db.Blocked()
    ensures v.db.epochs == w.db.epochs
  {
    hide StartImport, SerialDb, CurrentInHandoff, MoveExecution, Authoritative;
    if s.HandoffImporting? {
      if s.plan.op.Fenced? && StartImport(w.db, t, s.plan.provider, s.plan.op, s.plan.outgoing).Some? {
        ImportEffect(w.db, t, s.plan);
      }
    } else if MovesExecution(s) { HandoffMoveFrame(w, v, t, s, i); }
  }

  lemma HandoffMoveFrame(w: World, v: World, t: Id, s: HandoffStage, i: Input)
    requires MovesExecution(s) && v == StepHandoff(w, t, s, i)
    ensures v.db.epochs == w.db.epochs
  {
    hide StartImport, Authoritative;
  }

  lemma CompletionHolds(db: Db, s: CompletionStage)
    requires CurrentInCompletion(db, s)
    ensures db.Blocked()
  {
  }

  lemma ReconcileHolds(w: World, v: World, t: Id, s: ReconcileStage, i: Input)
    requires v == StepReconcile(w, t, s, i)
    ensures v.db.epochs == w.db.epochs
  {
    hide SameBindings;
  }

  lemma RollbackHolds(w: World, v: World, t: Id, s: RollbackStage, i: Input)
    requires CurrentInRollback(w.db, s) && v == StepRollback(w, t, s, i) && !w.db.Blocked()
    ensures v.db.epochs == w.db.epochs
  {
    hide RollBack, BlockRollback, SessionBound, DurablyAcknowledged;
  }

  lemma SessionHolds(w: World, v: World, t: Id, s: SessionStage, i: Input)
    requires HeldOver(w.db) && v == StepSession(w, t, s, i)
    ensures v.db.epochs == w.db.epochs
  {
    hide SaveSessions, Authoritative;
    var o :| IsOpen(w.db, o);
    if s.DiscoverHeld? { DiscoveryPasses(w, v, t, s.op, i); }
  }

  /** While the fence is held and no handoff is under way, no serial call changes an epoch, unless it begins a
      handoff. */
  lemma EpochsHold(w: World, v: World, t: Id, i: Input)
    requires SerialInv(w) && HeldOver(w.db) && Moves(w, v, t, i) && !v.db.Blocked()
    ensures v.db.epochs == w.db.epochs
  {
    hide StepFailover, StepHandoff, StepComplete, StepReconcile, StepRollback, StepRecovery, StepSession, HeldOver,
        SerialDb, Invariant;
    assert Current(w.db, w.calls[t]) && !w.db.Blocked() by { HoldsUnblocked(w.db); }
    match w.calls[t]
    case FailoverCall(s) => FailoverPasses(w, v, t, s, i);
    case HandoffCall(s) => HandoffHolds(w, v, t, s, i);
    case CompletionCall(s) => CompletionHolds(w.db, s);
    case ReconcileCall(s) => ReconcileHolds(w, v, t, s, i);
    case RollbackCall(s) => RollbackHolds(w, v, t, s, i);
    case RecoveryCall(s) => RecoveryPasses(w, v, t, s, i);
    case SessionCall(s) => SessionHolds(w, v, t, s, i);
  }

  lemma HoldsUnblocked(db: Db)
    requires HeldOver(db)
    ensures !db.Blocked()
  {
  }

  ghost predicate SerialAccounts(w: World) { SerialInv(w) && RecordsInv(w) && OutgoingOpen(w.db) }

  /** An execution that can be recovered after a step could be before, or is the one just made. */
  lemma StillRecoverable(w: World, v: World, t: Id, i: Input, e: Id)
    requires Accountable(w) && Accountable(v) && SerialInv(w) && OutgoingOpen(w.db) && Moves(w, v, t, i)
    requires e in v.db.executions && IsRecoverable(v.db.executions[e].state) && e in w.db.executions
    requires RecordsGrow(w.db, v.db, t) && SameExecution(w.db.executions[e], v.db.executions[e])
    ensures IsOpen(v.db, v.db.executions[e].outgoing)
  {
    hide Accountable, SerialInv, StepCall, FromDecision, ExecutionFits;
    RecoverableIsReady(w, e);
    RecoverableIsReady(v, e);
    assert HeldOver(w.db);
    EpochsHold(w, v, t, i);
  }

  lemma AdvanceHolds(w: World, v: World, t: Id, i: Input)
    requires SerialAccounts(w) && Moves(w, v, t, i) && Accountable(v)
    ensures OutgoingOpen(v.db)
  {
    hide StepCall, FromDecision, ExecutionFits, StageFits, EpochsOk, SerialDb, Accountable, Current, CallOk;
    assert KnowsRight(w, t) && EpochsOk(w.db.epochs) && Accountable(w) by { Knowing(w, t); }
    AdvanceProgress(w, v, t, i);
    AdvanceKeepsRecords(w, v, t, i);
    forall e | e in v.db.executions && IsRecoverable(v.db.executions[e].state)
      ensures IsOpen(v.db, v.db.executions[e].outgoing)
    {
      if e in w.db.executions { StillRecoverable(w, v, t, i, e); } else { NewExecution(w, v, t, i); }
    }
  }

  lemma Knowing(w: World, t: Id)
    requires SerialAccounts(w) && t in w.calls
    ensures KnowsRight(w, t) && EpochsOk(w.db.epochs) && Accountable(w)
  {
    hide SerialDb, ExecutionFits, FromDecision, StageFits, Current;
  }

  lemma SerialStepAccounts(w: World, a: Action)
    requires SerialAccounts(w)
    ensures SerialAccounts(SerialStep(w, a))
  {
    hide StepCall, SerialInv, Invariant, OrderInv, RecordsInv, OutgoingOpen;
    SerialStepKeeps(w, a);
    assert Accountable(w) by { SerialIsAccountable(w); }
    StepAccounts(w, a);
    match a
    case Begin(c) =>
    case Crash(t) =>
    case Advance(t, i) => if t in w.calls { AdvanceHolds(w, Step(w, a), t, i); }
  }

  lemma SerialIsAccountable(w: World)
    requires SerialAccounts(w)
    ensures Accountable(w)
  {
    hide Invariant, OrderInv, RecordsInv, SerialDb, Current;
  }

  lemma {:induction false} SerialRunAccounts(instance: Id, actions: seq<Action>)
    ensures SerialAccounts(SerialRun(instance, actions))
  {
    hide Step, StepCall;
    if actions != [] {
      SerialRunAccounts(instance, actions[..|actions| - 1]);
      SerialStepAccounts(SerialRun(instance, actions[..|actions| - 1]), actions[|actions| - 1]);
    }
  }

  /** With calls one after another, crashing or not, no newer epoch is ever open behind an execution that can
      still be recovered. */
  lemma SerialNoneNewer(w: World, e: Id)
    requires SerialAccounts(w) && e in w.db.executions && IsRecoverable(w.db.executions[e].state)
    ensures Ready(w.db, e) && NoneNewer(w.db.epochs, w.db.executions[e].outgoing)
  {
    hide FromDecision, ExecutionFits, OrderInv;
    SerialIsAccountable(w);
    RecoverableIsReady(w, e);
  }

  /** An execution left reserved is recovered by the next call that tries, whatever the provider would say: it
      ends recovered and the fence opens at the next generation. */
  lemma ReservedIsRecovered(instance: Id, actions: seq<Action>, e: Id, i: Input, n: nat)
    requires var w := SerialRun(instance, actions);
      && w.calls == map[] && n >= 10
      && e in w.db.executions && w.db.executions[e].state == ExReserved
    ensures var w := SerialRun(instance, actions);
      var x, t := w.db.executions[e], w.next;
      M.FailoverRecovery(w.db, t, e, i.result) == M.RecoveryRun(Run(Step(w, Begin(RecoveryCall(Recovery(e)))),
                                                                    Steps(t, Repeat(i, n))).db, M.Done, false)
      && Run(Step(w, Begin(RecoveryCall(Recovery(e)))), Steps(t, Repeat(i, n))).db
         == w.db.(fence := Open(x.generation + 1), executions := w.db.executions[e := x.(state := Recovered)])
  {
    hide StepCall, M.FailoverRecovery, SerialAccounts, NoneNewer;
    SerialRunAccounts(instance, actions);
    var w := SerialRun(instance, actions);
    SerialNoneNewer(w, e);
    RecoveryAlone(Step(w, Begin(RecoveryCall(Recovery(e)))), w.next, e, i, n);
    ReservedHere(w.db, w.next, e, i.result);
  }

  /** The same for an execution left with a recorded answer: it ends recovered from that answer. */
  lemma RecordedIsRecovered(instance: Id, actions: seq<Action>, e: Id, i: Input, n: nat)
    requires var w := SerialRun(instance, actions);
      && w.calls == map[] && n >= 10
      && e in w.db.executions && w.db.executions[e].state == Recovering
      && e in w.db.attempts && w.db.attempts[e].state == ResultRecorded
    ensures var w := SerialRun(instance, actions);
      var x, a := w.db.executions[e], w.db.attempts[e];
      && a.id in w.db.outcomes && w.db.outcomes[a.id].result in w.db.results
      && var kept := w.db.results[w.db.outcomes[a.id].result];
      Run(Step(w, Begin(RecoveryCall(Recovery(e)))), Steps(w.next, Repeat(i, n))).db
        == if kept.recoveryEvidence.Some? && !AnswersAttempt(kept, a.id) then w.db
           else w.db.(fence := Open(x.generation + 1),
                      executions := w.db.executions[e := x.(state := Recovered, resume := Some(kept.id))],
                      attempts := w.db.attempts[e := a.(state := Finalized)])
  {
    hide StepCall, M.FailoverRecovery, SerialAccounts, NoneNewer, AnswersAttempt;
    SerialRunAccounts(instance, actions);
    var w := SerialRun(instance, actions);
    SerialNoneNewer(w, e);
    RecoveryAlone(Step(w, Begin(RecoveryCall(Recovery(e)))), w.next, e, i, n);
    RecordedHere(w.db, w.next, e, i.result);
  }
}
