/** The manager's side of a dispatch (src/overseer/agent_manager.py: `dispatch`, `record_provider_result`
    and their helpers) as code over the coordinator's rows, run without interruption. */
module DispatchManager {
  import opened Contracts
  import opened Fences
  import opened DispatchStore
  import opened OperationCoordinator

  /** What `dispatch` gives its caller: paused, the answer recorded for this key, a new result, or an
      exception. */
  datatype Reply = Paused | Recorded(replay: Replay) | Handed(result: DispatchResult) | Raised

  /** The answer repeats result, provider and reason of the row, and its state once there is one; work that was
      accepted or is executing is answered as queued. */
  predicate AnswersFrom(d: Dispatch, answer: Replay) {
    && answer.result == d.result && answer.provider == d.provider && answer.category == d.reason
    && (d.status == Accepted || d.status == Executing ==> answer.state == Queued)
    && (d.status.Reached? ==> answer.state == d.status.state)
  }

  /** The row that a new dispatch writes: bound to the open generation. */
  function NewRow(s: Store, t: Id, instance: Id, key: Id, epoch: Id): Dispatch
    requires epoch in s.epochs
  {
    Dispatch(t, instance, key, s.epochs[epoch].session, epoch, s.FenceOf(instance).generation, Accepted, None, None,
        None)
  }

  /** A dispatch is refused as paused: a transition is under way, the fence is held, or the key is new and
      the only active epoch takes no dispatches. */
  predicate DispatchPaused(s: Store, instance: Id, key: Id) {
    || instance in s.transitioning || s.FenceOf(instance).Fenced?
    || (!s.HasKey(instance, key) && exists e | e in s.epochs :: s.ActiveEpochs(instance) == {e} && s.epochs[e].paused)
  }

  /** `ensure_agent_operation` on the fence of one instance. */
  function Ensured(s: Store, instance: Id): Store { s.(fences := s.fences[instance := s.FenceOf(instance)]) }

  /** Accept, claim, hear the provider's answer, record and complete, with nobody in between. */
  function Dispatched(s: Store, t: Id, instance: Id, key: Id, epoch: Id, answer: DispatchResult, newId: Id)
    : Option<(Store, DispatchResult)>
    requires epoch in s.epochs
  {
    var row := NewRow(s, t, instance, key, epoch);
    var inserted :- InsertDispatch(Ensured(s, instance), row);
    var claimed := inserted.(dispatches := inserted.dispatches[t := WithStatus(row, Executing)]);
    RecordAndComplete(claimed, t, row.generation, epoch, answer, newId)
  }

  /** Whatever the provider answers, be it about another request, the key is afterwards answered with exactly
      what the first caller was handed, and no row but this one and the one the answer names changes. */
  lemma DispatchedReplays(s: Store, t: Id, instance: Id, key: Id, epoch: Id, answer: DispatchResult, newId: Id)
    requires epoch in s.epochs && Dispatched(s, t, instance, key, epoch, answer, newId).Some?
    ensures var (after, back) := Dispatched(s, t, instance, key, epoch, answer, newId).value;
      && t in after.dispatches && after.dispatches[t].instance == instance && after.dispatches[t].key == key
      && ReplayOf(after.dispatches[t]) == ReplayView(back)
      && forall x | x in s.dispatches && x != answer.request ::
        x in after.dispatches && after.dispatches[x] == s.dispatches[x]
  {
    var row := NewRow(s, t, instance, key, epoch);
    var inserted := InsertDispatch(Ensured(s, instance), row).value;
    var claimed := inserted.(dispatches := inserted.dispatches[t := WithStatus(row, Executing)]);
    CompletionReplaysExactly(claimed, t, row.generation, epoch, answer, newId);
  }

  /** What becomes of another row: it takes the result over if and only if it is the one the answer names, it
      is not final, and the answer passes every check of the recording. */
  lemma OtherRowAfter(s: Store, t: Id, instance: Id, key: Id, epoch: Id, answer: DispatchResult, newId: Id, x: Id)
    requires epoch in s.epochs && Dispatched(s, t, instance, key, epoch, answer, newId).Some? && x in s.dispatches
    requires x != t
    ensures var after := Dispatched(s, t, instance, key, epoch, answer, newId).value.0;
      && x in after.dispatches
      && after.dispatches[x]
         == if x == answer.request && !IsFinal(s.dispatches[x].status) && Judge(s, epoch, answer) == Accept
            then RecordedRow(s.dispatches[x], answer) else s.dispatches[x]
  {
    var row := NewRow(s, t, instance, key, epoch);
    var inserted := InsertDispatch(Ensured(s, instance), row).value;
    var claimed := inserted.(dispatches := inserted.dispatches[t := WithStatus(row, Executing)]);
    if x == answer.request {
      AcceptedExactly(claimed, epoch, answer);
      AcceptedExactly(s, epoch, answer);
    }
  }

  // ----- When a dispatch is sent -----

  /** The epochs listed as active for an instance are its own. */
  predicate OwnEpochs(s: Store, instance: Id) {
    forall e | e in s.ActiveEpochs(instance) :: e in s.epochs && s.epochs[e].instance == instance
  }

  /** The answer to dispatch `t` is taken as it is: it names this dispatch, or another row of the same epoch
      that was not cancelled, and agrees with the open epoch on instance, session, epoch and provider. */
  predicate TakenAsIs(s: Store, t: Id, instance: Id, epoch: Id, answer: DispatchResult)
    requires epoch in s.epochs
  {
    var e := s.epochs[epoch];
    && !e.closed && answer.instance == instance && answer.session == e.session && answer.epoch == epoch
    && answer.provider == e.provider
    && (|| answer.request == t
        || (answer.request in s.dispatches
            && var d := s.dispatches[answer.request];
               d.status != Reached(Cancelled) && d.instance == instance && d.session == e.session && d.epoch == epoch))
  }

  /** What the caller is handed: the answer, or a quarantined copy of it under an id of its own. */
  function KeptAnswer(s: Store, t: Id, instance: Id, epoch: Id, answer: DispatchResult, newId: Id): DispatchResult
    requires epoch in s.epochs
  {
    if TakenAsIs(s, t, instance, epoch, answer) then answer
    else answer.(id := newId, state := Quarantined, category := Some(WasQuarantined))
  }

  /** Nothing stands in the way of sending: the row id is unused, and the id of the result that will be kept is
      free or holds the same. */
  predicate CanBeKept(s: Store, t: Id, instance: Id, epoch: Id, answer: DispatchResult, newId: Id)
    requires epoch in s.epochs
  {
    var kept := KeptAnswer(s, t, instance, epoch, answer, newId);
    t !in s.dispatches && (kept.id in s.results ==> s.results[kept.id] == kept)
  }

  /** The key is new, and exactly one epoch is active; it takes dispatches. */
  predicate MayBeSent(s: Store, instance: Id, key: Id, epoch: Id) {
    && instance !in s.transitioning && s.FenceOf(instance).Open? && !s.HasKey(instance, key)
    && epoch in s.epochs && s.ActiveEpochs(instance) == {epoch} && !s.epochs[epoch].paused
  }

  /** The rows once the dispatch has been accepted and claimed, before the provider answers. */
  function ClaimedStore(s: Store, t: Id, instance: Id, key: Id, epoch: Id): Store
    requires epoch in s.epochs
  {
    Ensured(s, instance).(dispatches := s.dispatches[t := WithStatus(NewRow(s, t, instance, key, epoch), Executing)])
  }

  /** What a dispatch that raises leaves: its row executing, unless the id was taken. */
  function LeftBehind(s: Store, t: Id, instance: Id, key: Id, epoch: Id): Store
    requires epoch in s.epochs
  {
    if t in s.dispatches || s.HasKey(instance, key) || instance in s.transitioning then Ensured(s, instance)
    else ClaimedStore(s, t, instance, key, epoch)
  }

  lemma JudgesClaimed(s: Store, t: Id, instance: Id, key: Id, epoch: Id, answer: DispatchResult)
    requires MayBeSent(s, instance, key, epoch) && s.epochs[epoch].instance == instance && t !in s.dispatches
    ensures Judge(ClaimedStore(s, t, instance, key, epoch), epoch, answer)
      == if TakenAsIs(s, t, instance, epoch, answer) then Accept else Reject
  {
    AcceptedExactly(ClaimedStore(s, t, instance, key, epoch), epoch, answer);
    assert |{epoch}| == 1;
  }

  /** A dispatch that may be sent comes to its end exactly when its id is unused and what will be kept can be
      stored; then exactly that is kept and handed back. */
  lemma DispatchedExactly(s: Store, t: Id, instance: Id, key: Id, epoch: Id, answer: DispatchResult, newId: Id)
    requires MayBeSent(s, instance, key, epoch) && s.epochs[epoch].instance == instance
    ensures var done := Dispatched(s, t, instance, key, epoch, answer, newId);
      var kept := KeptAnswer(s, t, instance, epoch, answer, newId);
      && (done.Some? <==> CanBeKept(s, t, instance, epoch, answer, newId))
      && (done.Some? ==> done.value.1 == kept && done.value.0.results == s.results[kept.id := kept])
  {
    hide CompletedRow, IsFinal, Judge;
    if t !in s.dispatches {
      JudgesClaimed(s, t, instance, key, epoch, answer);
      var row := NewRow(s, t, instance, key, epoch);
      assert InsertDispatch(Ensured(s, instance), row).Some?;
      var inserted := InsertDispatch(Ensured(s, instance), row).value;
      assert inserted.(dispatches := inserted.dispatches[t := WithStatus(row, Executing)])
        == ClaimedStore(s, t, instance, key, epoch);
    }
  }

  class Dispatcher {
    const rows: Coordinator

    constructor (rows: Coordinator)
      ensures this.rows == rows
    {
      this.rows := rows;
    }

    /** The row of an instance and key, by a pass over the rows. */
    method FindByKey(instance: Id, key: Id) returns (found: Option<Id>)
      ensures found.Some? ==>
        found.value in rows.dispatches && rows.dispatches[found.value].instance == instance
        && rows.dispatches[found.value].key == key
      ensures found.Some? <==> rows.View().HasKey(instance, key)
    {
      var todo := rows.dispatches.Keys;
      while todo != {}
        invariant todo <= rows.dispatches.Keys
        invariant forall x | x in rows.dispatches && x !in todo ::
          !(rows.dispatches[x].instance == instance && rows.dispatches[x].key == key)
        decreases todo
      {
        var x :| x in todo;
        if rows.dispatches[x].instance == instance && rows.dispatches[x].key == key { return Some(x); }
        todo := todo - {x};
      }
      return None;
    }

    /** `record_provider_result`; `None` is an exception. */
    method RecordProviderResult(epoch: Id, r: DispatchResult, newId: Id) returns (back: Option<DispatchResult>)
      modifies rows`dispatches, rows`results
      ensures var recorded := DispatchStore.RecordProviderResult(old(rows.View()), epoch, r, newId);
        && (back.Some? <==> recorded.Some?)
        && (back.Some? ==> recorded.value == (rows.View(), back.value))
        && (back.None? ==> rows.View() == old(rows.View()))
    {
      var verdict := Judge(rows.View(), epoch, r);
      if verdict == Raise { return None; }
      var kept := if verdict == Reject then QuarantinedResult(r, newId) else r;
      if kept.id in rows.results && rows.results[kept.id] != kept { return None; }
      rows.results := rows.results[kept.id := kept];
      if verdict == Accept && !IsFinal(rows.dispatches[r.request].status) {
        var d := rows.dispatches[r.request];
        rows.dispatches := rows.dispatches[r.request :=
          d.(result := Some(r.id), provider := Some(r.provider), status := Reached(r.state), reason := r.category)];
      }
      return Some(kept);
    }

    /** A new dispatch on the active epoch, from acceptance to completion. */
    method Send(t: Id, instance: Id, key: Id, epoch: Id, answer: DispatchResult,
        newId: Id) returns (back: Option<DispatchResult>)
      requires epoch in rows.epochs && rows.View().FenceOf(instance).Open?
      modifies rows`fences, rows`dispatches, rows`results
      ensures var done := Dispatched(old(rows.View()), t, instance, key, epoch, answer, newId);
        && (back.Some? <==> done.Some?)
        && (back.Some? ==> done.value == (rows.View(), back.value))
      ensures back.None? ==> rows.View() == LeftBehind(old(rows.View()), t, instance, key, epoch)
    {
      ghost var before := rows.View();
      ghost var row := NewRow(before, t, instance, key, epoch);
      var accepted := rows.AcceptDispatch(
        DispatchStore.Dispatch.Dispatch(t, instance, key, rows.epochs[epoch].session, epoch, 0, Accepted, None, None,
            None));
      if accepted.None? { return None; }
      assert accepted.value == row && rows.View() == InsertDispatch(Ensured(before, instance), row).value;
      var granted := rows.ClaimDispatchExecution(t);
      assert granted == Some(true);
      back := RecordProviderResult(epoch, answer, newId);
      if back.None? { return; }
      var ok := rows.CompleteExecution(t, accepted.value.generation, back.value);
      if !ok { return None; }
    }

    /** The active epoch of the instance, when there is exactly one. */
    method ActiveEpoch(instance: Id) returns (found: Option<Id>)
      ensures found.Some? ==> rows.View().ActiveEpochs(instance) == {found.value} && found.value in rows.epochs
      ensures found.None? ==> forall e | e in rows.epochs :: rows.View().ActiveEpochs(instance) != {e}
    {
      var active := rows.View().ActiveEpochs(instance);
      if active == {} { return None; }
      var epoch :| epoch in active;
      if active != {epoch} || epoch !in rows.epochs { return None; }
      return Some(epoch);
    }

    /** `dispatch` with the policy's verdict, an id `t` for the new row, the provider's `answer` and an id
        for a quarantined copy of it. */
    method Dispatch(t: Id, instance: Id, key: Id, authorized: bool, answer: DispatchResult,
        newId: Id) returns (reply: Reply)
      modifies rows`fences, rows`dispatches, rows`results
      ensures reply == Paused <==> DispatchPaused(old(rows.View()), instance, key)
      ensures reply == Paused || !authorized ==> rows.View() == old(rows.View())
      ensures reply != Paused ==> (reply.Recorded? <==> old(rows.View()).HasKey(instance, key))
      ensures reply.Recorded? ==>
        && rows.View() == old(rows.View())
        && exists x :: x in rows.dispatches && rows.dispatches[x].instance == instance && rows.dispatches[x].key == key
                       && reply.replay == ReplayOf(rows.dispatches[x]) && AnswersFrom(rows.dispatches[x], reply.replay)
      ensures OwnEpochs(old(rows.View()), instance) ==>
        (reply.Handed? <==> authorized && exists epoch ::
           MayBeSent(old(rows.View()), instance, key, epoch)
           && CanBeKept(old(rows.View()), t, instance, epoch, answer, newId))
      ensures forall epoch | reply.Handed? && old(rows.View()).ActiveEpochs(instance) == {epoch} ::
        OwnEpochs(old(rows.View()), instance) ==>
          && epoch in rows.epochs
          && reply.result == KeptAnswer(old(rows.View()), t, instance, epoch, answer, newId)
          && rows.results == old(rows.results)[reply.result.id := reply.result]
      ensures reply.Handed? ==>
        && t in rows.dispatches && rows.dispatches[t].instance == instance && rows.dispatches[t].key == key
        && ReplayOf(rows.dispatches[t]) == ReplayView(reply.result)
        && (forall x | x in old(rows.dispatches) && x != answer.request ::
              x in rows.dispatches && rows.dispatches[x] == old(rows.dispatches)[x])
      ensures reply.Raised? && authorized ==>
        rows.View() == old(rows.View())
        || exists epoch :: MayBeSent(old(rows.View()), instance, key, epoch)
             && rows.View() == LeftBehind(old(rows.View()), t, instance, key, epoch)
      ensures reply.Handed? ==> authorized
      ensures reply.Handed? ==>
        exists epoch :: epoch in rows.epochs && old(rows.View()).ActiveEpochs(instance) == {epoch}
          && !rows.epochs[epoch].paused
          && Dispatched(old(rows.View()), t, instance, key, epoch, answer, newId) == Some((rows.View(), reply.result))
    {
      if instance in rows.transitioning || rows.View().FenceOf(instance).Fenced? { return Paused; }
      var existing := FindByKey(instance, key);
      if existing.Some? { return Recorded(ReplayOf(rows.dispatches[existing.value])); }
      var epoch := ActiveEpoch(instance);
      if epoch.None? { return Raised; }
      if rows.epochs[epoch.value].paused { return Paused; }
      if !authorized { return Raised; }
      ghost var before := rows.View();
      assert MayBeSent(before, instance, key, epoch.value);
      if before.epochs[epoch.value].instance == instance {
        DispatchedExactly(before, t, instance, key, epoch.value, answer, newId);
      }
      var back := Send(t, instance, key, epoch.value, answer, newId);
      if back.None? { return Raised; }
      DispatchedReplays(before, t, instance, key, epoch.value, answer, newId);
      return Handed(back.value);
    }
  }
}
