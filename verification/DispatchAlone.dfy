/** A dispatch call that nobody interrupts after the provider has answered: its separate reads and writes
    add up to recording and completing in one piece. */
module DispatchAlone {
  import opened Contracts
  import opened Fences
  import opened DispatchStore
  import opened DispatchRuns
  import M = DispatchManager

  /** The worlds of a run in which only call `t` moves. */
  ghost predicate OnlyCall(ws: seq<World>, t: Id, a: Action) {
    a.Advance? && a.call == t && |ws| > 0 && forall k | 0 <= k < |ws| - 1 :: ws[k + 1] == Step(ws[k], a)
  }

  function Last(ws: seq<World>): Store
    requires |ws| > 0
  {
    ws[|ws| - 1].store
  }

  predicate IdsMatch(s: Store) { forall x | x in s.dispatches :: s.dispatches[x].id == x }

  function Or(s: Option<Store>, otherwise: Store): Store { if s.Some? then s.value else otherwise }

  lemma {:induction false} EndedStays(ws: seq<World>, t: Id, a: Action, k: nat)
    requires OnlyCall(ws, t, a) && k < |ws| && t !in ws[k].calls
    ensures Last(ws) == ws[k].store
    decreases |ws| - k
  {
    if k < |ws| - 1 {
      assert ws[k + 1] == Step(ws[k], a);
      EndedStays(ws, t, a, k + 1);
    }
  }

  lemma Completes(ws: seq<World>, t: Id, a: Action, k: nat, d: Dispatch, r: DispatchResult)
    requires OnlyCall(ws, t, a) && k + 2 < |ws| && IdsMatch(ws[k].store)
    requires t in ws[k].calls && ws[k].calls[t] == Completing(d, r, false)
    ensures Last(ws) == Or(CompleteDispatch(ws[k].store, d.id, d.generation, r), ws[k].store)
  {
    var s := ws[k].store;
    assert ws[k + 1] == Step(ws[k], a) && ws[k + 2] == Step(ws[k + 1], a);
    if d.id !in s.dispatches || s.dispatches[d.id].generation != d.generation { EndedStays(ws, t, a, k + 1); }
    else if KeepsRow(s.dispatches[d.id], r) {
      EndedStays(ws, t, a, k + 1);
      assert s.dispatches[d.id := s.dispatches[d.id]] == s.dispatches;
    } else { EndedStays(ws, t, a, k + 2); }
  }

  /** From the read of the row to its write; two more steps complete it. */
  lemma Records(ws: seq<World>, t: Id, a: Action, k: nat, d: Dispatch, r: DispatchResult)
    requires OnlyCall(ws, t, a) && k + 5 < |ws| && IdsMatch(ws[k].store)
    requires t in ws[k].calls && ws[k].calls[t] == Recording(ForDispatch(d), r) && r.request in ws[k].store.dispatches
    ensures var recorded := RecordResult(ws[k].store, r);
      Last(ws) == if recorded.None? then ws[k].store
      else Or(CompleteDispatch(recorded.value, d.id, d.generation, r), recorded.value)
  {
    hide Dispatching, Judge;
    var s, copy := ws[k].store, ws[k].store.dispatches[r.request];
    assert ws[k + 1] == Step(ws[k], a) && ws[k + 2] == Step(ws[k + 1], a) && ws[k + 3] == Step(ws[k + 2], a);
    assert ws[k + 1] == Goto(ws[k], t, Storing(ForDispatch(d), r, copy));
    if SaveResult(s, r).None? { EndedStays(ws, t, a, k + 2); }
    else if IsFinal(copy.status) { Completes(ws, t, a, k + 2, d, r); }
    else { Completes(ws, t, a, k + 3, d, r); }
  }

  /** Six steps of the call alone, whatever the provider answered, leave the store that recording and
      completing as one step leave, and leave it untouched where that raises. */
  lemma SettlesAlone(ws: seq<World>, t: Id, a: Action, d: Dispatch, r: DispatchResult)
    requires OnlyCall(ws, t, a) && |ws| == 7 && RowsMatch(ws[0]) && t in ws[0].calls && ws[0].calls[t] == Answered(d, r)
    ensures var done := RecordAndComplete(ws[0].store, d.id, d.generation, d.epoch, r, a.newId);
      Last(ws) == if done.Some? then done.value.0 else ws[0].store
  {
    var s := ws[0].store;
    assert CallMatches(ws[0], t);
    assert ws[1] == Step(ws[0], a) && ws[2] == Step(ws[1], a);
    match Judge(s, d.epoch, r)
    case Raise => EndedStays(ws, t, a, 1);
    case Reject =>
      var q := QuarantinedResult(r, a.newId);
      if SaveResult(s, q).None? { EndedStays(ws, t, a, 2); } else { Completes(ws, t, a, 2, d, q); }
    case Accept => Records(ws, t, a, 1, d, r);
  }

  // ----- A whole dispatch -----

  /** The call that a dispatch on this epoch begins with. */
  function NewCall(s: Store, t: Id, instance: Id, key: Id, epoch: Id): Call
    requires epoch in s.epochs
  {
    Reading(Dispatch(t, instance, key, s.epochs[epoch].session, epoch, 0, Accepted, None, None, None))
  }

  lemma ReachesProvider(ws: seq<World>, t: Id, a: Action, instance: Id, key: Id, epoch: Id)
    requires OnlyCall(ws, t, a) && |ws| >= 5 && M.MayBeSent(ws[0].store, instance, key, epoch)
    requires t !in ws[0].store.dispatches
    requires t in ws[0].calls && ws[0].calls[t] == NewCall(ws[0].store, t, instance, key, epoch)
    ensures var s, row := ws[0].store, M.NewRow(ws[0].store, t, instance, key, epoch);
      && ws[4].store == s.(dispatches := s.dispatches[t := WithStatus(row, Executing)])
      && t in ws[4].calls && ws[4].calls[t] == Answered(row, a.answer)
  {
    hide Settling;
    var s, row := ws[0].store, M.NewRow(ws[0].store, t, instance, key, epoch);
    assert ws[1] == Step(ws[0], a) && ws[1] == Goto(ws[0], t, Writing(row));
    var inserted := s.(dispatches := s.dispatches[t := row]);
    assert ws[2] == Step(ws[1], a) && ws[2] == Goto(ws[1].(store := inserted), t, Claiming(row));
    assert ws[3] == Step(ws[2], a) && ws[3].store.dispatches == s.dispatches[t := WithStatus(row, Executing)];
    assert ws[3].calls[t] == Calling(row);
    assert ws[4] == Step(ws[3], a);
  }

  lemma {:induction false} StepsKeepConsistent(ws: seq<World>, t: Id, a: Action, k: nat)
    requires OnlyCall(ws, t, a) && k < |ws| && Consistent(ws[0])
    ensures Consistent(ws[k])
  {
    if k > 0 {
      StepsKeepConsistent(ws, t, a, k - 1);
      StepKeepsConsistent(ws[k - 1], a);
      assert ws[k - 1 + 1] == Step(ws[k - 1], a);
    }
  }

  /** Recording a result does not look at the fences. */
  lemma FencesApart(s: Store, fences: map<Id, Fence>, epoch: Id, r: DispatchResult, newId: Id)
    ensures RecordProviderResult(s.(fences := fences), epoch, r, newId)
      == var x := RecordProviderResult(s, epoch, r, newId);
         if x.None? then None else Some((x.value.0.(fences := fences), x.value.1))
  {
    var other := s.(fences := fences);
    assert Judge(other, epoch, r) == Judge(s, epoch, r);
    hide Judge;
  }

  lemma EnsuredSame(s: Store, instance: Id, t: Id, row: Dispatch, epoch: Id, answer: DispatchResult, newId: Id)
    ensures var a := s.(dispatches := s.dispatches[t := row]);
      var b := M.Ensured(s, instance).(dispatches := s.dispatches[t := row]);
      var x, y := RecordAndComplete(a, t, row.generation, epoch, answer, newId),
          RecordAndComplete(b, t, row.generation, epoch, answer, newId);
      && (x.Some? <==> y.Some?)
      && (x.Some? ==> x.value.0.dispatches == y.value.0.dispatches && x.value.0.results == y.value.0.results)
  {
    hide RecordProviderResult, CompletedRow;
    FencesApart(s.(dispatches := s.dispatches[t := row]), M.Ensured(s, instance).fences, epoch, answer, newId);
  }

  /** Ten steps of a dispatch that nobody interrupts, from reading the fence to completing the row, leave the rows
      and results that the dispatch in one go leaves; where that raises after the claim, its row stays
      executing. */
  lemma DispatchesAlone(ws: seq<World>, t: Id, a: Action, instance: Id, key: Id, epoch: Id)
    requires OnlyCall(ws, t, a) && |ws| == 11 && Consistent(ws[0])
    requires M.MayBeSent(ws[0].store, instance, key, epoch) && t !in ws[0].store.dispatches
    requires t in ws[0].calls && ws[0].calls[t] == NewCall(ws[0].store, t, instance, key, epoch)
    ensures var s := ws[0].store;
      var done := M.Dispatched(s, t, instance, key, epoch, a.answer, a.newId);
      && Last(ws).dispatches == (if done.Some? then done.value.0.dispatches
                                 else M.ClaimedStore(s, t, instance, key, epoch).dispatches)
      && Last(ws).results == (if done.Some? then done.value.0.results else s.results)
  {
    hide Consistent, RecordAndComplete;
    var s, row := ws[0].store, M.NewRow(ws[0].store, t, instance, key, epoch);
    ReachesProvider(ws, t, a, instance, key, epoch);
    StepsKeepConsistent(ws, t, a, 4);
    assert RowsMatch(ws[4]) by { MatchesRows(ws[4]); }
    var rest := ws[4..];
    assert OnlyCall(rest, t, a) by {
      forall k | 0 <= k < |rest| - 1 ensures rest[k + 1] == Step(rest[k], a) {
        assert ws[4 + k + 1] == Step(ws[4 + k], a);
      }
    }
    SettlesAlone(rest, t, a, row, a.answer);
    EnsuredSame(s, instance, t, WithStatus(row, Executing), epoch, a.answer, a.newId);
    assert InsertDispatch(M.Ensured(s, instance), row).Some?;
    var inserted := InsertDispatch(M.Ensured(s, instance), row).value;
    assert inserted.(dispatches := inserted.dispatches[t := WithStatus(row, Executing)])
      == M.Ensured(s, instance).(dispatches := s.dispatches[t := WithStatus(row, Executing)]);
  }

  lemma MatchesRows(w: World)
    requires Consistent(w)
    ensures RowsMatch(w)
  {
  }

  // ----- The other two callers -----

  /** A result that is recorded for nobody's dispatch: from the read of the row to its write. */
  lemma RecordsOnly(ws: seq<World>, t: Id, a: Action, k: nat, r: DispatchResult)
    requires OnlyCall(ws, t, a) && k + 3 < |ws| && IdsMatch(ws[k].store)
    requires t in ws[k].calls && ws[k].calls[t] == Recording(Alone, r) && r.request in ws[k].store.dispatches
    ensures Last(ws) == Or(RecordResult(ws[k].store, r), ws[k].store)
  {
    hide Dispatching, Judge;
    var s, copy := ws[k].store, ws[k].store.dispatches[r.request];
    assert ws[k + 1] == Step(ws[k], a) && ws[k + 2] == Step(ws[k + 1], a) && ws[k + 3] == Step(ws[k + 2], a);
    assert ws[k + 1] == Goto(ws[k], t, Storing(Alone, r, copy));
    if SaveResult(s, r).None? || IsFinal(copy.status) { EndedStays(ws, t, a, k + 2); }
    else { EndedStays(ws, t, a, k + 3); }
  }

  /** Four steps of a report left alone leave what recording the result in one piece leaves, and the store untouched
      where that raises. */
  lemma ReportsAlone(ws: seq<World>, t: Id, a: Action, epoch: Id, r: DispatchResult)
    requires OnlyCall(ws, t, a) && |ws| == 5 && IdsMatch(ws[0].store)
    requires t in ws[0].calls && ws[0].calls[t] == Reporting(epoch, r)
    ensures var done := RecordProviderResult(ws[0].store, epoch, r, a.newId);
      Last(ws) == if done.Some? then done.value.0 else ws[0].store
  {
    hide Dispatching;
    assert ws[1] == Step(ws[0], a) && ws[2] == Step(ws[1], a);
    match Judge(ws[0].store, epoch, r)
    case Raise => EndedStays(ws, t, a, 1);
    case Reject => EndedStays(ws, t, a, 2);
    case Accept =>
      AcceptedExactly(ws[0].store, epoch, r);
      RecordsOnly(ws, t, a, 1, r);
  }

  /** Six steps of a dispatch whose claim was refused leave its row completed as cancelled, and the cancelled result
      recorded if its id is free or holds the same. */
  lemma RefusedAlone(ws: seq<World>, t: Id, a: Action, d: Dispatch)
    requires OnlyCall(ws, t, a) && |ws| == 7 && RowsMatch(ws[0])
    requires t in ws[0].calls && ws[0].calls[t] == Refused(d)
    ensures var r := CancelledResult(d, a.provider, a.newId);
      var completed := CompleteDispatch(ws[0].store, d.id, d.generation, r);
      completed.Some? && Last(ws) == Or(RecordResult(completed.value, r), completed.value)
  {
    hide Dispatching, Judge, RecordResult;
    var s, r := ws[0].store, CancelledResult(d, a.provider, a.newId);
    assert CallMatches(ws[0], t);
    var copy := s.dispatches[d.id];
    var after := CompleteDispatch(s, d.id, d.generation, r).value;
    assert ws[1] == Step(ws[0], a) && ws[2] == Step(ws[1], a) && ws[3] == Step(ws[2], a);
    assert ws[1] == Goto(ws[0], t, Completing(d, r, true));
    assert ws[2] == Goto(ws[1], t, Overwriting(d, r, copy, true));
    assert ws[3].store == after && ws[3].calls[t] == Recording(Alone, r);
    RecordsOnly(ws, t, a, 3, r);
  }
}
