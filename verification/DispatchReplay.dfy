/** Exactly what can still happen to the row of a finished dispatch call, and so when a repeated key is
    answered the same for ever. Recording takes its several steps here too, interleaved with all others. */
module DispatchReplay {
  import opened Contracts
  import opened Fences
  import opened DispatchStore
  import opened DispatchRuns
  import opened DispatchWithdrawn

  /** The call that wrote row `x` is over. */
  predicate Idle(w: World, x: Id) { x in w.store.dispatches && x !in w.calls }

  /** The action cancels the row: a drain of its instance, holding the fence at the row's generation or
      a later one, while the row has not ended. */
  predicate Cancels(w: World, a: Action, x: Id)
    requires x in w.store.dispatches
  {
    var d := w.store.dispatches[x];
    && (a.DrainInflight? || (a.DrainUnclaimed? && d.status == Accepted))
    && w.store.FenceOf(a.instance) == a.held && d.instance == a.instance
    && d.generation <= a.held.generation && !IsTerminal(d.status)
  }

  /** The action is the last step of recording a further result of this request. */
  predicate Rewrites(w: World, a: Action, x: Id) {
    a.Advance? && a.call in w.calls && w.calls[a.call].Updating? && w.calls[a.call].copy.id == x
  }

  /** The row after the action. */
  function RowAfter(w: World, a: Action, x: Id): Dispatch
    requires x in w.store.dispatches
  {
    if Cancels(w, a, x) then WithStatus(w.store.dispatches[x], Reached(Cancelled))
    else if Rewrites(w, a, x) then RecordedRow(w.calls[a.call].copy, w.calls[a.call].result)
    else w.store.dispatches[x]
  }

  lemma AdvancedRow(w: World, a: Action, x: Id)
    requires Consistent(w) && StagesOk(w) && Idle(w, x) && a.Advance? && a.call in w.calls
    ensures x in Step(w, a).store.dispatches && Step(w, a).store.dispatches[x] == RowAfter(w, a, x)
  {
    assert CallMatches(w, a.call) && StageOk(w.calls[a.call]);
    if !IsDispatching(w.calls[a.call]) { SettlingRow(w, Step(w, a), a.call, a.provider, a.newId, x); }
  }

  lemma StaysIdle(w: World, a: Action, x: Id)
    requires Consistent(w) && Idle(w, x) && x in Step(w, a).store.dispatches
    ensures Idle(Step(w, a), x)
  {
    if x in Step(w, a).calls { CallsChanged(w, a, x); }
  }

  /** Once its call is over, a dispatch row changes only by a drain or by the last step of recording a
      further result, and exactly as said. */
  lemma FinishedRowAfter(w: World, a: Action, x: Id)
    requires Consistent(w) && StagesOk(w) && Idle(w, x)
    ensures Idle(Step(w, a), x) && Step(w, a).store.dispatches[x] == RowAfter(w, a, x)
  {
    hide Dispatching, Settling;
    if a.Advance? && a.call in w.calls { AdvancedRow(w, a, x); }
    StaysIdle(w, a, x);
  }

  /** The action neither drains the row nor writes a result into it that differs from what it holds. */
  predicate Undisturbed(w: World, a: Action, x: Id)
    requires x in w.store.dispatches
  {
    && !Cancels(w, a, x)
    && (Rewrites(w, a, x) ==> ReplayView(w.calls[a.call].result) == ReplayOf(w.store.dispatches[x]))
  }

  lemma RowAfterReplays(w: World, a: Action, x: Id)
    requires x in w.store.dispatches
    ensures ReplayOf(RowAfter(w, a, x)) == ReplayOf(w.store.dispatches[x]) <==> Undisturbed(w, a, x)
  {
  }

  /** In every run, the answer that a finished row gives survives an action exactly when the action leaves
      the row undisturbed. */
  lemma ReplayKeptExactly(actions: seq<Action>, a: Action, x: Id)
    requires Idle(Run(START, actions), x)
    ensures var w, v := Run(START, actions), Step(Run(START, actions), a);
      Idle(v, x) && (ReplayOf(v.store.dispatches[x]) == ReplayOf(w.store.dispatches[x]) <==> Undisturbed(w, a, x))
  {
    ReachableStages(actions);
    FinishedRowAfter(Run(START, actions), a, x);
    RowAfterReplays(Run(START, actions), a, x);
  }

  /** Every action of the continuation leaves the row undisturbed. */
  predicate LeftAlone(w: World, actions: seq<Action>, x: Id) {
    forall k | 0 <= k < |actions| ::
      x in Run(w, actions[..k]).store.dispatches && Undisturbed(Run(w, actions[..k]), actions[k], x)
  }

  /** Whatever state it reached, a finished row that is left alone answers its key the same for ever. */
  lemma {:induction false} LeftAloneReplays(before: seq<Action>, after: seq<Action>, x: Id)
    requires Idle(Run(START, before), x) && LeftAlone(Run(START, before), after, x)
    ensures var w, v := Run(START, before), Run(Run(START, before), after);
      && Consistent(v) && StagesOk(v) && Idle(v, x)
      && ReplayOf(v.store.dispatches[x]) == ReplayOf(w.store.dispatches[x])
  {
    hide Step;
    ReachableStages(before);
    var w := Run(START, before);
    if after != [] {
      var most, a := after[..|after| - 1], after[|after| - 1];
      forall k | 0 <= k < |most| ensures
        x in Run(w, most[..k]).store.dispatches && Undisturbed(Run(w, most[..k]), most[k], x)
      {
        assert most[..k] == after[..k] && most[k] == after[k];
      }
      LeftAloneReplays(before, most, x);
      FinishedRowAfter(Run(w, most), a, x);
      RowAfterReplays(Run(w, most), a, x);
      StepKeepsConsistent(Run(w, most), a);
      StagesStep(Run(w, most), a);
    }
  }

  // ----- Final rows -----

  /** A call that can still change what final row `x` answers: it holds a copy read before the row became
      final, and a result that differs from the row's and that the store will take. */
  predicate CanDisturb(s: Store, c: Call, x: Id)
    requires x in s.dispatches
  {
    && (c.Updating? || (c.Storing? && !IsFinal(c.copy.status) && SaveResult(s, c.result).Some?))
    && c.copy.id == x && ReplayView(c.result) != ReplayOf(s.dispatches[x])
  }

  predicate Disturbable(w: World, x: Id)
    requires x in w.store.dispatches
  {
    exists t | t in w.calls :: CanDisturb(w.store, w.calls[t], x)
  }

  ghost predicate Settled(w: World, x: Id) {
    && Consistent(w) && StagesOk(w) && Idle(w, x) && IsFinal(w.store.dispatches[x].status) && !Disturbable(w, x)
  }

  lemma SettlingHarmless(w: World, v: World, t: Id, provider: Id, newId: Id, x: Id)
    requires Settled(w, x) && t in w.calls && !IsDispatching(w.calls[t])
    requires v == Settling(w, t, w.calls[t], provider, newId)
    requires x in v.store.dispatches && ReplayOf(v.store.dispatches[x]) == ReplayOf(w.store.dispatches[x])
    ensures t in v.calls ==> !CanDisturb(v.store, v.calls[t], x)
  {
    assert !CanDisturb(w.store, w.calls[t], x);
  }

  lemma SettledStep(w: World, a: Action, x: Id)
    requires Settled(w, x)
    ensures Settled(Step(w, a), x) && ReplayOf(Step(w, a).store.dispatches[x]) == ReplayOf(w.store.dispatches[x])
  {
    hide Settling;
    var v := Step(w, a);
    StepKeepsConsistent(w, a);
    StagesStep(w, a);
    FinishedRowAfter(w, a, x);
    assert Rewrites(w, a, x) ==> !CanDisturb(w.store, w.calls[a.call], x);
    RowAfterReplays(w, a, x);
    ResultsStep(w, a);
    forall u | u in v.calls ensures !CanDisturb(v.store, v.calls[u], x) {
      CallsChanged(w, a, u);
      if u in w.calls && v.calls[u] == w.calls[u] { assert !CanDisturb(w.store, w.calls[u], x); }
      else if u in w.calls && a.Advance? && a.call == u && !IsDispatching(w.calls[u]) {
        SettlingHarmless(w, v, u, a.provider, a.newId, x);
      }
    }
  }

  lemma {:induction false} SettledForever(w: World, after: seq<Action>, x: Id)
    requires Settled(w, x)
    ensures Settled(Run(w, after), x) && ReplayOf(Run(w, after).store.dispatches[x]) == ReplayOf(w.store.dispatches[x])
  {
    hide Step;
    if after != [] {
      SettledForever(w, after[..|after| - 1], x);
      SettledStep(Run(w, after[..|after| - 1]), after[|after| - 1], x);
    }
  }

  /** Row `x` answers its key as it does in `w`. */
  predicate SameAnswer(w: World, v: World, x: Id) {
    x in w.store.dispatches && x in v.store.dispatches
        && ReplayOf(v.store.dispatches[x]) == ReplayOf(w.store.dispatches[x])
  }

  lemma StoresFirst(w: World, t: Id, x: Id, a: Action)
    requires Consistent(w) && Idle(w, x) && t in w.calls && w.calls[t].Storing? && CanDisturb(w.store, w.calls[t], x)
    requires a.Advance? && a.call == t
    ensures Step(w, a).store.dispatches == w.store.dispatches && Rewrites(Step(w, a), a, x)
    ensures Step(w, a).calls[t].result == w.calls[t].result
  {
  }

  /** After its call has ended with a final state, every later call with the same key is answered from the
      same row with the same result id, state, category and provider, whatever happens, if and only if no
      call in flight still holds a copy from before with a different result to write. */
  lemma AnswersTheSameExactly(before: seq<Action>, x: Id)
    requires var w := Run(START, before); Idle(w, x) && IsFinal(w.store.dispatches[x].status)
    ensures var w := Run(START, before);
      !Disturbable(w, x) <==> forall after :: SameAnswer(w, Run(w, after), x)
  {
    ReachableStages(before);
    var w := Run(START, before);
    if !Disturbable(w, x) {
      forall after ensures SameAnswer(w, Run(w, after), x) { SettledForever(w, after, x); }
    } else {
      var t :| t in w.calls && CanDisturb(w.store, w.calls[t], x);
      var a := Advance(t, w.calls[t].result, 0, 0);
      Disturbs(w, t, a, x);
      if w.calls[t].Updating? {
        OneMore(w, a);
        assert !SameAnswer(w, Run(w, [a]), x);
      } else {
        TwoMore(w, a, a);
        assert !SameAnswer(w, Run(w, [a, a]), x);
      }
    }
  }

  lemma Disturbs(w: World, t: Id, a: Action, x: Id)
    requires Consistent(w) && StagesOk(w) && Idle(w, x) && t in w.calls && CanDisturb(w.store, w.calls[t], x)
    requires a.Advance? && a.call == t
    ensures !SameAnswer(w, if w.calls[t].Updating? then Step(w, a) else Step(Step(w, a), a), x)
  {
    FinishedRowAfter(w, a, x);
    if w.calls[t].Updating? { RowAfterReplays(w, a, x); }
    else {
      StoresFirst(w, t, x, a);
      var v := Step(w, a);
      StepKeepsConsistent(w, a);
      StagesStep(w, a);
      FinishedRowAfter(v, a, x);
      RowAfterReplays(v, a, x);
    }
  }

  // ----- Replays that change -----

  function Failure(): DispatchResult { DispatchResult(10, 0, 1, Named(2), 3, 4, OpFailed, Some(DispatchTimeout)) }

  /** The six steps that record an answer of dispatch 0 and complete its row, uninterrupted. */
  function Finishing(r: DispatchResult): seq<Action> {
    [Next(r)] + [Next(r)] + [Next(r)] + [Next(r)] + [Next(r)] + [Next(r)]
  }

  /** The world after the admission, and after the result is stored. */
  function Before(w: World, r: DispatchResult, c: Call): World {
    w.(calls := w.calls[0 := c], trace := w.trace + [Admitted(3, r)])
  }

  function Stored(w: World, r: DispatchResult, row: Dispatch, c: Call): World {
    Before(w, r, c).(store := Lifecycle(map[], map[0 := row], map[r.id := r]))
  }

  predicate Answering(w: World, r: DispatchResult) {
    && w.store == Lifecycle(map[], map[0 := CLAIMED], map[]) && 0 in w.calls && w.calls[0] == Answered(ROW, r)
    && r in {Success(), Failure()}
  }

  lemma Records(w: World, r: DispatchResult)
    requires Answering(w, r)
    ensures Run(w, [Next(r)] + [Next(r)] + [Next(r)]) == Stored(w, r, CLAIMED, Updating(ForDispatch(ROW), r, CLAIMED))
  {
    hide Dispatching, CompletedRow, RecordedRow;
    Accepts(map[], map[0 := CLAIMED], map[], r);
    var b := Before(w, r, Recording(ForDispatch(ROW), r));
    assert Step(w, Next(r)) == b;
    var c := Before(w, r, Storing(ForDispatch(ROW), r, CLAIMED));
    assert Step(b, Next(r)) == c by { assert b.calls[0 := c.calls[0]] == c.calls; }
    assert SaveResult(c.store, r) == Some(Lifecycle(map[], map[0 := CLAIMED], map[r.id := r])) by {
      assert c.store.results[r.id := r] == map[r.id := r];
    }
    OneMore(w, Next(r));
    RunLast(w, [Next(r)], Next(r));
    RunLast(w, [Next(r)] + [Next(r)], Next(r));
  }

  lemma Writes(w: World, v: World, r: DispatchResult)
    requires v == Stored(w, r, CLAIMED, Updating(ForDispatch(ROW), r, CLAIMED))
    ensures Step(v, Next(r)) == Stored(w, r, RecordedRow(ROW, r), Completing(ROW, r, false))
  {
    var e := Stored(w, r, RecordedRow(ROW, r), Completing(ROW, r, false));
    assert v.store.dispatches[0 := RecordedRow(ROW, r)] == e.store.dispatches;
    assert v.calls[0 := e.calls[0]] == e.calls;
  }

  lemma ReadsAgain(w: World, v: World, r: DispatchResult)
    requires v == Stored(w, r, RecordedRow(ROW, r), Completing(ROW, r, false)) && r in {Success(), Failure()}
    ensures Step(v, Next(r)) == Stored(w, r, RecordedRow(ROW, r), Overwriting(ROW, r, RecordedRow(ROW, r), false))
  {
    var f := Stored(w, r, RecordedRow(ROW, r), Overwriting(ROW, r, RecordedRow(ROW, r), false));
    assert v.calls[0 := f.calls[0]] == f.calls;
  }

  function Ended(w: World, r: DispatchResult): World {
    World(Lifecycle(map[], map[0 := RecordedRow(ROW, r)], map[r.id := r]), w.calls - {0}, w.next,
        w.trace + [Admitted(3, r)])
  }

  lemma Ends(w: World, v: World, r: DispatchResult)
    requires v == Stored(w, r, RecordedRow(ROW, r), Overwriting(ROW, r, RecordedRow(ROW, r), false))
    requires r in {Success(), Failure()}
    ensures Step(v, Next(r)) == Ended(w, r)
  {
    var row := RecordedRow(ROW, r);
    assert CompletedRow(row, r) == row && v.store.dispatches[0 := row] == v.store.dispatches;
    assert v.calls - {0} == w.calls - {0};
  }

  lemma Finishes(w: World, r: DispatchResult)
    requires Answering(w, r)
    ensures Run(w, Finishing(r)) == Ended(w, r)
  {
    Records(w, r);
    var most := [Next(r)] + [Next(r)] + [Next(r)];
    Writes(w, Run(w, most), r);
    RunLast(w, most, Next(r));
    ReadsAgain(w, Run(w, most + [Next(r)]), r);
    RunLast(w, most + [Next(r)], Next(r));
    Ends(w, Run(w, most + [Next(r)] + [Next(r)]), r);
    RunLast(w, most + [Next(r)] + [Next(r)], Next(r));
  }

  function Report(r: DispatchResult): Action { Advance(1, r, 4, 21) }

  /** The report of a further result for the same request up to its read of the row, and its two last steps. */
  function ReportReads(r: DispatchResult): seq<Action> { [BeginReport(3, r)] + [Report(r)] + [Report(r)] }

  function ReportWrites(r: DispatchResult): seq<Action> { [Report(r), Report(r)] }

  lemma Reads(w: World, r: DispatchResult)
    requires 0 in w.store.dispatches && w.next == 1 && r in {Success(), Failure()}
    requires w.store == Lifecycle(map[], map[0 := w.store.dispatches[0]], w.store.results)
    requires SameIdentity(w.store.dispatches[0], ROW)
    requires w.store.dispatches[0].status != Reached(Cancelled)
    ensures Run(w, ReportReads(r))
        == World(w.store, w.calls[1 := Storing(Alone, r, w.store.dispatches[0])], 2, w.trace + [Admitted(3, r)])
  {
    Accepts(map[], w.store.dispatches, w.store.results, r);
    var a := w.(calls := w.calls[1 := Reporting(3, r)], next := 2);
    assert Step(w, BeginReport(3, r)) == a;
    var b := a.(calls := w.calls[1 := Recording(Alone, r)], trace := a.trace + [Admitted(3, r)]);
    assert Step(a, Report(r)) == b by { assert a.calls[1 := b.calls[1]] == b.calls; }
    var c := b.(calls := w.calls[1 := Storing(Alone, r, w.store.dispatches[0])]);
    assert Step(b, Report(r)) == c by { assert b.calls[1 := c.calls[1]] == c.calls; }
    OneMore(w, BeginReport(3, r));
    RunLast(w, [BeginReport(3, r)], Report(r));
    RunLast(w, [BeginReport(3, r)] + [Report(r)], Report(r));
  }

  lemma Overwrites(w: World, r: DispatchResult, copy: Dispatch)
    requires 1 in w.calls && w.calls[1] == Storing(Alone, r, copy) && copy.id == 0 && !IsFinal(copy.status)
    requires r.id !in w.store.results
    ensures var v := Run(w, ReportWrites(r));
    0 in v.store.dispatches && ReplayOf(v.store.dispatches[0]) == ReplayView(r)
  {
    TwoMore(w, Report(r), Report(r));
    var v := Step(w, Report(r));
    assert 1 in v.calls && v.calls[1] == Updating(Alone, r, copy);
  }

  /** A failed dispatch is not final: a later result for the same request, reported while its epoch is
      still active, changes what its key is answered with. */
  lemma FailedReplayChanges()
    ensures var w := Run(START, Asking(Failure()) + Finishing(Failure()));
      var v := Run(w, ReportReads(Success()) + ReportWrites(Success()));
      && Idle(w, 0) && 0 in v.store.dispatches
      && ReplayOf(w.store.dispatches[0]) == ReplayView(Failure())
      && ReplayOf(v.store.dispatches[0]) == ReplayView(Success())
  {
    Asks(Failure());
    Finishes(Run(START, Asking(Failure())), Failure());
    RunJoin(START, Asking(Failure()), Finishing(Failure()));
    var w := Run(START, Asking(Failure()) + Finishing(Failure()));
    Reads(w, Success());
    Overwrites(Run(w, ReportReads(Success())), Success(), RecordedRow(ROW, Failure()));
    RunJoin(w, ReportReads(Success()), ReportWrites(Success()));
  }

  /** Even a final answer changes when a further report read the row before the dispatch ended: success
      turns into failure. */
  lemma FinalReplayChanges()
    ensures var w := Run(START, Asking(Success()) + ReportReads(Failure()) + Finishing(Success()));
      var v := Run(w, ReportWrites(Failure()));
      && Idle(w, 0) && Disturbable(w, 0) && w.store.dispatches[0].status == Reached(Succeeded)
      && 0 in v.store.dispatches && v.store.dispatches[0].status == Reached(OpFailed)
  {
    Asks(Success());
    var a := Run(START, Asking(Success()));
    Reads(a, Failure());
    RunJoin(START, Asking(Success()), ReportReads(Failure()));
    var b := Run(START, Asking(Success()) + ReportReads(Failure()));
    Finishes(b, Success());
    RunJoin(START, Asking(Success()) + ReportReads(Failure()), Finishing(Success()));
    var w := Run(START, Asking(Success()) + ReportReads(Failure()) + Finishing(Success()));
    assert w.calls[1] == Storing(Alone, Failure(), CLAIMED) && CanDisturb(w.store, w.calls[1], 0);
    Overwrites(w, Failure(), CLAIMED);
  }
}
