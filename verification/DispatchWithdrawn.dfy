/** Withdrawn dispatches. Cancelled or quarantined work should stay so; recording and completing write
    back a row that was read earlier, outside any transaction (src/overseer/agent_manager.py:2013-2041,
    src/overseer/agent_operations.py:178-211), and can bring it back. Exactly which step does, exactly
    when some later step still can, and a run in which one does. */
module DispatchWithdrawn {
  import opened Contracts
  import opened Fences
  import opened DispatchStore
  import opened DispatchRuns

  predicate IsWithdrawnRow(w: World, x: Id) { x in w.store.dispatches && IsWithdrawn(w.store.dispatches[x].status) }

  /** The result leaves the row neither cancelled nor quarantined. */
  predicate Revives(r: DispatchResult) { !IsWithdrawn(Reached(r.state)) }

  /** A call about to write back a copy of row `x` that it read before the row was withdrawn, with a
      result that does not withdraw it. */
  predicate HoldsStale(c: Call, x: Id) {
    (c.Updating? || c.Overwriting?) && c.copy.id == x && !IsWithdrawn(c.copy.status) && Revives(c.result)
  }

  // ----- Which copies the stages hold -----

  predicate StageOk(c: Call) {
    && (c.Storing? ==> c.copy.id == c.result.request)
    && (c.Updating? ==> c.copy.id == c.result.request && !IsFinal(c.copy.status))
    && (c.Overwriting? ==> c.copy.id == c.request.id && !KeepsRow(c.copy, c.result))
  }

  ghost predicate StagesOk(w: World) { forall t | t in w.calls :: StageOk(w.calls[t]) }

  lemma SettlingStage(w: World, v: World, t: Id, provider: Id, newId: Id)
    requires t in w.calls && v == Settling(w, t, w.calls[t], provider, newId) && StageOk(w.calls[t])
    requires forall x | x in w.store.dispatches :: w.store.dispatches[x].id == x
    ensures t in v.calls ==> StageOk(v.calls[t])
  {
    hide Judge, SaveResult, RecordedRow, CompletedRow;
  }

  lemma StagesStep(w: World, a: Action)
    requires StagesOk(w) && Consistent(w)
    ensures StagesOk(Step(w, a))
  {
    hide Settling;
    var v := Step(w, a);
    if a.Advance? && a.call in w.calls {
      assert CallMatches(w, a.call);
      if IsDispatching(w.calls[a.call]) {
        assert forall u | u in v.calls && u != a.call :: u in w.calls && v.calls[u] == w.calls[u];
      }
      else {
        SettlingQuiet(w, v, a.call, a.provider, a.newId);
        SettlingStage(w, v, a.call, a.provider, a.newId);
      }
    }
  }

  lemma {:induction false} ReachableStages(actions: seq<Action>)
    ensures Consistent(Run(START, actions)) && StagesOk(Run(START, actions))
  {
    hide Step;
    RunsAreConsistent(actions);
    if actions != [] {
      ReachableStages(actions[..|actions| - 1]);
      StagesStep(Run(START, actions[..|actions| - 1]), actions[|actions| - 1]);
    }
  }

  // ----- Which step takes a row out of withdrawal -----

  /** Only the last step of a recording and of a completion write a row. */
  lemma OthersWriteNoRow(w: World, v: World, t: Id, provider: Id, newId: Id)
    requires t in w.calls && !IsDispatching(w.calls[t]) && v == Settling(w, t, w.calls[t], provider, newId)
    requires !w.calls[t].Updating? && !w.calls[t].Overwriting?
    ensures v.store.dispatches == w.store.dispatches
  {
  }

  lemma SettlingRow(w: World, v: World, t: Id, provider: Id, newId: Id, x: Id)
    requires t in w.calls && !IsDispatching(w.calls[t]) && v == Settling(w, t, w.calls[t], provider, newId)
    requires x in w.store.dispatches
    requires (CopyOf(w.calls[t]).Some? ==> CopyMatches(w.store.dispatches, CopyOf(w.calls[t]).value))
    ensures x in v.store.dispatches
    ensures v.store.dispatches[x]
      == if w.calls[t].Updating? && w.calls[t].copy.id == x then RecordedRow(w.calls[t].copy, w.calls[t].result)
         else if w.calls[t].Overwriting? && w.calls[t].copy.id == x
         then CompletedRow(w.calls[t].copy, w.calls[t].result)
         else w.store.dispatches[x]
  {
    if !w.calls[t].Updating? && !w.calls[t].Overwriting? { OthersWriteNoRow(w, v, t, provider, newId); }
  }

  lemma DispatchingKeeps(w: World, t: Id, answer: DispatchResult, x: Id)
    requires t in w.calls && CallMatches(w, t) && IsDispatching(w.calls[t]) && IsWithdrawnRow(w, x)
    ensures IsWithdrawnRow(Dispatching(w, t, w.calls[t], answer), x)
  {
  }

  /** The action lets such a call write. */
  predicate WritesStale(w: World, a: Action, x: Id) {
    a.Advance? && a.call in w.calls && HoldsStale(w.calls[a.call], x)
  }

  lemma RevivedExactlyHere(w: World, a: Action, x: Id)
    requires Consistent(w) && StagesOk(w) && IsWithdrawnRow(w, x)
    ensures x in Step(w, a).store.dispatches
    ensures !IsWithdrawnRow(Step(w, a), x) <==> WritesStale(w, a, x)
  {
    hide Settling, Dispatching;
    match a
    case Advance(t, answer, provider, newId) =>
      if t in w.calls {
        assert CallMatches(w, t) && StageOk(w.calls[t]);
        if IsDispatching(w.calls[t]) { DispatchingKeeps(w, t, answer, x); }
        else { SettlingRow(w, Step(w, a), t, provider, newId, x); }
      }
    case _ =>
  }

  /** In every run, a step takes a row out of {cancelled, quarantined} if and only if it writes back a copy
      that was read before the withdrawal, with a result that does not withdraw it. */
  lemma RevivedExactly(actions: seq<Action>, a: Action, x: Id)
    requires IsWithdrawnRow(Run(START, actions), x)
    ensures !IsWithdrawnRow(Step(Run(START, actions), a), x) <==> WritesStale(Run(START, actions), a, x)
  {
    ReachableStages(actions);
    RevivedExactlyHere(Run(START, actions), a, x);
  }

  // ----- When some later step still can -----

  /** A call that can still bring row `x` back: about to write a stale copy, or holding one with a result
      that the store will take. */
  predicate CanRevive(s: Store, c: Call, x: Id) {
    || HoldsStale(c, x)
    || (c.Storing? && c.copy.id == x && !IsFinal(c.copy.status) && Revives(c.result) && SaveResult(s, c.result).Some?)
  }

  predicate Revivable(w: World, x: Id) { exists t | t in w.calls :: CanRevive(w.store, w.calls[t], x) }

  /** Results are never changed or removed. */
  predicate ResultsStay(s: Store, t: Store) {
    forall r | r in s.results :: r in t.results && t.results[r] == s.results[r]
  }

  lemma SettlingResults(w: World, v: World, t: Id, provider: Id, newId: Id)
    requires t in w.calls && v == Settling(w, t, w.calls[t], provider, newId)
    ensures ResultsStay(w.store, v.store)
  {
    hide Judge, RecordedRow, CompletedRow, KeepsRow;
  }

  lemma ResultsStep(w: World, a: Action)
    ensures ResultsStay(w.store, Step(w, a).store)
  {
    match a
    case Advance(t, answer, provider, newId) =>
      if t in w.calls && !IsDispatching(w.calls[t]) { SettlingResults(w, Step(w, a), t, provider, newId); }
    case _ =>
  }

  /** A call comes to hold a stale copy of a withdrawn row only if it could revive it before. */
  lemma NoNewStale(w: World, v: World, t: Id, provider: Id, newId: Id, x: Id)
    requires t in w.calls && !IsDispatching(w.calls[t]) && v == Settling(w, t, w.calls[t], provider, newId)
    requires IsWithdrawnRow(w, x) && !CanRevive(w.store, w.calls[t], x)
    requires forall y | y in w.store.dispatches :: w.store.dispatches[y].id == y
    ensures t in v.calls ==> !CanRevive(v.store, v.calls[t], x)
  {
    hide Judge, RecordedRow, CompletedRow;
  }

  lemma OthersStayHarmless(s: Store, t: Store, c: Call, x: Id)
    requires !CanRevive(s, c, x) && ResultsStay(s, t)
    ensures !CanRevive(t, c, x)
  {
  }

  /** Which calls a step may change. */
  lemma CallsChanged(w: World, a: Action, u: Id)
    requires Consistent(w) && u in Step(w, a).calls
    ensures (u in w.calls && Step(w, a).calls[u] == w.calls[u])
      || (a.Advance? && a.call == u && u in w.calls)
      || (u == w.next && (Step(w, a).calls[u].Reading? || Step(w, a).calls[u].Reporting?))
  {
    hide Settling;
    if a.Advance? && a.call in w.calls && !IsDispatching(w.calls[a.call]) {
      assert CallMatches(w, a.call);
      SettlingQuiet(w, Step(w, a), a.call, a.provider, a.newId);
    }
  }

  lemma HarmlessStep(w: World, a: Action, x: Id)
    requires Consistent(w) && StagesOk(w) && IsWithdrawnRow(w, x) && !Revivable(w, x)
    ensures IsWithdrawnRow(Step(w, a), x) && !Revivable(Step(w, a), x)
  {
    hide Settling;
    var v := Step(w, a);
    RevivedExactlyHere(w, a, x);
    ResultsStep(w, a);
    forall u | u in v.calls ensures !CanRevive(v.store, v.calls[u], x) {
      CallsChanged(w, a, u);
      if u in w.calls && v.calls[u] == w.calls[u] { OthersStayHarmless(w.store, v.store, w.calls[u], x); }
      else if u in w.calls && a.Advance? && a.call == u && !IsDispatching(w.calls[u]) {
        NoNewStale(w, v, u, a.provider, a.newId, x);
      }
    }
  }

  lemma {:induction false} HarmlessForever(w: World, after: seq<Action>, x: Id)
    requires Consistent(w) && StagesOk(w) && IsWithdrawnRow(w, x) && !Revivable(w, x)
    ensures var v := Run(w, after); Consistent(v) && StagesOk(v) && IsWithdrawnRow(v, x) && !Revivable(v, x)
  {
    hide Step;
    if after != [] {
      HarmlessForever(w, after[..|after| - 1], x);
      var u, a := Run(w, after[..|after| - 1]), after[|after| - 1];
      HarmlessStep(u, a, x);
      StagesStep(u, a);
      StepKeepsConsistent(u, a);
    }
  }

  lemma OneMore(w: World, a: Action)
    ensures Run(w, [a]) == Step(w, a)
  {
    assert [a][..0] == [];
  }

  lemma TwoMore(w: World, a: Action, b: Action)
    ensures Run(w, [a, b]) == Step(Step(w, a), b)
  {
    assert [a, b][..1] == [a];
    OneMore(w, a);
  }

  lemma StoresAndWrites(w: World, t: Id, x: Id, a: Action)
    requires Consistent(w) && t in w.calls && w.calls[t].Storing? && CanRevive(w.store, w.calls[t], x) && a.Advance?
    requires a.call == t
    ensures t in Step(w, a).calls && HoldsStale(Step(w, a).calls[t], x)
    ensures Step(w, a).store.dispatches == w.store.dispatches
  {
  }

  /** A withdrawn row can come back in some continuation if and only if, now, some call in flight holds a
      copy read before the withdrawal together with a result that it can still write. */
  lemma ComesBackExactly(actions: seq<Action>, x: Id)
    requires IsWithdrawnRow(Run(START, actions), x)
    ensures Revivable(Run(START, actions), x) <==> exists after :: !IsWithdrawnRow(Run(Run(START, actions), after), x)
  {
    ReachableStages(actions);
    var w := Run(START, actions);
    if Revivable(w, x) {
      var t :| t in w.calls && CanRevive(w.store, w.calls[t], x);
      var a := Advance(t, w.calls[t].result, 0, 0);
      assert CallMatches(w, t);
      RevivedExactlyHere(w, a, x);
      if HoldsStale(w.calls[t], x) {
        OneMore(w, a);
        assert !IsWithdrawnRow(Run(w, [a]), x);
      } else {
        StoresAndWrites(w, t, x, a);
        var v := Step(w, a);
        StepKeepsConsistent(w, a);
        StagesStep(w, a);
        RevivedExactlyHere(v, a, x);
        TwoMore(w, a, a);
        assert !IsWithdrawnRow(Run(w, [a, a]), x);
      }
    } else {
      forall after ensures IsWithdrawnRow(Run(w, after), x) { HarmlessForever(w, after, x); }
    }
  }

  // ----- A run in which a drained dispatch succeeds -----

  const ROW: Dispatch := Dispatch(0, 1, 5, Named(2), 3, 1, Accepted, None, None, None)

  const CLAIMED: Dispatch := ROW.(status := Executing)

  function Success(): DispatchResult { DispatchResult(11, 0, 1, Named(2), 3, 4, Succeeded, None) }

  /** One open epoch in charge of instance 1. */
  function Lifecycle(fences: map<Id, Fence>, rows: map<Id, Dispatch>, results: map<Id, DispatchResult>): Store {
    Store(fences, {}, rows, map[3 := EpochRow(1, Named(2), 4, false, false)], map[1 := {3}], results)
  }

  function Next(r: DispatchResult): Action { Advance(0, r, 4, 20) }

  /** A dispatch on that epoch up to the provider's answer. */
  function Asking(r: DispatchResult): seq<Action> {
    [ChangeLifecycle({}, map[3 := EpochRow(1, Named(2), 4, false, false)], map[1 := {3}]), Begin(1, 5, Named(2), 3),
     Next(r), Next(r), Next(r), Next(r)]
  }

  function History(r: DispatchResult): seq<Event> { [Started(0, 1, 1), Called(0, 1, 5, r)] }

  lemma RunLast(w: World, actions: seq<Action>, a: Action)
    ensures Run(w, actions + [a]) == Step(Run(w, actions), a)
  {
    assert (actions + [a])[..|actions + [a]| - 1] == actions;
  }

  lemma {:induction false} RunJoin(w: World, first: seq<Action>, rest: seq<Action>)
    ensures Run(w, first + rest) == Run(Run(w, first), rest)
  {
    if rest == [] { assert first + rest == first; }
    else {
      RunJoin(w, first, rest[..|rest| - 1]);
      assert first + rest == (first + rest[..|rest| - 1]) + [rest[|rest| - 1]];
      RunLast(w, first + rest[..|rest| - 1], rest[|rest| - 1]);
    }
  }

  /** Begin, read the fence, write the row. */
  lemma Writes(r: DispatchResult)
    ensures Run(START, Asking(r)[..4]) == World(Lifecycle(map[], map[0 := ROW], map[]), map[0 := Claiming(ROW)], 1, [])
  {
    var todo := Asking(r);
    var a := World(Lifecycle(map[], map[], map[]), map[], 0, []);
    assert Step(START, todo[0]) == a;
    var b := World(a.store, map[0 := Reading(ROW.(generation := 0))], 1, []);
    assert Step(a, todo[1]) == b;
    var c := World(a.store, map[0 := Writing(ROW)], 1, []);
    assert Step(b, todo[2]) == c;
    assert InsertDispatch(c.store, ROW) == Some(Lifecycle(map[], map[0 := ROW], map[]));
    assert todo[..4] == [todo[0]] + [todo[1]] + [todo[2]] + [todo[3]];
    OneMore(START, todo[0]);
    RunLast(START, [todo[0]], todo[1]);
    RunLast(START, [todo[0]] + [todo[1]], todo[2]);
    RunLast(START, [todo[0]] + [todo[1]] + [todo[2]], todo[3]);
  }

  /** Claim it and call the provider. */
  lemma Asks(r: DispatchResult)
    ensures Run(START, Asking(r))
        == World(Lifecycle(map[], map[0 := CLAIMED], map[]), map[0 := Answered(ROW, r)], 1, History(r))
  {
    var todo := Asking(r);
    Writes(r);
    var d := World(Lifecycle(map[], map[0 := ROW], map[]), map[0 := Claiming(ROW)], 1, []);
    var e := World(Lifecycle(map[], map[0 := CLAIMED], map[]), map[0 := Calling(ROW)], 1, [Started(0, 1, 1)]);
    assert Step(d, Next(r)) == e;
    assert Step(e, Next(r)) == World(e.store, map[0 := Answered(ROW, r)], 1, History(r));
    assert todo == todo[..4] + [Next(r)] + [Next(r)];
    RunLast(START, todo[..4], Next(r));
    RunLast(START, todo[..4] + [Next(r)], Next(r));
  }

  lemma Accepts(fences: map<Id, Fence>, rows: map<Id, Dispatch>, results: map<Id, DispatchResult>, r: DispatchResult)
    requires 0 in rows && SameIdentity(rows[0], ROW)
    requires rows[0].status != Reached(Cancelled)
    requires r.request == 0 && r.instance == 1 && r.session == Named(2) && r.epoch == 3 && r.provider == 4
    ensures Judge(Lifecycle(fences, rows, results), 3, r) == Accept
  {
    AcceptedExactly(Lifecycle(fences, rows, results), 3, r);
  }

  const FENCE: Fence := Fenced(1, 9)

  /** The answer is admitted and the row read; then the fence is taken and the work drained. */
  function Draining(): seq<Action> {
    Asking(Success()) + [Next(Success())] + [Next(Success())] + [TakeFence(1, 9)] + [DrainInflight(1, FENCE)]
  }

  function DrainedWorld(): World {
    World(Lifecycle(map[1 := FENCE], map[0 := ROW.(status := Reached(Cancelled))], map[]),
          map[0 := Storing(ForDispatch(ROW), Success(), CLAIMED)], 1,
              History(Success()) + [Admitted(3, Success())] + [Reserved(1, 1)])
  }

  lemma Drains()
    ensures Run(START, Draining()) == DrainedWorld()
  {
    var r := Success();
    Asks(r);
    Accepts(map[], map[0 := CLAIMED], map[], r);
    var a := World(Lifecycle(map[], map[0 := CLAIMED], map[]), map[0 := Answered(ROW, r)], 1, History(r));
    var b := World(a.store, map[0 := Recording(ForDispatch(ROW), r)], 1, History(r) + [Admitted(3, r)]);
    assert Step(a, Next(r)) == b;
    var c := World(a.store, map[0 := Storing(ForDispatch(ROW), r, CLAIMED)], 1, b.trace);
    assert Step(b, Next(r)) == c;
    var d := World(Lifecycle(map[1 := FENCE], map[0 := CLAIMED], map[]), c.calls, 1, b.trace + [Reserved(1, 1)]);
    assert Step(c, TakeFence(1, 9)) == d;
    Cancels(d);
    RunLast(START, Asking(r), Next(r));
    RunLast(START, Asking(r) + [Next(r)], Next(r));
    RunLast(START, Asking(r) + [Next(r)] + [Next(r)], TakeFence(1, 9));
    RunLast(START, Asking(r) + [Next(r)] + [Next(r)] + [TakeFence(1, 9)], DrainInflight(1, FENCE));
  }

  lemma Cancels(w: World)
    requires w.store == Lifecycle(map[1 := FENCE], map[0 := CLAIMED], map[])
    ensures Step(w, DrainInflight(1, FENCE))
      == w.(store := Lifecycle(map[1 := FENCE], map[0 := ROW.(status := Reached(Cancelled))], map[]))
  {
    assert 0 in Inflight(w.store, 1, FENCE);
    assert CancelRows(w.store.dispatches, Inflight(w.store, 1, FENCE)) == map[0 := ROW.(status := Reached(Cancelled))];
  }

  /** The drained row is cancelled; two steps later the same dispatch has succeeded. */
  lemma DrainedDispatchSucceeds()
    ensures var w := Run(START, Draining());
      var v := Run(START, Draining() + [Next(Success())] + [Next(Success())]);
      && 0 in w.store.dispatches && w.store.dispatches[0].status == Reached(Cancelled)
      && 0 in v.store.dispatches && v.store.dispatches[0].status == Reached(Succeeded)
  {
    Drains();
    var r, w := Success(), DrainedWorld();
    RunLast(START, Draining(), Next(r));
    RunLast(START, Draining() + [Next(r)], Next(r));
    var a := w.(store := w.store.(results := map[11 := r]), calls := map[0 := Updating(ForDispatch(ROW), r, CLAIMED)]);
    assert SaveResult(w.store, r) == Some(a.store) by { assert w.store.results[11 := r] == map[11 := r]; }
    assert Step(w, Next(r)) == a;
  }
}
