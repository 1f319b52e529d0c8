/** Admission of provider results: only an answer for the open, only active epoch ever settles a dispatch
    row, over every run; late answers end quarantined. */
module DispatchAdmission {
  import opened Contracts
  import opened Fences
  import opened DispatchStore
  import opened DispatchRuns
  import opened DispatchWithdrawn

  /** The result was admitted for its epoch. */
  predicate InHistory(trace: seq<Event>, r: DispatchResult) { Admitted(r.epoch, r) in trace }

  /** Admitted, or a withdrawal that needs no admission. */
  predicate Cleared(trace: seq<Event>, r: DispatchResult) { IsWithdrawn(Reached(r.state)) || InHistory(trace, r) }

  /** A cleared result on its way into a row of epoch `epoch`. */
  predicate Bound(trace: seq<Event>, r: DispatchResult, epoch: Id) {
    IsWithdrawn(Reached(r.state)) || (InHistory(trace, r) && r.epoch == epoch)
  }

  /** The provider was asked to perform dispatch `x` and answered with this result. */
  predicate AnsweredWith(trace: seq<Event>, x: Id, r: DispatchResult) {
    exists k :: 0 <= k < |trace| && trace[k].Called? && trace[k].dispatch == x && trace[k].answer == r
  }

  predicate Stored(results: map<Id, DispatchResult>, r: DispatchResult) { r.id in results && results[r.id] == r }

  /** What a call still has to complete is a withdrawal or the provider's answer to its own dispatch. */
  predicate Own(trace: seq<Event>, r: DispatchResult, x: Id) {
    IsWithdrawn(Reached(r.state)) || AnsweredWith(trace, x, r)
  }

  predicate PurposeOk(trace: seq<Event>, r: DispatchResult, purpose: Purpose) {
    purpose.ForDispatch? ==> Bound(trace, r, purpose.request.epoch) && Own(trace, r, purpose.request.id)
  }

  predicate OwnWithdrawal(d: Dispatch, r: DispatchResult) { IsWithdrawn(Reached(r.state)) && r.request == d.id }

  predicate CompletesOk(s: Store, trace: seq<Event>, d: Dispatch, r: DispatchResult, record: bool) {
    && Bound(trace, r, d.epoch) && Own(trace, r, d.id) && (IsWithdrawn(Reached(r.state)) || Stored(s.results, r))
    && (record ==> OwnWithdrawal(d, r))
  }

  predicate CallOk(s: Store, trace: seq<Event>, c: Call) {
    match c
    case Answered(d, r) => AnsweredWith(trace, d.id, r)
    case Quarantining(_, q) => IsWithdrawn(Reached(q.state))
    case Recording(purpose, r) =>
      && Cleared(trace, r) && PurposeOk(trace, r, purpose)
      && r.request in s.dispatches && Bound(trace, r, s.dispatches[r.request].epoch)
    case Storing(purpose, r, copy) => Cleared(trace, r) && PurposeOk(trace, r, purpose) && Bound(trace, r, copy.epoch)
    case Updating(purpose, r, copy) =>
      Cleared(trace, r) && PurposeOk(trace, r, purpose) && Bound(trace, r, copy.epoch) && Stored(s.results, r)
    case Completing(d, r, record) => CompletesOk(s, trace, d, r, record)
    case Overwriting(d, r, copy, record) => CompletesOk(s, trace, d, r, record) && Bound(trace, r, copy.epoch)
    case _ => true
  }

  /** The row's result is stored, has the row's state, was admitted for the row's own epoch, and names the
      row or is what the provider answered to the row's own dispatch. */
  predicate SettledBy(results: map<Id, DispatchResult>, trace: seq<Event>, d: Dispatch)
    requires d.status.Reached?
  {
    && d.result.Some? && d.result.value in results
    && var r := results[d.result.value];
    && r.state == d.status.state && Admitted(d.epoch, r) in trace
    && (r.request == d.id || AnsweredWith(trace, d.id, r))
  }

  predicate IsSettled(d: Dispatch) { d.status.Reached? && !IsWithdrawn(d.status) }

  predicate RowOk(results: map<Id, DispatchResult>, trace: seq<Event>, d: Dispatch) {
    IsSettled(d) ==> SettledBy(results, trace, d)
  }

  ghost predicate AllAdmitted(w: World) {
    && (forall t | t in w.calls :: CallOk(w.store, w.trace, w.calls[t]))
    && (forall x | x in w.store.dispatches :: RowOk(w.store.results, w.trace, w.store.dispatches[x]))
    && (forall i | i in w.store.results :: Cleared(w.trace, w.store.results[i]))
  }

  // ----- Frames -----

  lemma RowStays(w: World, v: World, d: Dispatch)
    requires w.trace <= v.trace && ResultsStay(w.store, v.store) && RowOk(w.store.results, w.trace, d)
    ensures RowOk(v.store.results, v.trace, d)
  {
    HistoryGrows(w.trace, v.trace);
    if IsSettled(d) {
      var r := w.store.results[d.result.value];
      var k :| 0 <= k < |w.trace| && w.trace[k] == Admitted(d.epoch, r);
      assert v.trace[k] == w.trace[k];
    }
  }

  lemma HistoryGrows(trace: seq<Event>, later: seq<Event>)
    requires trace <= later
    ensures forall r | InHistory(trace, r) :: InHistory(later, r)
    ensures forall x, r | AnsweredWith(trace, x, r) :: AnsweredWith(later, x, r)
  {
    forall r | InHistory(trace, r) ensures InHistory(later, r) {
      var k :| 0 <= k < |trace| && trace[k] == Admitted(r.epoch, r);
      assert later[k] == trace[k];
    }
    forall x, r | AnsweredWith(trace, x, r) ensures AnsweredWith(later, x, r) {
      var k :| 0 <= k < |trace| && trace[k].Called? && trace[k].dispatch == x && trace[k].answer == r;
      assert later[k] == trace[k];
    }
  }

  /** A bound result that is stored makes a settled row. */
  lemma BoundRow(results: map<Id, DispatchResult>, trace: seq<Event>, copy: Dispatch, r: DispatchResult)
    requires Bound(trace, r, copy.epoch)
    requires IsWithdrawn(Reached(r.state))
        || (Stored(results, r) && (r.request == copy.id || AnsweredWith(trace, copy.id, r)))
    ensures RowOk(results, trace, RecordedRow(copy, r))
    ensures !KeepsRow(copy, r) ==> RowOk(results, trace, CompletedRow(copy, r))
  {
  }

  lemma CallFrame(w: World, v: World, u: Id)
    requires w.trace <= v.trace && u in w.calls && CallOk(w.store, w.trace, w.calls[u])
    requires RowsKeepKeys(w.store.dispatches, v.store.dispatches) && ResultsStay(w.store, v.store)
    ensures CallOk(v.store, v.trace, w.calls[u])
  {
    HistoryGrows(w.trace, v.trace);
  }

  // ----- The second half of a dispatch -----

  lemma JudgedCall(w: World, v: World, t: Id, purpose: Purpose, epoch: Id, r: DispatchResult, newId: Id)
    requires v == Judged(w, t, purpose, epoch, r, newId)
    requires purpose.ForDispatch? ==> purpose.request.epoch == epoch && AnsweredWith(w.trace, purpose.request.id, r)
    ensures v.store == w.store && w.trace <= v.trace
    ensures t in v.calls && Judge(w.store, epoch, r) != Raise ==> CallOk(v.store, v.trace, v.calls[t])
    ensures Judge(w.store, epoch, r) == Raise ==> t !in v.calls
    ensures Judge(w.store, epoch, r) != Accept ==> v.trace == w.trace
    ensures Judge(w.store, epoch, r) == Accept ==> v.trace == w.trace + [Admitted(epoch, r)]
  {
    AcceptedExactly(w.store, epoch, r);
    HistoryGrows(w.trace, v.trace);
    if Judge(w.store, epoch, r) == Accept { assert v.trace[|w.trace|] == Admitted(r.epoch, r); }
  }

  predicate SettledOk(w: World, v: World, t: Id) {
    && w.trace <= v.trace
    && (t in v.calls ==> CallOk(v.store, v.trace, v.calls[t]))
    && (forall x | x in v.store.dispatches
      && (x !in w.store.dispatches || v.store.dispatches[x] != w.store.dispatches[x]) ::
          RowOk(v.store.results, v.trace, v.store.dispatches[x]))
    && (forall i | i in v.store.results && (i !in w.store.results || v.store.results[i] != w.store.results[i]) ::
          Cleared(v.trace, v.store.results[i]))
  }

  lemma JudgingOk(w: World, v: World, t: Id, provider: Id, newId: Id)
    requires t in w.calls && v == Settling(w, t, w.calls[t], provider, newId)
    requires CallOk(w.store, w.trace, w.calls[t]) && (w.calls[t].Answered? || w.calls[t].Reporting?)
    ensures SettledOk(w, v, t)
  {
    match w.calls[t]
    case Answered(d, r) => JudgedCall(w, v, t, ForDispatch(d), d.epoch, r, newId);
    case Reporting(epoch, r) => JudgedCall(w, v, t, Alone, epoch, r, newId);
  }

  lemma QuarantiningOk(w: World, v: World, t: Id, provider: Id, newId: Id)
    requires t in w.calls && v == Settling(w, t, w.calls[t], provider, newId)
    requires CallOk(w.store, w.trace, w.calls[t]) && w.calls[t].Quarantining?
    ensures SettledOk(w, v, t)
  {
    assert v.store.dispatches == w.store.dispatches && v.trace == w.trace;
  }

  /** Storing the result leaves rows and history alone and goes on with the same result. */
  lemma StoringDoes(w: World, v: World, t: Id, provider: Id, newId: Id)
    requires t in w.calls && v == Settling(w, t, w.calls[t], provider, newId) && w.calls[t].Storing?
    ensures v.store.dispatches == w.store.dispatches && v.trace == w.trace
    ensures v.store.results == w.store.results
        || v.store.results == w.store.results[w.calls[t].result.id := w.calls[t].result]
    ensures t in v.calls ==>
      && Stored(v.store.results, w.calls[t].result)
      && (|| v.calls[t] == Updating(w.calls[t].purpose, w.calls[t].result, w.calls[t].copy)
          || (w.calls[t].purpose.ForDispatch?
            && v.calls[t] == Completing(w.calls[t].purpose.request, w.calls[t].result, false)))
  {
    hide Judge, CompletedRow, RecordedRow, KeepsRow;
  }

  lemma StoringOk(w: World, v: World, t: Id, provider: Id, newId: Id)
    requires t in w.calls && v == Settling(w, t, w.calls[t], provider, newId)
    requires CallOk(w.store, w.trace, w.calls[t]) && w.calls[t].Storing?
    ensures SettledOk(w, v, t)
  {
    hide Settling;
    StoringDoes(w, v, t, provider, newId);
  }

  lemma ReadingOk(w: World, v: World, t: Id, provider: Id, newId: Id)
    requires t in w.calls && CallMatches(w, t) && v == Settling(w, t, w.calls[t], provider, newId)
    requires CallOk(w.store, w.trace, w.calls[t]) && StageOk(w.calls[t])
    requires w.calls[t].Recording? || w.calls[t].Completing? || w.calls[t].Refused?
    requires forall x | x in w.store.dispatches :: w.store.dispatches[x].id == x
    ensures SettledOk(w, v, t)
  {
  }

  lemma WritingOk(w: World, v: World, t: Id, provider: Id, newId: Id)
    requires t in w.calls && CallMatches(w, t) && v == Settling(w, t, w.calls[t], provider, newId)
    requires CallOk(w.store, w.trace, w.calls[t]) && StageOk(w.calls[t])
    requires w.calls[t].Updating? || w.calls[t].Overwriting?
    ensures SettledOk(w, v, t)
  {
    BoundRow(w.store.results, w.trace, w.calls[t].copy, w.calls[t].result);
  }

  lemma SettlingOk(w: World, v: World, t: Id, provider: Id, newId: Id)
    requires Consistent(w) && StagesOk(w) && AllAdmitted(w) && t in w.calls && !IsDispatching(w.calls[t])
    requires v == Settling(w, t, w.calls[t], provider, newId)
    ensures SettledOk(w, v, t)
  {
    assert CallMatches(w, t) && StageOk(w.calls[t]) && CallOk(w.store, w.trace, w.calls[t]);
    var c := w.calls[t];
    if c.Answered? || c.Reporting? { JudgingOk(w, v, t, provider, newId); }
    else if c.Quarantining? { QuarantiningOk(w, v, t, provider, newId); }
    else if c.Storing? { StoringOk(w, v, t, provider, newId); }
    else if c.Updating? || c.Overwriting? { WritingOk(w, v, t, provider, newId); }
    else { ReadingOk(w, v, t, provider, newId); }
  }

  /** Put a step together. */
  lemma Assemble(w: World, v: World, t: Id)
    requires AllAdmitted(w) && SettledOk(w, v, t) && RowsKeepKeys(w.store.dispatches, v.store.dispatches)
    requires ResultsStay(w.store, v.store)
    requires forall u | u in v.calls && u != t :: u in w.calls && v.calls[u] == w.calls[u]
    ensures AllAdmitted(v)
  {
    HistoryGrows(w.trace, v.trace);
    forall u | u in v.calls ensures CallOk(v.store, v.trace, v.calls[u]) {
      if u != t { CallFrame(w, v, u); }
    }
    forall x | x in v.store.dispatches ensures RowOk(v.store.results, v.trace, v.store.dispatches[x]) {
      if x in w.store.dispatches && v.store.dispatches[x] == w.store.dispatches[x] {
        RowStays(w, v, v.store.dispatches[x]);
      }
    }
  }

  lemma DispatchingOk(w: World, v: World, t: Id, answer: DispatchResult)
    requires t in w.calls && CallMatches(w, t) && IsDispatching(w.calls[t]) && !w.calls[t].Claiming?
    requires v == Dispatching(w, t, w.calls[t], answer)
    ensures SettledOk(w, v, t) && RowsKeepKeys(w.store.dispatches, v.store.dispatches)
    ensures forall u | u in v.calls && u != t :: u in w.calls && v.calls[u] == w.calls[u]
  {
    if w.calls[t].Calling? {
      assert v.trace[|w.trace|]
          == Called(w.calls[t].request.id, w.calls[t].request.instance, w.calls[t].request.key, answer);
    }
  }

  lemma ClaimingOk(w: World, v: World, t: Id)
    requires t in w.store.dispatches && t in v.store.dispatches && v.store.results == w.store.results
    requires w.trace <= v.trace
    requires v.store.dispatches
        == w.store.dispatches[t := WithStatus(w.store.dispatches[t], v.store.dispatches[t].status)]
    requires v.store.dispatches[t].status in {w.store.dispatches[t].status, Executing, Reached(Cancelled)}
    requires t in v.calls && (v.calls[t].Refused? || v.calls[t].Calling?)
    ensures SettledOk(w, v, t) && RowsKeepKeys(w.store.dispatches, v.store.dispatches)
  {
  }

  lemma OtherOk(w: World, v: World, a: Action)
    requires !a.Advance? && w.next !in w.calls && v == Step(w, a)
    ensures SettledOk(w, v, w.next) && RowsKeepKeys(w.store.dispatches, v.store.dispatches)
    ensures forall u | u in v.calls && u != w.next :: u in w.calls && v.calls[u] == w.calls[u]
  {
    hide Dispatching, Settling;
  }

  lemma AdmittedStep(w: World, a: Action)
    requires Consistent(w) && StagesOk(w) && AllAdmitted(w)
    ensures AllAdmitted(Step(w, a))
  {
    hide Settling, Dispatching;
    var v := Step(w, a);
    ResultsStep(w, a);
    if !a.Advance? {
      assert w.next !in w.calls;
      OtherOk(w, v, a);
      Assemble(w, v, w.next);
    } else if a.call in w.calls {
      assert CallMatches(w, a.call);
      if w.calls[a.call].Claiming? {
        ClaimEffect(w, v, a.call, a.answer);
        ClaimingOk(w, v, a.call);
      }
      else if IsDispatching(w.calls[a.call]) { DispatchingOk(w, v, a.call, a.answer); }
      else {
        SettlingQuiet(w, v, a.call, a.provider, a.newId);
        SettlingOk(w, v, a.call, a.provider, a.newId);
      }
      Assemble(w, v, a.call);
    }
  }

  lemma {:induction false} RunsAdmit(actions: seq<Action>)
    ensures AllAdmitted(Run(START, actions))
  {
    hide Step;
    if actions != [] {
      var most := actions[..|actions| - 1];
      RunsAdmit(most);
      ReachableStages(most);
      AdmittedStep(Run(START, most), actions[|actions| - 1]);
    }
  }

  // ----- Over every run -----

  /** The epoch is open and the only active one, and agrees with result and request on every binding. */
  predicate Admissible(s: Store, epoch: Id, r: DispatchResult) {
    && r.request in s.dispatches && epoch in s.epochs
    && var d, e := s.dispatches[r.request], s.epochs[epoch];
    && d.status != Reached(Cancelled)
    && r.instance == d.instance == e.instance && r.session == d.session == e.session
    && r.epoch == d.epoch == epoch && r.provider == e.provider
    && !e.closed && s.ActiveEpochs(e.instance) == {epoch}
  }

  lemma AdmissionHere(w: World, v: World, a: Action)
    requires Consistent(w) && AllAdmitted(w) && v == Step(w, a)
    ensures forall k | |w.trace| <= k < |v.trace| && v.trace[k].Admitted? ::
        Admissible(w.store, v.trace[k].epoch, v.trace[k].result)
  {
    if a.Advance? && a.call in w.calls {
      assert CallMatches(w, a.call) && CallOk(w.store, w.trace, w.calls[a.call]);
      match w.calls[a.call]
      case Answered(d, r) =>
        JudgedCall(w, v, a.call, ForDispatch(d), d.epoch, r, a.newId);
        AcceptedExactly(w.store, d.epoch, r);
      case Reporting(epoch, r) =>
        JudgedCall(w, v, a.call, Alone, epoch, r, a.newId);
        AcceptedExactly(w.store, epoch, r);
      case _ =>
    }
  }

  /** In every run, a result is admitted only at a moment when request, result and epoch agree on every
      binding and that epoch is the open, only active one. */
  lemma AdmittedOnlyWhenActive(actions: seq<Action>, a: Action)
    ensures var w, v := Run(START, actions), Step(Run(START, actions), a);
      forall k | |w.trace| <= k < |v.trace| && v.trace[k].Admitted? ::
          Admissible(w.store, v.trace[k].epoch, v.trace[k].result)
  {
    RunsAreConsistent(actions);
    RunsAdmit(actions);
    AdmissionHere(Run(START, actions), Step(Run(START, actions), a), a);
  }

  /** In every run, a row that ended other than cancelled or quarantined ended by a stored result that was
      admitted for the row's own epoch and names the row or answered its dispatch; and every stored result was
      admitted or is withdrawn: what arrives late is kept quarantined and settles nothing. */
  lemma OnlyAdmittedResultsSettle(actions: seq<Action>)
    ensures var w := Run(START, actions);
      && (forall x | x in w.store.dispatches && IsSettled(w.store.dispatches[x]) ::
            SettledBy(w.store.results, w.trace, w.store.dispatches[x]))
      && (forall i | i in w.store.results :: Cleared(w.trace, w.store.results[i]))
  {
    RunsAdmit(actions);
    var w := Run(START, actions);
    forall x | x in w.store.dispatches && IsSettled(w.store.dispatches[x])
      ensures SettledBy(w.store.results, w.trace, w.store.dispatches[x])
    {
      assert RowOk(w.store.results, w.trace, w.store.dispatches[x]);
    }
  }

  /** In every run, the result of a settled row whose dispatch was sent to the provider names that row if and
      only if the provider's answer does, or the row holds another result than that answer. */
  lemma ResultNamesRowExactly(actions: seq<Action>, x: Id, k: nat)
    requires var w := Run(START, actions);
      && x in w.store.dispatches && IsSettled(w.store.dispatches[x])
      && k < |w.trace| && w.trace[k].Called? && w.trace[k].dispatch == x
    ensures var w := Run(START, actions);
      && SettledBy(w.store.results, w.trace, w.store.dispatches[x])
      && var r := w.store.results[w.store.dispatches[x].result.value];
      (r.request == x <==> w.trace[k].answer.request == x || r != w.trace[k].answer)
  {
    RunsAreConsistent(actions);
    OnlyAdmittedResultsSettle(actions);
    var w := Run(START, actions);
    var r := w.store.results[w.store.dispatches[x].result.value];
    if r.request != x {
      var j :| 0 <= j < |w.trace| && w.trace[j].Called? && w.trace[j].dispatch == x && w.trace[j].answer == r;
      assert j == k || j < k || k < j;
    }
  }

  // ----- A run in which an answer names another request -----

  // Dispatch 0 has its row and nothing more; the provider answers dispatch 1 with a result for request 0.

  const OTHER: Dispatch := ROW.(id := 1, key := 6)

  const BUSY: Dispatch := OTHER.(status := Executing)

  function Foreign(): DispatchResult { Success() }

  function Go(t: Id): Action { Advance(t, Foreign(), 4, 20) }

  function Rows(mine: Dispatch, other: Dispatch): map<Id, Dispatch> { map[0 := mine, 1 := other] }

  /** A world of this run: call 0 stands before its claim. */
  function Scene(rows: map<Id, Dispatch>, results: map<Id, DispatchResult>, c: Call, trace: seq<Event>): World {
    World(Lifecycle(map[], rows, results), map[0 := Claiming(ROW), 1 := c], 2, trace)
  }

  function Opening(): seq<Action> {
    [ChangeLifecycle({}, map[3 := EpochRow(1, Named(2), 4, false, false)], map[1 := {3}])]
    + [Begin(1, 5, Named(2), 3)] + [Go(0)] + [Go(0)] + [Begin(1, 6, Named(2), 3)]
  }

  lemma Opens()
    ensures Run(START, Opening()) == Scene(map[0 := ROW], map[], Reading(OTHER.(generation := 0)), [])
  {
    var first := ChangeLifecycle({}, map[3 := EpochRow(1, Named(2), 4, false, false)], map[1 := {3}]);
    var a := World(Lifecycle(map[], map[], map[]), map[], 0, []);
    assert Step(START, first) == a;
    var b := World(a.store, map[0 := Reading(ROW.(generation := 0))], 1, []);
    assert Step(a, Begin(1, 5, Named(2), 3)) == b;
    var c := World(a.store, map[0 := Writing(ROW)], 1, []);
    assert Step(b, Go(0)) == c;
    var d := World(Lifecycle(map[], map[0 := ROW], map[]), map[0 := Claiming(ROW)], 1, []);
    assert InsertDispatch(c.store, ROW) == Some(d.store);
    assert Step(c, Go(0)) == d;
    OneMore(START, first);
    RunLast(START, [first], Begin(1, 5, Named(2), 3));
    RunLast(START, [first] + [Begin(1, 5, Named(2), 3)], Go(0));
    RunLast(START, [first] + [Begin(1, 5, Named(2), 3)] + [Go(0)], Go(0));
    RunLast(START, [first] + [Begin(1, 5, Named(2), 3)] + [Go(0)] + [Go(0)], Begin(1, 6, Named(2), 3));
  }

  function Asked(): seq<Event> { [Started(1, 1, 1), Called(1, 1, 6, Foreign())] }

  lemma WritesOther(w: World)
    requires w == Scene(map[0 := ROW], map[], Reading(OTHER.(generation := 0)), [])
    ensures Run(w, [Go(1)] + [Go(1)]) == Scene(Rows(ROW, OTHER), map[], Claiming(OTHER), [])
  {
    hide Settling;
    var a := Scene(map[0 := ROW], map[], Writing(OTHER), []);
    assert Step(w, Go(1)) == a by { assert w.calls[1 := Writing(OTHER)] == a.calls; }
    var b := Scene(Rows(ROW, OTHER), map[], Claiming(OTHER), []);
    assert InsertDispatch(a.store, OTHER)
        == Some(b.store) by { assert a.store.dispatches[1 := OTHER] == Rows(ROW, OTHER); }
    assert Step(a, Go(1)) == b by { assert a.calls[1 := Claiming(OTHER)] == b.calls; }
    OneMore(w, Go(1));
    RunLast(w, [Go(1)], Go(1));
  }

  lemma AsksOther(w: World)
    requires w == Scene(Rows(ROW, OTHER), map[], Claiming(OTHER), [])
    ensures Run(w, [Go(1)] + [Go(1)]) == Scene(Rows(ROW, BUSY), map[], Answered(OTHER, Foreign()), Asked())
  {
    hide Settling, InsertDispatch;
    var c := Scene(Rows(ROW, BUSY), map[], Calling(OTHER), [Started(1, 1, 1)]);
    assert Step(w, Go(1)) == c by {
      assert w.store.dispatches[1 := BUSY] == Rows(ROW, BUSY) && w.calls[1 := Calling(OTHER)] == c.calls;
    }
    var d := Scene(Rows(ROW, BUSY), map[], Answered(OTHER, Foreign()), Asked());
    assert Step(c, Go(1)) == d by { assert c.calls[1 := Answered(OTHER, Foreign())] == d.calls; }
    OneMore(w, Go(1));
    RunLast(w, [Go(1)], Go(1));
  }

  function Admitting(): seq<Event> { Asked() + [Admitted(3, Foreign())] }

  lemma RecordsOther(w: World)
    requires w == Scene(Rows(ROW, BUSY), map[], Answered(OTHER, Foreign()), Asked())
    ensures Run(w, [Go(1)] + [Go(1)] + [Go(1)])
      == Scene(Rows(ROW, BUSY), map[11 := Foreign()], Updating(ForDispatch(OTHER), Foreign(), ROW), Admitting())
  {
    hide Dispatching;
    var r := Foreign();
    Accepts(map[], Rows(ROW, BUSY), map[], r);
    var a := Scene(Rows(ROW, BUSY), map[], Recording(ForDispatch(OTHER), r), Admitting());
    assert Step(w, Go(1)) == a by { assert w.calls[1 := Recording(ForDispatch(OTHER), r)] == a.calls; }
    var b := Scene(Rows(ROW, BUSY), map[], Storing(ForDispatch(OTHER), r, ROW), Admitting());
    assert Step(a, Go(1)) == b by { assert a.calls[1 := Storing(ForDispatch(OTHER), r, ROW)] == b.calls; }
    var c := Scene(Rows(ROW, BUSY), map[11 := r], Updating(ForDispatch(OTHER), r, ROW), Admitting());
    assert Step(b, Go(1)) == c by {
      assert SaveResult(b.store, r) == Some(c.store) by { assert b.store.results[11 := r] == map[11 := r]; }
      assert b.calls[1 := Updating(ForDispatch(OTHER), r, ROW)] == c.calls;
    }
    OneMore(w, Go(1));
    RunLast(w, [Go(1)], Go(1));
    RunLast(w, [Go(1)] + [Go(1)], Go(1));
  }

  lemma WritesNamed(w: World)
    requires w
        == Scene(Rows(ROW, BUSY), map[11 := Foreign()], Updating(ForDispatch(OTHER), Foreign(), ROW), Admitting())
    ensures Step(w, Go(1))
      == Scene(Rows(RecordedRow(ROW, Foreign()), BUSY), map[11 := Foreign()], Completing(OTHER, Foreign(), false),
        Admitting())
  {
    hide Judge;
    var r, mine := Foreign(), RecordedRow(ROW, Foreign());
    var a := Scene(Rows(mine, BUSY), map[11 := r], Completing(OTHER, r, false), Admitting());
    assert w.store.dispatches[0 := mine] == Rows(mine, BUSY) && w.calls[1 := Completing(OTHER, r, false)] == a.calls;
  }

  lemma WritesOwn(w: World, mine: Dispatch)
    requires w == Scene(Rows(mine, BUSY), map[11 := Foreign()], Completing(OTHER, Foreign(), false), Admitting())
    ensures Step(Step(w, Go(1)), Go(1)).store
      == Lifecycle(map[], Rows(mine, CompletedRow(BUSY, Foreign())), map[11 := Foreign()])
  {
    hide Judge;
    var r := Foreign();
    var b := Scene(Rows(mine, BUSY), map[11 := r], Overwriting(OTHER, r, BUSY, false), Admitting());
    assert Step(w, Go(1)) == b by { assert w.calls[1 := Overwriting(OTHER, r, BUSY, false)] == b.calls; }
    assert b.store.dispatches[1 := CompletedRow(BUSY, r)] == Rows(mine, CompletedRow(BUSY, r));
  }

  lemma WritesBoth(w: World)
    requires w
        == Scene(Rows(ROW, BUSY), map[11 := Foreign()], Updating(ForDispatch(OTHER), Foreign(), ROW), Admitting())
    ensures Run(w, [Go(1)] + [Go(1)] + [Go(1)]).store
      == Lifecycle(map[], Rows(RecordedRow(ROW, Foreign()), CompletedRow(BUSY, Foreign())), map[11 := Foreign()])
  {
    hide Step;
    WritesNamed(w);
    WritesOwn(Step(w, Go(1)), RecordedRow(ROW, Foreign()));
    OneMore(w, Go(1));
    RunLast(w, [Go(1)], Go(1));
    RunLast(w, [Go(1)] + [Go(1)], Go(1));
  }

  /** Dispatch 1 ends by a result that names request 0, and the same result settles dispatch 0, for which the
      provider was never asked. */
  lemma AnswerSettlesAnother() returns (actions: seq<Action>)
    ensures var s := Run(START, actions).store;
      && 0 in s.dispatches && 1 in s.dispatches && 11 in s.results && s.results[11].request == 0
      && s.dispatches[1].status == Reached(Succeeded) && s.dispatches[1].result == Some(11)
      && s.dispatches[0].status == Reached(Succeeded) && s.dispatches[0].result == Some(11)
  {
    Opens();
    var two, three := [Go(1)] + [Go(1)], [Go(1)] + [Go(1)] + [Go(1)];
    WritesOther(Run(START, Opening()));
    RunJoin(START, Opening(), two);
    AsksOther(Run(START, Opening() + two));
    RunJoin(START, Opening() + two, two);
    RecordsOther(Run(START, Opening() + two + two));
    RunJoin(START, Opening() + two + two, three);
    WritesBoth(Run(START, Opening() + two + two + three));
    RunJoin(START, Opening() + two + two + three, three);
    actions := Opening() + two + two + three + three;
  }
}
