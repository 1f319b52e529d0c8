/** `AgentOperationCoordinator` (src/overseer/agent_operations.py) as code over the fences and
    dispatch rows, each method proved against the atomic steps of `DispatchStore`. What interleavings
    make of those steps is proved in `DispatchRuns`. */
module OperationCoordinator {
  import opened Contracts
  import opened Fences
  import opened DispatchStore

  // ----- What draining achieves -----

  /** After the cancellation of in-flight work nothing of the held generation or an older one is left. */
  lemma CancelledIsQuiescent(s: Store, instance: Id, held: Fence)
    requires CancelInflight(s, instance, held).Some?
    ensures Inflight(CancelInflight(s, instance, held).value, instance, held) == {}
  {
    var t := CancelInflight(s, instance, held).value;
    forall x | x in t.dispatches ensures x !in Inflight(t, instance, held) {
      if x in Inflight(s, instance, held) { assert IsTerminal(t.dispatches[x].status); }
    }
  }

  /** Draining twice is draining once: cancelling the unclaimed work first changes nothing for the
      cancellation of everything in flight. */
  lemma UnclaimedFirst(s: Store, instance: Id, held: Fence)
    requires s.FenceOf(instance) == held
    ensures var t := CancelUnclaimed(s, instance, held).value;
      && CancelUnclaimed(s, instance, held).Some? && t.FenceOf(instance) == held
      && CancelInflight(t, instance, held) == CancelInflight(s, instance, held)
      && Inflight(t, instance, held) == Inflight(s, instance, held) - Unclaimed(s, instance, held)
  {
    var t := CancelUnclaimed(s, instance, held).value;
    assert Inflight(t, instance, held) == Inflight(s, instance, held) - Unclaimed(s, instance, held);
    assert CancelRows(t.dispatches, Inflight(t, instance, held))
        == CancelRows(s.dispatches, Inflight(s, instance, held));
  }

  /** What a drain leaves: the unclaimed work cancelled, and the rest too once the provider's cancel
      was needed and verified. */
  function Drained(s: Store, instance: Id, held: Fence, verified: bool): Option<Store> {
    var t :- CancelUnclaimed(s, instance, held);
    if Inflight(t, instance, held) == {} then Some(t)
    else if verified then CancelInflight(s, instance, held)
    else None
  }

  /** A drain that succeeds leaves nothing in flight, touches no other row, and keeps the fence. */
  lemma DrainLeavesQuiescence(s: Store, instance: Id, held: Fence, verified: bool)
    requires Drained(s, instance, held, verified).Some?
    ensures var t := Drained(s, instance, held, verified).value;
      && Inflight(t, instance, held) == {} && t.fences == s.fences && t.dispatches.Keys == s.dispatches.Keys
      && forall x | x in s.dispatches && x !in Inflight(s, instance, held) :: t.dispatches[x] == s.dispatches[x]
  {
    UnclaimedFirst(s, instance, held);
    CancelledIsQuiescent(s, instance, held);
  }

  /** Work that has come to no end: accepted, executing, or reported as queued, acknowledged or running. */
  predicate StillOpen(s: Status) {
    || s == Accepted || s == Executing
    || (s.Reached? && (s.state == Queued || s.state == Acknowledged || s.state == Running))
  }

  predicate OpenUnder(d: Dispatch, instance: Id, held: Fence) {
    d.instance == instance && d.generation <= held.generation && StillOpen(d.status)
  }

  /** A drain succeeds exactly when the reservation still holds the fence, and the provider's cancel was verified if
      anything was claimed; it cancels exactly the open work of its generation or an older one, and nothing that
      has ended in whatever way. */
  lemma DrainsExactly(s: Store, instance: Id, held: Fence, verified: bool)
    ensures var drained := Drained(s, instance, held, verified);
      var claimed := exists x :: x in s.dispatches && OpenUnder(s.dispatches[x], instance, held)
                                 && s.dispatches[x].status != Accepted;
      && (drained.Some? <==> s.FenceOf(instance) == held && (claimed ==> verified))
      && (drained.Some? ==>
            && drained.value == s.(dispatches := drained.value.dispatches)
            && drained.value.dispatches.Keys == s.dispatches.Keys
            && forall x | x in s.dispatches :: drained.value.dispatches[x]
                 == var d := s.dispatches[x];
                    if OpenUnder(d, instance, held) then d.(status := Reached(Cancelled)) else d)
  {
    if s.FenceOf(instance) == held {
      UnclaimedFirst(s, instance, held);
      var t := CancelUnclaimed(s, instance, held).value;
      assert forall x | x in s.dispatches ::
          x in Inflight(s, instance, held) <==> OpenUnder(s.dispatches[x], instance, held);
      var rest := Inflight(t, instance, held);
      assert rest == Inflight(s, instance, held) - Unclaimed(s, instance, held);
      if rest != {} {
        var x :| x in rest;
        assert s.dispatches[x].status != Accepted;
      } else {
        forall x | x in s.dispatches && OpenUnder(s.dispatches[x], instance, held)
          ensures s.dispatches[x].status == Accepted
        {
          assert x !in rest;
        }
      }
    }
  }

  // ----- The coordinator -----

  class Coordinator {
    var fences: map<Id, Fence>
    var transitioning: set<Id>
    var dispatches: map<Id, Dispatch>
    var epochs: map<Id, EpochRow>
    var authoritative: map<Id, set<Id>>
    var results: map<Id, DispatchResult>

    function View(): Store
      reads this
    {
      Store(fences, transitioning, dispatches, epochs, authoritative, results)
    }

    constructor ()
      ensures View() == Store(map[], {}, map[], map[], map[], map[])
    {
      fences, transitioning, dispatches, epochs, authoritative, results := map[], {}, map[], map[], map[], map[];
    }

    /** `ensure_agent_operation`: a missing row is inserted open at the first generation. */
    method EnsureOperation(instance: Id) returns (current: Fence)
      modifies this`fences
      ensures current == old(View()).FenceOf(instance)
      ensures fences == old(fences)[instance := current]
    {
      if instance !in fences { fences := fences[instance := INITIAL]; }
      current := fences[instance];
    }

    /** Take the fence; the reservation that is handed back is what a release must present. */
    method Reserve(instance: Id, token: Id) returns (held: Option<Fence>)
      modifies this`fences
      ensures held.Some? <==> old(View()).FenceOf(instance).Open?
      ensures held.Some? ==>
        && held.value == Fenced(old(View()).FenceOf(instance).generation, token)
        && ReserveFence(old(View()), instance, token) == Some(View())
      ensures held.None? ==> forall i :: View().FenceOf(i) == old(View()).FenceOf(i)
    {
      var current := EnsureOperation(instance);
      if current.Fenced? { return None; }
      fences := fences[instance := Fenced(current.generation, token)];
      assert fences == old(fences)[instance := Fenced(current.generation, token)];
      return Some(fences[instance]);
    }

    /** Compare-and-set release. */
    method Release(instance: Id, held: Fence) returns (ok: bool)
      modifies this`fences
      ensures ok == ReleaseFence(old(View()), instance, held).Some?
      ensures View() == if ok then ReleaseFence(old(View()), instance, held).value else old(View())
    {
      ok := held.Fenced? && View().FenceOf(instance) == held;
      if ok { fences := fences[instance := Open(held.generation + 1)]; }
    }

    /** Opens the fence exactly when the presented reservation is the one that holds it. */
    method ReleaseIfOwned(instance: Id, held: Fence) returns (released: bool)
      modifies this`fences
      ensures released <==> held.Fenced? && old(View()).FenceOf(instance) == held
      ensures released ==> View().FenceOf(instance) == Open(held.generation + 1)
      ensures !released ==> View() == old(View())
    {
      if View().FenceOf(instance) != held { return false; }
      released := Release(instance, held);
    }

    /** `accept_dispatch` without interruption between its read and its write. */
    method AcceptDispatch(d: Dispatch) returns (accepted: Option<Dispatch>)
      modifies this`fences, this`dispatches
      ensures var f := old(View()).FenceOf(d.instance);
        var row := d.(generation := f.generation, status := Accepted);
        && (accepted.Some? <==> f.Open? && InsertDispatch(old(View()), row).Some?)
        && (accepted.Some? ==> accepted.value == row && dispatches == InsertDispatch(old(View()), row).value.dispatches)
        && (accepted.None? ==> dispatches == old(dispatches))
        && fences == old(fences)[d.instance := f]
    {
      var f := EnsureOperation(d.instance);
      if f.Fenced? { return None; }
      var row := d.(generation := f.generation, status := Accepted);
      if row.id in dispatches || d.instance in transitioning || View().HasKey(row.instance, row.key) { return None; }
      dispatches := dispatches[row.id := row];
      return Some(row);
    }

    /** `claim_dispatch_execution`; an unknown dispatch raises. */
    method ClaimDispatchExecution(id: Id) returns (granted: Option<bool>)
      modifies this`dispatches
      ensures granted.Some? <==> id in old(dispatches)
      ensures granted.Some? ==> (View(), granted.value) == ClaimDispatch(old(View()), id)
      ensures granted.None? ==> View() == old(View())
      ensures granted.Some? ==>
        var d, open := old(dispatches)[id],
            old(View()).FenceOf(old(dispatches)[id].instance) == Open(old(dispatches)[id].generation);
        && (granted.value <==> d.status == Executing || (d.status == Accepted && open))
        && dispatches == old(dispatches)[id :=
             if d.status == Accepted then d.(status := if open then Executing else Reached(Cancelled)) else d]
    {
      if id !in dispatches { return None; }
      var d := dispatches[id];
      if d.status != Accepted { return Some(d.status == Executing); }
      var mayExecute := View().FenceOf(d.instance) == Open(d.generation);
      dispatches := dispatches[id := d.(status := if mayExecute then Executing else Reached(Cancelled))];
      return Some(mayExecute);
    }

    /** `complete_dispatch` without interruption between its read and its write. */
    method CompleteExecution(id: Id, generation: nat, r: DispatchResult) returns (ok: bool)
      modifies this`dispatches
      ensures ok <==> id in old(dispatches) && old(dispatches)[id].generation == generation
      ensures ok ==>
        var d := old(dispatches)[id];
        var withdrawn, withdraws := d.status in {Reached(Cancelled), Reached(Quarantined)},
            r.state in {Cancelled, Quarantined};
        dispatches == old(dispatches)[id :=
          if withdrawn && !withdraws then d
          else d.(status := Reached(r.state), result := Some(r.id), provider := Some(r.provider),
                  reason := if r.category.None? then d.reason else r.category)]
      ensures ok == CompleteDispatch(old(View()), id, generation, r).Some?
      ensures View() == if ok then CompleteDispatch(old(View()), id, generation, r).value else old(View())
    {
      ok := id in dispatches && dispatches[id].generation == generation;
      if !ok { return; }
      var d := dispatches[id];
      if IsWithdrawn(d.status) && !IsWithdrawn(Reached(r.state)) { return; }
      dispatches := dispatches[id := d.(result := Some(r.id), provider := Some(r.provider), status := Reached(r.state),
                                        reason := if r.category.Some? then r.category else d.reason)];
    }

    /** The loop over chosen rows that overwrites each with `cancelled`. */
    method CancelEach(chosen: set<Id>)
      requires chosen <= dispatches.Keys
      modifies this`dispatches
      ensures dispatches == CancelRows(old(dispatches), chosen)
    {
      var todo := chosen;
      while todo != {}
        invariant todo <= chosen
        invariant dispatches.Keys == old(dispatches).Keys
        invariant forall x | x in dispatches ::
          dispatches[x] == if x in chosen - todo then WithStatus(old(dispatches)[x], Reached(Cancelled))
          else old(dispatches)[x]
        decreases todo
      {
        var x :| x in todo;
        dispatches := dispatches[x := dispatches[x].(status := Reached(Cancelled))];
        todo := todo - {x};
      }
    }

    method CancelUnclaimedWork(instance: Id, held: Fence) returns (ok: bool)
      modifies this`dispatches
      ensures ok == CancelUnclaimed(old(View()), instance, held).Some?
      ensures View() == if ok then CancelUnclaimed(old(View()), instance, held).value else old(View())
    {
      ok := View().FenceOf(instance) == held;
      if ok { CancelEach(Unclaimed(View(), instance, held)); }
    }

    /** `cancel_and_verify`; `verified` is the judgement of the provider's answer. */
    method CancelAndVerify(instance: Id, held: Fence, verified: bool) returns (ok: bool)
      modifies this`dispatches
      ensures ok == (verified && CancelInflight(old(View()), instance, held).Some?)
      ensures View() == if ok then CancelInflight(old(View()), instance, held).value else old(View())
    {
      ok := verified && View().FenceOf(instance) == held;
      if ok { CancelEach(Inflight(View(), instance, held)); }
    }

    /** `drain`, when nobody else moves while it waits: it succeeds exactly when `Drained` does, and then
        nothing of the held generation or an older one is left in flight. */
    method Drain(instance: Id, held: Fence, verified: bool) returns (ok: bool)
      modifies this`dispatches
      ensures ok == Drained(old(View()), instance, held, verified).Some?
      ensures ok ==> View() == Drained(old(View()), instance, held, verified).value
      ensures ok ==> Inflight(View(), instance, held) == {}
    {
      ghost var before := View();
      ok := CancelUnclaimedWork(instance, held);
      if !ok { return; }
      UnclaimedFirst(before, instance, held);
      if Inflight(View(), instance, held) != {} { ok := CancelAndVerify(instance, held, verified); }
      if ok { DrainLeavesQuiescence(before, instance, held, verified); }
    }
  }
}
