/** Dispatch records and the generation-bound operations on them (src/overseer/agent_operations.py;
    the recording and replay helpers of src/overseer/agent_manager.py; the insert trigger of
    src/overseer/store.py). Every function gives the store after one atomic step, `None` when the
    step raises. */
module DispatchStore {
  import opened Contracts
  import opened Fences

  datatype ErrorCategory =
    | UnsupportedCapability | ConfigurationError | ProviderUnavailable | SessionNotFound
    | AuthenticationRequired | DispatchRejected | DispatchTimeout | ProviderProtocolError
    | PolicyBlocked | HandoffIncompatible | CheckpointStale | WasCancelled | WasQuarantined

  datatype Status = Accepted | Executing | Reached(state: OperationState)

  datatype Dispatch = Dispatch(
    id: Id, instance: Id, key: Id, session: SessionId, epoch: Id, generation: nat,
    status: Status, result: Option<Id>, provider: Option<Id>, reason: Option<ErrorCategory>)

  datatype DispatchResult = DispatchResult(
    id: Id, request: Id, instance: Id, session: SessionId, epoch: Id, provider: Id,
    state: OperationState, category: Option<ErrorCategory>)

  /** `paused` is any state in which an epoch takes no dispatches. */
  datatype EpochRow = EpochRow(instance: Id, session: SessionId, provider: Id, closed: bool, paused: bool)

  datatype Store = Store(
    fences: map<Id, Fence>,
    transitioning: set<Id>,
    dispatches: map<Id, Dispatch>,
    epochs: map<Id, EpochRow>,
    authoritative: map<Id, set<Id>>,
    results: map<Id, DispatchResult>)
  {
    function FenceOf(instance: Id): Fence { if instance in fences then fences[instance] else INITIAL }

    function ActiveEpochs(instance: Id): set<Id> {
      if instance in authoritative then authoritative[instance] else {}
    }

    predicate HasKey(instance: Id, key: Id) {
      exists x | x in dispatches :: dispatches[x].instance == instance && dispatches[x].key == key
    }
  }

  // ----- Status classes -----

  /** `_TERMINAL_DISPATCH_STATUSES` of the coordinator. */
  predicate IsTerminal(s: Status) {
    s.Reached? && s.state in {Succeeded, OpFailed, OpBlocked, Cancelled, Quarantined}
  }

  /** `_TERMINAL_RESULT_STATES` of the manager. */
  predicate IsFinal(s: Status) { s.Reached? && s.state in {Succeeded, Cancelled, Quarantined} }

  /** Withdrawn work: cancelled or quarantined. */
  predicate IsWithdrawn(s: Status) { s.Reached? && s.state in {Cancelled, Quarantined} }

  // ----- The fence and the dispatch life cycle -----

  function ReserveFence(s: Store, instance: Id, token: Id): Option<Store> {
    var f :- Reserve(s.FenceOf(instance), token);
    Some(s.(fences := s.fences[instance := f]))
  }

  function ReleaseFence(s: Store, instance: Id, held: Fence): Option<Store> {
    var f :- Release(s.FenceOf(instance), held);
    Some(s.(fences := s.fences[instance := f]))
  }

  /** The row insert: one row per instance and key, and the trigger refuses it while a transition
      is active or the fence is not open at the row's generation. */
  function InsertDispatch(s: Store, d: Dispatch): Option<Store> {
    if s.HasKey(d.instance, d.key) || d.id in s.dispatches then None
    else if d.instance in s.transitioning || s.FenceOf(d.instance) != Open(d.generation) then None
    else Some(s.(dispatches := s.dispatches[d.id := d]))
  }

  function WithStatus(d: Dispatch, status: Status): Dispatch { d.(status := status) }

  predicate MayExecute(s: Store, d: Dispatch) { s.FenceOf(d.instance) == Open(d.generation) }

  /** `claim_dispatch_execution`: the row after the claim, and the answer to the caller. */
  function ClaimDispatch(s: Store, id: Id): (Store, bool)
    requires id in s.dispatches
  {
    var d := s.dispatches[id];
    if d.status != Accepted then (s, d.status == Executing)
    else
      var status := if MayExecute(s, d) then Executing else Reached(Cancelled);
      (s.(dispatches := s.dispatches[id := WithStatus(d, status)]), MayExecute(s, d))
  }

  /** `complete_dispatch` leaves withdrawn work alone unless the result withdraws it again. */
  predicate KeepsRow(d: Dispatch, r: DispatchResult) { IsWithdrawn(d.status) && !IsWithdrawn(Reached(r.state)) }

  /** The row `complete_dispatch` writes over the row it read. */
  function CompletedRow(d: Dispatch, r: DispatchResult): Dispatch {
    if KeepsRow(d, r) then d
    else d.(result := Some(r.id), provider := Some(r.provider), status := Reached(r.state),
            reason := if r.category.Some? then r.category else d.reason)
  }

  function CompleteDispatch(s: Store, id: Id, generation: nat, r: DispatchResult): Option<Store> {
    if id !in s.dispatches || s.dispatches[id].generation != generation then None
    else Some(s.(dispatches := s.dispatches[id := CompletedRow(s.dispatches[id], r)]))
  }

  // ----- Draining -----

  /** `_inflight`: unfinished work of this instance bound to the held generation or an older one. */
  function Inflight(s: Store, instance: Id, held: Fence): set<Id> {
    set x | x in s.dispatches && s.dispatches[x].instance == instance
            && s.dispatches[x].generation <= held.generation && !IsTerminal(s.dispatches[x].status)
  }

  function Unclaimed(s: Store, instance: Id, held: Fence): set<Id> {
    set x | x in Inflight(s, instance, held) && s.dispatches[x].status == Accepted
  }

  function CancelRows(rows: map<Id, Dispatch>, chosen: set<Id>): map<Id, Dispatch> {
    map x | x in rows :: if x in chosen then WithStatus(rows[x], Reached(Cancelled)) else rows[x]
  }

  function CancelUnclaimed(s: Store, instance: Id, held: Fence): Option<Store> {
    if s.FenceOf(instance) != held then None
    else Some(s.(dispatches := CancelRows(s.dispatches, Unclaimed(s, instance, held))))
  }

  function CancelInflight(s: Store, instance: Id, held: Fence): Option<Store> {
    if s.FenceOf(instance) != held then None
    else Some(s.(dispatches := CancelRows(s.dispatches, Inflight(s, instance, held))))
  }

  // ----- Recording provider results -----

  /** Result rows are immutable: the same id may only be written with the same content. */
  function SaveResult(s: Store, r: DispatchResult): Option<Store> {
    if r.id in s.results && s.results[r.id] != r then None
    else Some(s.(results := s.results[r.id := r]))
  }

  datatype Verdict = Accept | Reject | Raise

  /** The checks of `record_provider_result`, in source order. */
  function Judge(s: Store, epoch: Id, r: DispatchResult): Verdict {
    if r.request !in s.dispatches then Reject
    else
      var d := s.dispatches[r.request];
      if d.status == Reached(Cancelled) then Reject
      else if epoch !in s.epochs then Reject
      else
        var e := s.epochs[epoch];
        var active := s.ActiveEpochs(e.instance);
        if active == {} then Reject
        else if |active| > 1 then Raise
        else if !(d.instance == r.instance == e.instance && d.session == r.session == e.session
                  && d.epoch == r.epoch == epoch && r.provider == e.provider) then Reject
        else if e.closed || epoch !in active then Reject
        else Accept
  }

  function QuarantinedResult(r: DispatchResult, newId: Id): DispatchResult {
    r.(id := newId, state := Quarantined, category := Some(WasQuarantined))
  }

  /** The row `_record_dispatch_result` writes over the row it read. */
  function RecordedRow(d: Dispatch, r: DispatchResult): Dispatch {
    d.(result := Some(r.id), provider := Some(r.provider), status := Reached(r.state), reason := r.category)
  }

  /** `_record_dispatch_result`: store the result, and the row unless it already ended. */
  function RecordResult(s: Store, r: DispatchResult): Option<Store>
    requires r.request in s.dispatches
  {
    var t :- SaveResult(s, r);
    var d := s.dispatches[r.request];
    if IsFinal(d.status) then Some(t)
    else
      Some(t.(dispatches := t.dispatches[r.request := RecordedRow(d, r)]))
  }

  /** `record_provider_result`: the store and the result handed back to the caller. */
  function RecordProviderResult(s: Store, epoch: Id, r: DispatchResult, newId: Id): Option<(Store, DispatchResult)> {
    match Judge(s, epoch, r)
    case Raise => None
    case Reject =>
      var q := QuarantinedResult(r, newId);
      var t :- SaveResult(s, q);
      Some((t, q))
    case Accept =>
      var t :- RecordResult(s, r);
      Some((t, r))
  }

  /** The end of `dispatch` taken as one step: record the provider's answer, then complete the row. */
  function RecordAndComplete(s: Store, id: Id, generation: nat, epoch: Id, r: DispatchResult, newId: Id)
    : Option<(Store, DispatchResult)>
  {
    var (t, recorded) :- RecordProviderResult(s, epoch, r, newId);
    var u :- CompleteDispatch(t, id, generation, recorded);
    Some((u, recorded))
  }

  /** `cancelled_result` of a dispatch that was not allowed to start. */
  function CancelledResult(d: Dispatch, provider: Id, newId: Id): DispatchResult {
    DispatchResult(newId, d.id, d.instance, d.session, d.epoch, provider, Cancelled, Some(WasCancelled))
  }

  /** The refused claim in `dispatch` taken as one step: complete as cancelled, then record. */
  function CancelAndRecord(s: Store, d: Dispatch, provider: Id, newId: Id): Option<(Store, DispatchResult)> {
    var r := CancelledResult(d, provider, newId);
    var t :- CompleteDispatch(s, d.id, d.generation, r);
    var u :- RecordResult(t, r);
    Some((u, r))
  }

  /** What `_result_from_dispatch` reports for a recorded row. */
  datatype Replay = Replay(result: Option<Id>, state: OperationState, category: Option<ErrorCategory>,
      provider: Option<Id>)

  function ReplayOf(d: Dispatch): Replay {
    Replay(d.result, if d.status.Reached? then d.status.state else Queued, d.reason, d.provider)
  }

  function ReplayView(r: DispatchResult): Replay {
    Replay(Some(r.id), r.state, r.category, Some(r.provider))
  }

  // ----- What one step guarantees -----

  /** A result is recorded as accepted exactly when the request is known and not cancelled, request,
      result and epoch agree on every binding, and that epoch is the open, only active one. */
  lemma AcceptedExactly(s: Store, epoch: Id, r: DispatchResult)
    ensures Judge(s, epoch, r) == Accept <==>
      && r.request in s.dispatches && epoch in s.epochs
      && var d, e := s.dispatches[r.request], s.epochs[epoch];
      && d.status != Reached(Cancelled)
      && r.instance == d.instance == e.instance && r.session == d.session == e.session
      && r.epoch == d.epoch == epoch && r.provider == e.provider
      && !e.closed && s.ActiveEpochs(e.instance) == {epoch}
  {
    if r.request in s.dispatches && epoch in s.epochs {
      var active := s.ActiveEpochs(s.epochs[epoch].instance);
      if epoch in active && |active| == 1 {
        OnlyMember(active, epoch);
      }
      assert |{epoch}| == 1;
    }
  }

  lemma OnlyMember(active: set<Id>, x: Id)
    requires x in active && |active| == 1
    ensures active == {x}
  {
    assert |active - {x}| == 0;
  }

  /** A late answer for an epoch that was closed or replaced never reaches the dispatch row: it is
      stored under a fresh id, quarantined, and the dispatch ends withdrawn. */
  lemma LateResultsAreQuarantined(s: Store, id: Id, generation: nat, epoch: Id, r: DispatchResult, newId: Id)
    requires epoch in s.epochs ==>
      s.epochs[epoch].closed || s.ActiveEpochs(s.epochs[epoch].instance) != {epoch}
    requires RecordAndComplete(s, id, generation, epoch, r, newId).Some?
    ensures var (t, back) := RecordAndComplete(s, id, generation, epoch, r, newId).value;
      && back == QuarantinedResult(r, newId)
      && t.results == s.results[newId := back]
      && t.dispatches == s.dispatches[id := CompletedRow(s.dispatches[id], back)]
      && t.dispatches[id].status == Reached(Quarantined)
  {
    AcceptedExactly(s, epoch, r);
  }

  /** With recording and completion as one step, an executing dispatch, or one that a drain cancelled,
      replays exactly what its caller is handed if and only if the answer names this dispatch, or what is
      handed back is written over the row and leaves no older reason standing. */
  lemma CompletionReplaysExactly(s: Store, id: Id, generation: nat, epoch: Id, r: DispatchResult, newId: Id)
    requires RecordAndComplete(s, id, generation, epoch, r, newId).Some?
    requires s.dispatches[id].status == Executing || s.dispatches[id].status == Reached(Cancelled)
    ensures var (t, back) := RecordAndComplete(s, id, generation, epoch, r, newId).value;
      ReplayOf(t.dispatches[id]) == ReplayView(back)
      <==> r.request == id
           || (!KeepsRow(s.dispatches[id], back) && (back.category.Some? || s.dispatches[id].reason.None?))
  {
  }

  /** The same for a dispatch whose claim was refused. */
  lemma RefusedClaimReplays(s: Store, d: Dispatch, provider: Id, newId: Id)
    requires CancelAndRecord(s, d, provider, newId).Some?
    ensures var (t, back) := CancelAndRecord(s, d, provider, newId).value;
      && ReplayOf(t.dispatches[d.id]) == ReplayView(back) && t.results == s.results[newId := back]
      && back.id == newId && back.request == d.id && back.instance == d.instance && back.session == d.session
      && back.epoch == d.epoch && back.provider == provider && back.state == Cancelled
      && back.category == Some(WasCancelled)
  {
  }
}
