/** Every interleaving of dispatch calls with fence reservations, releases, drains, epoch changes
    and provider results reported on their own.

    A call is a program counter with its locals; each action advances one call by one atomic step,
    or lets it crash. Recording a result and completing a row are several steps: the row is read,
    the result stored and the row written back, with other steps in between. Ids drawn from the id
    factory are unique: a dispatch id is the number of the call that drew it. Provider answers are
    arbitrary. */
module DispatchRuns {
  import opened Contracts
  import opened Fences
  import opened DispatchStore

  /** Who records a result: a dispatch call that will then complete its own row, or a caller that is
      done afterwards. */
  datatype Purpose = ForDispatch(request: Dispatch) | Alone

  datatype Call =
    | Reading(request: Dispatch)                       // accept_dispatch, before the fence is read
    | Writing(request: Dispatch)                       // the generation is read, the row not yet written
    | Claiming(request: Dispatch)                      // the row is written, the claim still to come
    | Calling(request: Dispatch)                       // claimed; the provider is called next
    | Answered(request: Dispatch, answer: DispatchResult)
    | Refused(request: Dispatch)                       // the claim was refused
    | Reporting(epoch: Id, result: DispatchResult)     // record_provider_result on its own
    | Quarantining(purpose: Purpose, result: DispatchResult)
    | Recording(purpose: Purpose, result: DispatchResult)                  // _record_dispatch_result, before its read
    | Storing(purpose: Purpose, result: DispatchResult, copy: Dispatch)    // the row is read, the result not yet stored
    // the result is stored, the row is written next
    | Updating(purpose: Purpose, result: DispatchResult, copy: Dispatch)
    | Completing(request: Dispatch, result: DispatchResult, record: bool)  // complete_dispatch, before its read
    | Overwriting(request: Dispatch, result: DispatchResult, copy: Dispatch, record: bool)

  datatype Event =
    | Reserved(instance: Id, generation: nat)
    | Started(dispatch: Id, instance: Id, generation: nat)
    | Called(dispatch: Id, instance: Id, key: Id, answer: DispatchResult)
    | Admitted(epoch: Id, result: DispatchResult)

  datatype World = World(store: Store, calls: map<Id, Call>, next: Id, trace: seq<Event>)

  datatype Action =
    | Begin(instance: Id, key: Id, session: SessionId, epoch: Id)
    | BeginReport(epoch: Id, result: DispatchResult)
    | Advance(call: Id, answer: DispatchResult, provider: Id, newId: Id)
    | Crash(call: Id)
    | TakeFence(instance: Id, token: Id)
    | OpenFence(instance: Id, held: Fence)
    | DrainUnclaimed(instance: Id, held: Fence)
    | DrainInflight(instance: Id, held: Fence)
    | ChangeLifecycle(transitioning: set<Id>, epochs: map<Id, EpochRow>, authoritative: map<Id, set<Id>>)

  const EMPTY: Store := Store(map[], {}, map[], map[], map[], map[])

  const START: World := World(EMPTY, map[], 0, [])

  function WithStore(w: World, s: Option<Store>): World {
    if s.Some? then w.(store := s.value) else w
  }

  function WithRow(w: World, d: Dispatch): World {
    w.(store := w.store.(dispatches := w.store.dispatches[d.id := d]))
  }

  function Goto(w: World, t: Id, c: Call): World { w.(calls := w.calls[t := c]) }

  function End(w: World, t: Id): World { w.(calls := w.calls - {t}) }

  function Emit(w: World, e: Event): World { w.(trace := w.trace + [e]) }

  // ----- The steps -----

  /** The first half of a dispatch, up to the provider's answer. */
  function Dispatching(w: World, t: Id, c: Call, answer: DispatchResult): World {
    var s := w.store;
    match c
    case Reading(d) =>
      var f := s.FenceOf(d.instance);
      if f.Open? then Goto(w, t, Writing(d.(generation := f.generation))) else End(w, t)
    case Writing(d) =>
      var inserted := InsertDispatch(s, d);
      if inserted.Some? then Goto(w.(store := inserted.value), t, Claiming(d)) else End(w, t)
    case Claiming(d) =>
      if d.id !in s.dispatches then End(w, t)
      else
        var (after, granted) := ClaimDispatch(s, d.id);
        var v := w.(store := after);
        if !granted then Goto(v, t, Refused(d))
        else if s.dispatches[d.id].status != Accepted then Goto(v, t, Calling(d))
        else Emit(Goto(v, t, Calling(d)), Started(d.id, d.instance, s.dispatches[d.id].generation))
    case Calling(d) => Emit(Goto(w, t, Answered(d, answer)), Called(d.id, d.instance, d.key, answer))
    case _ => w
  }

  /** The checks of `record_provider_result`; an admitted result is remembered in the history. */
  function Judged(w: World, t: Id, purpose: Purpose, epoch: Id, r: DispatchResult, newId: Id): World {
    match Judge(w.store, epoch, r)
    case Raise => End(w, t)
    case Reject => Goto(w, t, Quarantining(purpose, QuarantinedResult(r, newId)))
    case Accept => Emit(Goto(w, t, Recording(purpose, r)), Admitted(epoch, r))
  }

  /** What follows once a result is recorded. */
  function Recorded(w: World, t: Id, purpose: Purpose, r: DispatchResult): World {
    match purpose
    case ForDispatch(d) => Goto(w, t, Completing(d, r, false))
    case Alone => End(w, t)
  }

  /** What follows once a row is completed: a refused dispatch still records its cancelled result. */
  function Completed(w: World, t: Id, r: DispatchResult, record: bool): World {
    if record then Goto(w, t, Recording(Alone, r)) else End(w, t)
  }

  /** The second half: record the result, complete the row. */
  function Settling(w: World, t: Id, c: Call, provider: Id, newId: Id): World {
    var s := w.store;
    match c
    case Answered(d, r) => Judged(w, t, ForDispatch(d), d.epoch, r, newId)
    case Refused(d) => Goto(w, t, Completing(d, CancelledResult(d, provider, newId), true))
    case Reporting(epoch, r) => Judged(w, t, Alone, epoch, r, newId)
    case Quarantining(purpose, q) =>
      if SaveResult(s, q).Some? then Recorded(w.(store := SaveResult(s, q).value), t, purpose, q) else End(w, t)
    case Recording(purpose, r) =>
      if r.request in s.dispatches then Goto(w, t, Storing(purpose, r, s.dispatches[r.request])) else End(w, t)
    case Storing(purpose, r, copy) =>
      if SaveResult(s, r).None? then End(w, t)
      else
        var v := w.(store := SaveResult(s, r).value);
        if IsFinal(copy.status) then Recorded(v, t, purpose, r) else Goto(v, t, Updating(purpose, r, copy))
    case Updating(purpose, r, copy) => Recorded(WithRow(w, RecordedRow(copy, r)), t, purpose, r)
    case Completing(d, r, record) =>
      if d.id !in s.dispatches || s.dispatches[d.id].generation != d.generation then End(w, t)
      else if KeepsRow(s.dispatches[d.id], r) then Completed(w, t, r, record)
      else Goto(w, t, Overwriting(d, r, s.dispatches[d.id], record))
    case Overwriting(d, r, copy, record) => Completed(WithRow(w, CompletedRow(copy, r)), t, r, record)
    case _ => w
  }

  predicate IsDispatching(c: Call) { c.Reading? || c.Writing? || c.Claiming? || c.Calling? }

  /** One atomic step of call `t`. A step that raises ends the call. */
  function AdvanceCall(w: World, t: Id, answer: DispatchResult, provider: Id, newId: Id): World
    requires t in w.calls
  {
    if IsDispatching(w.calls[t]) then Dispatching(w, t, w.calls[t], answer)
    else Settling(w, t, w.calls[t], provider, newId)
  }

  function Step(w: World, a: Action): World {
    match a
    case Begin(instance, key, session, epoch) =>
      if w.store.HasKey(instance, key) then w
      else
        var d := Dispatch(w.next, instance, key, session, epoch, 0, Accepted, None, None, None);
        w.(calls := w.calls[w.next := Reading(d)], next := w.next + 1)
    case BeginReport(epoch, r) => w.(calls := w.calls[w.next := Reporting(epoch, r)], next := w.next + 1)
    case Advance(t, answer, provider, newId) =>
      if t in w.calls then AdvanceCall(w, t, answer, provider, newId) else w
    case Crash(t) => End(w, t)
    case TakeFence(instance, token) =>
      var taken := ReserveFence(w.store, instance, token);
      if taken.Some? then Emit(w.(store := taken.value), Reserved(instance, w.store.FenceOf(instance).generation))
      else w
    case OpenFence(instance, held) => WithStore(w, ReleaseFence(w.store, instance, held))
    case DrainUnclaimed(instance, held) => WithStore(w, CancelUnclaimed(w.store, instance, held))
    case DrainInflight(instance, held) => WithStore(w, CancelInflight(w.store, instance, held))
    case ChangeLifecycle(transitioning, epochs, authoritative) =>
      w.(store := w.store.(transitioning := transitioning, epochs := epochs, authoritative := authoritative))
  }

  function Run(w: World, actions: seq<Action>): World {
    if actions == [] then w else Step(Run(w, actions[..|actions| - 1]), actions[|actions| - 1])
  }

  // ----- What one step does -----

  /** What no step may do to a row that is already there. */
  predicate SameIdentity(d: Dispatch, e: Dispatch) {
    && d.id == e.id && d.instance == e.instance && d.key == e.key && d.generation == e.generation
    && d.session == e.session && d.epoch == e.epoch
  }

  predicate RowsKeepKeys(rows: map<Id, Dispatch>, later: map<Id, Dispatch>) {
    forall x | x in rows :: x in later && SameIdentity(rows[x], later[x])
  }

  /** Rows are never removed and never change identity; only the claim of its own call makes a row
      executing. */
  predicate RowsPersist(s: Store, t: Store) {
    && t.dispatches.Keys == s.dispatches.Keys && t.fences == s.fences
    && forall x | x in s.dispatches ::
         && SameIdentity(s.dispatches[x], t.dispatches[x])
         && (t.dispatches[x].status == Executing ==> s.dispatches[x].status == Executing)
  }

  // ----- The invariant -----

  function RequestOf(c: Call): Option<Dispatch> {
    match c
    case Reporting(_, _) => None
    case Quarantining(purpose, _) => if purpose.ForDispatch? then Some(purpose.request) else None
    case Recording(purpose, _) => if purpose.ForDispatch? then Some(purpose.request) else None
    case Storing(purpose, _, _) => if purpose.ForDispatch? then Some(purpose.request) else None
    case Updating(purpose, _, _) => if purpose.ForDispatch? then Some(purpose.request) else None
    case _ => Some(c.request)
  }

  function CopyOf(c: Call): Option<Dispatch> {
    if c.Storing? || c.Updating? || c.Overwriting? then Some(c.copy) else None
  }

  /** The dispatch behind a call: written or not, by this call alone. */
  predicate RequestMatches(rows: map<Id, Dispatch>, t: Id, c: Call, d: Dispatch) {
    && d.id == t
    && (if c.Reading? || c.Writing? then t !in rows && d.status == Accepted
        else t in rows && SameIdentity(d, rows[t]))
    && (c.Claiming? ==> rows[t].status != Executing)
  }

  /** A copy still names a row of that identity. */
  predicate CopyMatches(rows: map<Id, Dispatch>, d: Dispatch) { d.id in rows && SameIdentity(d, rows[d.id]) }

  predicate Begun(trace: seq<Event>, t: Id) {
    exists k :: 0 <= k < |trace| && trace[k].Started? && trace[k].dispatch == t
  }

  predicate Sent(trace: seq<Event>, t: Id) {
    exists k :: 0 <= k < |trace| && trace[k].Called? && trace[k].dispatch == t
  }

  ghost predicate CallMatches(w: World, t: Id)
    requires t in w.calls
  {
    var c := w.calls[t];
    && t < w.next
    && (RequestOf(c).Some? ==> RequestMatches(w.store.dispatches, t, c, RequestOf(c).value))
    && (CopyOf(c).Some? ==> CopyMatches(w.store.dispatches, CopyOf(c).value))
    && (IsDispatching(c) ==> !Sent(w.trace, t))
    && (c.Calling? ==> Begun(w.trace, t))
  }

  ghost predicate RowsMatch(w: World) {
    && (forall t | t in w.calls :: CallMatches(w, t))
    && (forall x | x in w.store.dispatches :: w.store.dispatches[x].id == x && x < w.next)
  }

  /** One row per instance and idempotency key. */
  ghost predicate KeysUnique(rows: map<Id, Dispatch>) {
    forall x, y | x in rows && y in rows && rows[x].instance == rows[y].instance && rows[x].key == rows[y].key :: x == y
  }

  /** Every provider call belongs to its dispatch row, was preceded by its start, and is unique. */
  ghost predicate CallsMatch(rows: map<Id, Dispatch>, trace: seq<Event>) {
    && (forall k | 0 <= k < |trace| && trace[k].Called? ::
          && trace[k].dispatch in rows
          && rows[trace[k].dispatch].instance == trace[k].instance && rows[trace[k].dispatch].key == trace[k].key
          && Begun(trace[..k], trace[k].dispatch))
    && (forall j, k | 0 <= j < k < |trace| && trace[j].Called? && trace[k].Called? ::
      trace[j].dispatch != trace[k].dispatch)
  }

  /** Reservations never lie in the future, and an open fence has passed all of them. */
  ghost predicate FencePassed(store: Store, trace: seq<Event>) {
    forall k | 0 <= k < |trace| && trace[k].Reserved? ::
      var f := store.FenceOf(trace[k].instance);
      trace[k].generation <= f.generation && (f.Open? ==> trace[k].generation < f.generation)
  }

  /** After a reservation, everything that starts has a later generation. */
  ghost predicate StartsAfterReservations(trace: seq<Event>) {
    forall j, k | 0 <= j < k < |trace| && trace[j].Reserved? && trace[k].Started?
                  && trace[j].instance == trace[k].instance :: trace[j].generation < trace[k].generation
  }

  ghost predicate Consistent(w: World) {
    && RowsMatch(w) && KeysUnique(w.store.dispatches) && CallsMatch(w.store.dispatches, w.trace)
    && FencePassed(w.store, w.trace) && StartsAfterReservations(w.trace)
  }

  // ----- Frames -----

  /** Rows stay or are added by call `t`, and only row `t` may become executing. */
  predicate RowsGrow(rows: map<Id, Dispatch>, later: map<Id, Dispatch>, t: Id) {
    && RowsKeepKeys(rows, later)
    && (forall x | x in later :: x in rows || x == t)
    && (forall x | x in rows && x != t && later[x].status == Executing :: rows[x].status == Executing)
  }

  lemma BegunStays(trace: seq<Event>, later: seq<Event>, t: Id)
    requires trace <= later
    ensures Begun(trace, t) ==> Begun(later, t)
  {
    if Begun(trace, t) {
      var k :| 0 <= k < |trace| && trace[k].Started? && trace[k].dispatch == t;
      assert later[k] == trace[k];
    }
  }

  /** Nothing sent to the provider in between. */
  predicate NothingSent(trace: seq<Event>, later: seq<Event>, t: Id) {
    trace <= later && forall k | |trace| <= k < |later| && later[k].Called? :: later[k].dispatch != t
  }

  lemma UnsentStays(trace: seq<Event>, later: seq<Event>, t: Id)
    requires NothingSent(trace, later, t) && !Sent(trace, t)
    ensures !Sent(later, t)
  {
    forall k | 0 <= k < |later| && later[k].Called? ensures later[k].dispatch != t {
      if k < |trace| { assert later[k] == trace[k]; }
    }
  }

  /** A call that is not touched keeps matching. */
  lemma FrameCall(w: World, v: World, t: Id, u: Id)
    requires u != t && u in w.calls && CallMatches(w, u) && u in v.calls && v.calls[u] == w.calls[u] && v.next >= w.next
    requires RowsGrow(w.store.dispatches, v.store.dispatches, t) && NothingSent(w.trace, v.trace, u)
    ensures CallMatches(v, u)
  {
    BegunStays(w.trace, v.trace, u);
    if IsDispatching(w.calls[u]) { UnsentStays(w.trace, v.trace, u); }
  }

  /** Put the calls of a step together. */
  lemma CallsAssemble(w: World, v: World, t: Id)
    requires RowsMatch(w) && v.next >= w.next && RowsGrow(w.store.dispatches, v.store.dispatches, t)
    requires w.trace <= v.trace
    requires forall k | |w.trace| <= k < |v.trace| && v.trace[k].Called? :: v.trace[k].dispatch == t
    requires forall u | u in v.calls && u != t :: u in w.calls && v.calls[u] == w.calls[u]
    requires t in v.calls ==> CallMatches(v, t)
    requires t in v.store.dispatches && t !in w.store.dispatches ==> v.store.dispatches[t].id == t && t < v.next
    ensures RowsMatch(v)
  {
    forall u | u in v.calls ensures CallMatches(v, u) { if u != t { FrameCall(w, v, t, u); } }
  }

  lemma CallsMatchStays(rows: map<Id, Dispatch>, later: map<Id, Dispatch>, trace: seq<Event>, longer: seq<Event>)
    requires CallsMatch(rows, trace) && RowsKeepKeys(rows, later)
    requires trace <= longer && forall k | |trace| <= k < |longer| :: !longer[k].Called?
    ensures CallsMatch(later, longer)
  {
    forall k | 0 <= k < |longer| && longer[k].Called? ensures k < |trace| && longer[k] == trace[k]
        && longer[..k] == trace[..k] {}
  }

  /** Steps that move no fence, insert no row, claim nothing and call nobody. */
  lemma QuietKeeps(w: World, v: World, t: Id)
    requires Consistent(w) && RowsPersist(w.store, v.store) && v.next >= w.next && w.trace <= v.trace
    requires forall k | |w.trace| <= k < |v.trace| :: v.trace[k].Admitted?
    requires forall u | u in v.calls && u != t :: u in w.calls && v.calls[u] == w.calls[u]
    requires t in v.calls ==> CallMatches(v, t)
    ensures Consistent(v)
  {
    CallsAssemble(w, v, t);
    CallsMatchStays(w.store.dispatches, v.store.dispatches, w.trace, v.trace);
  }

  // ----- The steps keep it -----

  /** What a step of the second half amounts to: rows of the same identity, perhaps an admission, and a
      continuation that matches. */
  predicate SettlesQuietly(w: World, v: World, t: Id) {
    && RowsPersist(w.store, v.store) && v.next == w.next
    && (v.trace == w.trace || (|v.trace| == |w.trace| + 1 && w.trace <= v.trace && v.trace[|w.trace|].Admitted?))
    && (forall u | u in v.calls && u != t :: u in w.calls && v.calls[u] == w.calls[u])
    && (t in v.calls ==>
          && !IsDispatching(v.calls[t])
          && (RequestOf(v.calls[t]).Some? ==>
            RequestMatches(v.store.dispatches, t, v.calls[t], RequestOf(v.calls[t]).value))
          && (CopyOf(v.calls[t]).Some? ==> CopyMatches(v.store.dispatches, CopyOf(v.calls[t]).value)))
  }

  /** Reading the row and judging the result. */
  lemma JudgingQuiet(w: World, v: World, t: Id, provider: Id, newId: Id)
    requires t in w.calls && CallMatches(w, t) && v == Settling(w, t, w.calls[t], provider, newId)
    requires w.calls[t].Answered? || w.calls[t].Refused? || w.calls[t].Reporting?
    ensures SettlesQuietly(w, v, t)
  {
    hide Judge, SaveResult, RecordedRow, CompletedRow, KeepsRow;
  }

  lemma StoringQuiet(w: World, v: World, t: Id, provider: Id, newId: Id)
    requires t in w.calls && CallMatches(w, t) && v == Settling(w, t, w.calls[t], provider, newId)
    requires forall x | x in w.store.dispatches :: w.store.dispatches[x].id == x
    requires w.calls[t].Quarantining? || w.calls[t].Recording?
    ensures SettlesQuietly(w, v, t)
  {
    hide Judge, RecordedRow, CompletedRow, KeepsRow;
  }

  lemma ResultQuiet(w: World, v: World, t: Id, provider: Id, newId: Id)
    requires t in w.calls && CallMatches(w, t) && v == Settling(w, t, w.calls[t], provider, newId)
    requires w.calls[t].Storing?
    ensures SettlesQuietly(w, v, t)
  {
    hide Judge, RecordedRow, CompletedRow, KeepsRow;
    assert v.store.dispatches == w.store.dispatches && v.trace == w.trace;
  }

  lemma UpdatingQuiet(w: World, v: World, t: Id, provider: Id, newId: Id)
    requires t in w.calls && CallMatches(w, t) && v == Settling(w, t, w.calls[t], provider, newId)
    requires w.calls[t].Updating?
    ensures SettlesQuietly(w, v, t)
  {
    hide Judge, SaveResult, CompletedRow, KeepsRow;
  }

  lemma CompletingQuiet(w: World, v: World, t: Id, provider: Id, newId: Id)
    requires t in w.calls && CallMatches(w, t) && v == Settling(w, t, w.calls[t], provider, newId)
    requires forall x | x in w.store.dispatches :: w.store.dispatches[x].id == x
    requires w.calls[t].Completing?
    ensures SettlesQuietly(w, v, t)
  {
    hide Judge, SaveResult, RecordedRow, CompletedRow;
  }

  lemma OverwritingQuiet(w: World, v: World, t: Id, provider: Id, newId: Id)
    requires t in w.calls && CallMatches(w, t) && v == Settling(w, t, w.calls[t], provider, newId)
    requires w.calls[t].Overwriting?
    ensures SettlesQuietly(w, v, t)
  {
    hide Judge, SaveResult, RecordedRow;
  }

  lemma SettlingQuiet(w: World, v: World, t: Id, provider: Id, newId: Id)
    requires t in w.calls && CallMatches(w, t) && !IsDispatching(w.calls[t])
    requires v == Settling(w, t, w.calls[t], provider, newId)
    requires forall x | x in w.store.dispatches :: w.store.dispatches[x].id == x
    ensures SettlesQuietly(w, v, t)
  {
    hide Settling, SettlesQuietly;
    var c := w.calls[t];
    if c.Updating? { UpdatingQuiet(w, v, t, provider, newId); }
    else if c.Completing? { CompletingQuiet(w, v, t, provider, newId); }
    else if c.Overwriting? { OverwritingQuiet(w, v, t, provider, newId); }
    else if c.Storing? { ResultQuiet(w, v, t, provider, newId); }
    else if c.Quarantining? || c.Recording? { StoringQuiet(w, v, t, provider, newId); }
    else { JudgingQuiet(w, v, t, provider, newId); }
  }

  lemma SettlingStep(w: World, v: World, t: Id, provider: Id, newId: Id)
    requires Consistent(w) && t in w.calls && !IsDispatching(w.calls[t])
    requires v == Settling(w, t, w.calls[t], provider, newId)
    ensures Consistent(v)
  {
    hide Settling;
    assert CallMatches(w, t);
    SettlingQuiet(w, v, t, provider, newId);
    QuietKeeps(w, v, t);
  }

  lemma ReadStep(w: World, v: World, t: Id, answer: DispatchResult)
    requires Consistent(w) && t in w.calls && w.calls[t].Reading? && v == Dispatching(w, t, w.calls[t], answer)
    ensures Consistent(v)
  {
    assert CallMatches(w, t);
    QuietKeeps(w, v, t);
  }

  lemma WriteStep(w: World, v: World, t: Id, answer: DispatchResult)
    requires Consistent(w) && t in w.calls && w.calls[t].Writing? && v == Dispatching(w, t, w.calls[t], answer)
    ensures Consistent(v)
  {
    assert CallMatches(w, t);
    CallsAssemble(w, v, t);
    CallsMatchStays(w.store.dispatches, v.store.dispatches, w.trace, v.trace);
  }

  /** What a claim does: it rewrites the status of its own row, and a granted one is recorded. */
  lemma ClaimEffect(w: World, v: World, t: Id, answer: DispatchResult)
    requires t in w.calls && CallMatches(w, t) && w.calls[t].Claiming? && v == Dispatching(w, t, w.calls[t], answer)
    ensures t in w.store.dispatches && t in v.calls && v.next == w.next
    ensures var d, row := w.calls[t].request, w.store.dispatches[t];
      && d.id == t && v.store == w.store.(dispatches := v.store.dispatches)
      && v.store.dispatches.Keys == w.store.dispatches.Keys
      && v.store.dispatches[t].status in {row.status, Executing, Reached(Cancelled)}
      && t in v.store.dispatches
        && v.store.dispatches == w.store.dispatches[t := WithStatus(row, v.store.dispatches[t].status)]
      && ((v.calls == w.calls[t := Refused(d)] && v.trace == w.trace)
          || (v.calls == w.calls[t := Calling(d)] && MayExecute(w.store, row)
              && v.trace == w.trace + [Started(t, d.instance, row.generation)]))
  {
  }

  lemma ClaimRows(w: World, v: World, t: Id, answer: DispatchResult)
    requires Consistent(w) && t in w.calls && w.calls[t].Claiming? && v == Dispatching(w, t, w.calls[t], answer)
    ensures RowsMatch(v) && CallsMatch(v.store.dispatches, v.trace)
  {
    hide Dispatching;
    assert CallMatches(w, t);
    ClaimEffect(w, v, t, answer);
    if v.calls[t].Calling? {
      assert v.trace[|w.trace|] == Started(t, w.calls[t].request.instance, w.store.dispatches[t].generation);
      assert Begun(v.trace, t);
    }
    UnsentStays(w.trace, v.trace, t);
    CallsAssemble(w, v, t);
    CallsMatchStays(w.store.dispatches, v.store.dispatches, w.trace, v.trace);
  }

  lemma ClaimStep(w: World, v: World, t: Id, answer: DispatchResult)
    requires Consistent(w) && t in w.calls && w.calls[t].Claiming? && v == Dispatching(w, t, w.calls[t], answer)
    ensures Consistent(v)
  {
    hide Dispatching;
    assert CallMatches(w, t);
    ClaimEffect(w, v, t, answer);
    ClaimRows(w, v, t, answer);
  }

  lemma CallStep(w: World, v: World, t: Id, answer: DispatchResult)
    requires Consistent(w) && t in w.calls && w.calls[t].Calling? && v == Dispatching(w, t, w.calls[t], answer)
    ensures Consistent(v)
  {
    hide Settling;
    assert CallMatches(w, t);
    var e := Called(t, w.calls[t].request.instance, w.calls[t].request.key, answer);
    assert v.trace == w.trace + [e];
    CallsAssemble(w, v, t);
    forall k | 0 <= k < |v.trace| && v.trace[k].Called?
      ensures Begun(v.trace[..k], v.trace[k].dispatch)
    {
      assert v.trace[..k] == w.trace[..k];
      if k == |w.trace| { assert w.trace[..k] == w.trace; }
    }
    forall k | 0 <= k < |w.trace| && w.trace[k].Called? ensures w.trace[k].dispatch != t { assert !Sent(w.trace, t); }
  }

  lemma FenceStep(w: World, v: World, a: Action)
    requires Consistent(w) && (a.TakeFence? || a.OpenFence?) && v == Step(w, a)
    ensures Consistent(v)
  {
    hide Dispatching, Settling, InsertDispatch, CancelUnclaimed, CancelInflight;
    forall u | u in v.calls ensures CallMatches(v, u) {
      assert CallMatches(w, u);
      FrameCall(w, v, w.next, u);
    }
    CallsMatchStays(w.store.dispatches, v.store.dispatches, w.trace, v.trace);
  }

  lemma BeginStep(w: World, v: World, a: Action)
    requires Consistent(w) && (a.Begin? || a.BeginReport?) && v == Step(w, a)
    ensures Consistent(v)
  {
    hide Dispatching, Settling;
    if v != w {
      forall k | 0 <= k < |w.trace| && w.trace[k].Called? ensures w.trace[k].dispatch != w.next {}
      assert !Sent(v.trace, w.next);
      assert CallMatches(v, w.next);
      QuietKeeps(w, v, w.next);
    }
  }

  lemma DrainStep(w: World, v: World, a: Action)
    requires Consistent(w) && (a.DrainUnclaimed? || a.DrainInflight? || a.ChangeLifecycle? || a.Crash?)
    requires v == Step(w, a)
    ensures Consistent(v)
  {
    hide Dispatching, Settling;
    DrainPersists(w, v, a);
    forall u | u in v.calls ensures CallMatches(v, u) {
      assert CallMatches(w, u);
      FrameCall(w, v, w.next, u);
    }
    QuietKeeps(w, v, w.next);
  }

  lemma DrainPersists(w: World, v: World, a: Action)
    requires (a.DrainUnclaimed? || a.DrainInflight? || a.ChangeLifecycle? || a.Crash?) && v == Step(w, a)
    ensures RowsPersist(w.store, v.store) && v.trace == w.trace && v.next == w.next && v.calls.Keys <= w.calls.Keys
    ensures forall u | u in v.calls :: v.calls[u] == w.calls[u]
  {
    hide Dispatching, Settling;
  }

  lemma StepKeepsConsistent(w: World, a: Action)
    requires Consistent(w)
    ensures Consistent(Step(w, a))
  {
    hide Consistent, Dispatching, Settling;
    var v := Step(w, a);
    match a
    case Begin(_, _, _, _) => BeginStep(w, v, a);
    case BeginReport(_, _) => BeginStep(w, v, a);
    case Advance(t, answer, provider, newId) =>
      if t in w.calls {
        var c := w.calls[t];
        if c.Reading? { ReadStep(w, v, t, answer); }
        else if c.Writing? { WriteStep(w, v, t, answer); }
        else if c.Claiming? { ClaimStep(w, v, t, answer); }
        else if c.Calling? { CallStep(w, v, t, answer); }
        else { SettlingStep(w, v, t, provider, newId); }
      }
    case TakeFence(_, _) => FenceStep(w, v, a);
    case OpenFence(_, _) => FenceStep(w, v, a);
    case _ => DrainStep(w, v, a);
  }

  // ----- Whole runs -----

  lemma {:induction false} RunsAreConsistent(actions: seq<Action>)
    ensures Consistent(Run(START, actions))
  {
    hide Step;
    if actions != [] {
      RunsAreConsistent(actions[..|actions| - 1]);
      StepKeepsConsistent(Run(START, actions[..|actions| - 1]), actions[|actions| - 1]);
    }
  }

  predicate StartedOpen(s: Store, e: Event)
    requires e.Started?
  {
    s.FenceOf(e.instance) == Open(e.generation) && e.dispatch in s.dispatches
        && s.dispatches[e.dispatch].generation == e.generation
  }

  lemma ClaimsStartOpen(w: World, v: World, t: Id, answer: DispatchResult)
    requires t in w.calls && CallMatches(w, t) && w.calls[t].Claiming? && v == Dispatching(w, t, w.calls[t], answer)
    ensures forall k | |w.trace| <= k < |v.trace| && v.trace[k].Started? :: StartedOpen(w.store, v.trace[k])
  {
    ClaimEffect(w, v, t, answer);
  }

  lemma StartsHere(w: World, v: World, a: Action)
    requires RowsMatch(w) && v == Step(w, a)
    ensures forall k | |w.trace| <= k < |v.trace| && v.trace[k].Started? :: StartedOpen(w.store, v.trace[k])
  {
    hide Dispatching, Settling;
    if a.Advance? && a.call in w.calls {
      assert CallMatches(w, a.call);
      if w.calls[a.call].Claiming? { ClaimsStartOpen(w, v, a.call, a.answer); }
      else if !IsDispatching(w.calls[a.call]) { SettlingQuiet(w, v, a.call, a.provider, a.newId); }
      else { OnlyClaimsStart(w, v, a.call, a.answer); }
    }
  }

  lemma OnlyClaimsStart(w: World, v: World, t: Id, answer: DispatchResult)
    requires t in w.calls && IsDispatching(w.calls[t]) && !w.calls[t].Claiming?
    requires v == Dispatching(w, t, w.calls[t], answer)
    ensures forall k | |w.trace| <= k < |v.trace| :: !v.trace[k].Started?
  {
  }

  /** A dispatch starts executing only while the fence of its instance is open at its generation. */
  lemma StartsOnlyWhenOpen(actions: seq<Action>, a: Action)
    ensures var w := Run(START, actions);
      var v := Step(w, a);
      forall k | |w.trace| <= k < |v.trace| && v.trace[k].Started? ::
        && w.store.FenceOf(v.trace[k].instance) == Open(v.trace[k].generation)
        && v.trace[k].dispatch in w.store.dispatches
        && w.store.dispatches[v.trace[k].dispatch].generation == v.trace[k].generation
  {
    hide Step;
    RunsAreConsistent(actions);
    StartsHere(Run(START, actions), Step(Run(START, actions), a), a);
  }

  /** In every run, nothing of the reserved generation or an older one starts after a reservation. */
  lemma NothingStartsBehindAReservation(actions: seq<Action>, j: nat, k: nat)
    requires var trace := Run(START, actions).trace;
      j < k < |trace| && trace[j].Reserved? && trace[k].Started? && trace[j].instance == trace[k].instance
    ensures var trace := Run(START, actions).trace; trace[k].generation > trace[j].generation
  {
    RunsAreConsistent(actions);
  }

  /** In every run, the provider is called at most once per instance and idempotency key, and only
      for a dispatch that was claimed before. */
  lemma ProviderCalledAtMostOncePerKey(actions: seq<Action>)
    ensures var trace := Run(START, actions).trace;
      && (forall j, k | 0 <= j < k < |trace| && trace[j].Called? && trace[k].Called? ::
            !(trace[j].instance == trace[k].instance && trace[j].key == trace[k].key))
      && (forall k | 0 <= k < |trace| && trace[k].Called? :: Begun(trace[..k], trace[k].dispatch))
  {
    RunsAreConsistent(actions);
  }
}
