/** The recursive size check on handoff material (src/overseer/agent_handoff.py). */
module HandoffBounds {
  import opened Contracts

  const MAX_DEPTH: nat := 8
  const MAX_ITEMS: nat := 256
  const MAX_STRING: nat := 4096

  /** JSON-like values. A mapping lists its entries with the keys already rendered as strings. */
  datatype Value =
    | Text(text: string)
    | Mapping(entries: seq<(string, Value)>)
    | Sequence(items: seq<Value>)
    | Scalar

  /** `_validate_handoff_bounds`: true when nothing is raised. */
  predicate Accepts(v: Value, depth: nat) {
    match v
    case Text(text) => |text| <= MAX_STRING
    case Mapping(entries) =>
      depth <= MAX_DEPTH && |entries| <= MAX_ITEMS
      && forall i | 0 <= i < |entries| :: |entries[i].0| <= MAX_STRING && Accepts(entries[i].1, depth + 1)
    case Sequence(items) =>
      depth <= MAX_DEPTH && |items| <= MAX_ITEMS
      && forall i | 0 <= i < |items| :: Accepts(items[i], depth + 1)
    case Scalar => true
  }

  function Children(v: Value): (r: seq<Value>)
    ensures forall i | 0 <= i < |r| :: r[i] < v
  {
    match v
    case Mapping(entries) => seq(|entries|, i requires 0 <= i < |entries| => entries[i].1)
    case Sequence(items) => items
    case _ => []
  }

  /** The value reached by following child positions. */
  function At(v: Value, path: seq<nat>): Option<Value>
    decreases path
  {
    if path == [] then Some(v)
    else if path[0] < |Children(v)| then At(Children(v)[path[0]], path[1..])
    else None
  }

  /** The limits on one value at one depth, without looking below it. */
  predicate WithinLimits(v: Value, depth: nat) {
    match v
    case Text(text) => |text| <= 4096
    case Mapping(entries) => depth <= 8 && |entries| <= 256 && forall e | e in entries :: |e.0| <= 4096
    case Sequence(items) => depth <= 8 && |items| <= 256
    case Scalar => true
  }

  lemma AcceptsUnfolds(v: Value, depth: nat)
    ensures Accepts(v, depth) <==>
            WithinLimits(v, depth) && forall i | 0 <= i < |Children(v)| :: Accepts(Children(v)[i], depth + 1)
  {
    match v
    case Mapping(entries) =>
      forall i | 0 <= i < |entries| ensures entries[i] in entries && Children(v)[i] == entries[i].1 {}
      if Accepts(v, depth) {
        forall e | e in entries ensures |e.0| <= MAX_STRING { var i :| 0 <= i < |entries| && entries[i] == e; }
      }
      if forall i | 0 <= i < |Children(v)| :: Accepts(Children(v)[i], depth + 1) {
        forall i | 0 <= i < |entries| ensures Accepts(entries[i].1, depth + 1) {
          assert Accepts(Children(v)[i], depth + 1);
        }
      }
    case Sequence(items) =>
      assert forall i | 0 <= i < |items| :: Children(v)[i] == items[i];
      if forall i | 0 <= i < |Children(v)| :: Accepts(Children(v)[i], depth + 1) {
        forall i | 0 <= i < |items| ensures Accepts(items[i], depth + 1) { assert Accepts(Children(v)[i], depth + 1); }
      }
    case _ =>
  }

  lemma {:induction false} AcceptedEverywhere(v: Value, depth: nat, path: seq<nat>)
    requires Accepts(v, depth) && At(v, path).Some?
    ensures WithinLimits(At(v, path).value, depth + |path|)
    decreases path
  {
    AcceptsUnfolds(v, depth);
    if path != [] { AcceptedEverywhere(Children(v)[path[0]], depth + 1, path[1..]); }
  }

  /** Every value, wherever it sits below `v`, is within the limits for its depth. */
  ghost predicate AllWithin(v: Value, depth: nat) {
    forall path | At(v, path).Some? :: WithinLimits(At(v, path).value, depth + |path|)
  }

  lemma ChildWithin(v: Value, depth: nat, i: nat)
    requires AllWithin(v, depth) && i < |Children(v)|
    ensures AllWithin(Children(v)[i], depth + 1)
  {
    hide WithinLimits;
    forall path | At(Children(v)[i], path).Some?
      ensures WithinLimits(At(Children(v)[i], path).value, depth + 1 + |path|)
    {
      OneDeeper(v, i, path);
    }
  }

  lemma {:induction false} EverywhereAccepted(v: Value, depth: nat)
    requires AllWithin(v, depth)
    ensures Accepts(v, depth)
    decreases v
  {
    hide Accepts;
    var here: seq<nat> := [];
    assert At(v, here) == Some(v) && WithinLimits(v, depth + |here|);
    forall i | 0 <= i < |Children(v)| ensures Accepts(Children(v)[i], depth + 1) {
      ChildWithin(v, depth, i);
      EverywhereAccepted(Children(v)[i], depth + 1);
    }
    AcceptsUnfolds(v, depth);
  }

  lemma OneDeeper(v: Value, i: nat, path: seq<nat>)
    requires i < |Children(v)|
    ensures |[i] + path| == 1 + |path| && At(v, [i] + path) == At(Children(v)[i], path)
  {
    assert ([i] + path)[1..] == path;
  }

  /** The recursive check accepts exactly the trees in which every value, wherever it sits, is
      within the limits for its depth. */
  lemma AcceptsExactly(v: Value)
    ensures Accepts(v, 0) <==>
            forall path | At(v, path).Some? :: WithinLimits(At(v, path).value, |path|)
  {
    if Accepts(v, 0) {
      forall path | At(v, path).Some? ensures WithinLimits(At(v, path).value, |path|) {
        AcceptedEverywhere(v, 0, path);
      }
    } else if forall path | At(v, path).Some? :: WithinLimits(At(v, path).value, |path|) {
      assert AllWithin(v, 0);
      EverywhereAccepted(v, 0);
    }
  }

  // ----- How large an accepted tree can be -----

  /** The number of values in the tree, the root included. */
  function Nodes(v: Value): nat
    decreases v, 1, 0
  {
    1 + NodesOf(v, |Children(v)|)
  }

  /** The number of values below the first `k` children. */
  function NodesOf(v: Value, k: nat): nat
    requires k <= |Children(v)|
    decreases v, 0, k
  {
    if k == 0 then 0 else NodesOf(v, k - 1) + Nodes(Children(v)[k - 1])
  }

  /** A tree of height `n` with `MAX_ITEMS` children everywhere. */
  function Capacity(n: nat): nat {
    if n == 0 then 1 else 1 + MAX_ITEMS * Capacity(n - 1)
  }

  lemma ProductStep(k: nat, each: nat, sum: int)
    requires k > 0 && sum <= (k - 1) * each + each
    ensures sum <= k * each
  {
  }

  lemma ProductMonotone(k: nat, m: nat, each: nat)
    requires k <= m
    ensures k * each <= m * each
  {
  }

  lemma {:induction false} ChildrenBounded(v: Value, k: nat, each: nat)
    requires k <= |Children(v)|
    requires forall i | 0 <= i < k :: Nodes(Children(v)[i]) <= each
    ensures NodesOf(v, k) <= k * each
    decreases k
  {
    if k > 0 {
      ChildrenBounded(v, k - 1, each);
      ProductStep(k, each, NodesOf(v, k));
    }
  }

  lemma {:induction false} SizeBounded(v: Value, depth: nat)
    requires Accepts(v, depth) && depth <= MAX_DEPTH + 1
    ensures Nodes(v) <= Capacity(MAX_DEPTH + 1 - depth)
    decreases v
  {
    AcceptsUnfolds(v, depth);
    if Children(v) != [] {
      var each := Capacity(MAX_DEPTH - depth);
      forall i | 0 <= i < |Children(v)| ensures Nodes(Children(v)[i]) <= each {
        SizeBounded(Children(v)[i], depth + 1);
      }
      ChildrenBounded(v, |Children(v)|, each);
      ProductMonotone(|Children(v)|, MAX_ITEMS, each);
    }
  }

  function Full(n: nat): Value {
    if n == 0 then Scalar else Sequence(seq(MAX_ITEMS, i => Full(n - 1)))
  }

  lemma {:induction false} EqualChildren(v: Value, k: nat, child: Value)
    requires k <= |Children(v)| && forall i | 0 <= i < k :: Children(v)[i] == child
    ensures NodesOf(v, k) == k * Nodes(child)
    decreases k
  {
    if k > 0 { EqualChildren(v, k - 1, child); }
  }

  lemma {:induction false} FullIsAccepted(n: nat)
    requires n <= MAX_DEPTH + 1
    ensures Accepts(Full(n), MAX_DEPTH + 1 - n)
  {
    if n > 0 {
      FullIsAccepted(n - 1);
      AcceptsUnfolds(Full(n), MAX_DEPTH + 1 - n);
    }
  }

  lemma {:induction false} FullIsMaximal(n: nat)
    ensures Nodes(Full(n)) == Capacity(n)
  {
    if n > 0 {
      FullIsMaximal(n - 1);
      EqualChildren(Full(n), MAX_ITEMS, Full(n - 1));
    }
  }

  /** (256^10 - 1) / 255, which in hexadecimal is ten bytes of 01. */
  lemma CapacityIsTenBytes(n: nat)
    requires n == MAX_DEPTH + 1
    ensures 255 * Capacity(n) == 0x1_0000_0000_0000_0000_0000 - 1
  {
    assert Capacity(n) == 0x0101_0101_0101_0101_0101;
  }

  /** An accepted handoff tree has at most (256^10 - 1)/255 values, and one of that size exists. */
  lemma AcceptedTreesAreBounded(v: Value, n: nat)
    requires Accepts(v, 0) && n == MAX_DEPTH + 1
    ensures 255 * Nodes(v) <= 0x1_0000_0000_0000_0000_0000 - 1
    ensures Accepts(Full(n), 0) && 255 * Nodes(Full(n)) == 0x1_0000_0000_0000_0000_0000 - 1
  {
    SizeBounded(v, 0);
    CapacityIsTenBytes(n);
    FullIsAccepted(n);
    FullIsMaximal(n);
  }
}
