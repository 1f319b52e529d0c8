/** The fallback validation of the agent registry (src/overseer/agent_registry.py): the union graph
    from primary providers to fallbacks, its depth-first cycle search and the capability check. */
module FallbackGraph {
  import opened Contracts

  datatype Profile = Profile(primary: Id, fallbacks: seq<Id>, required: Capabilities)

  type Graph = map<Id, set<Id>>

  predicate Edge(g: Graph, u: Id, v: Id) { u in g && v in g[u] }

  predicate IsPath(g: Graph, p: seq<Id>) {
    forall i | 0 <= i < |p| - 1 :: Edge(g, p[i], p[i + 1])
  }

  /** A closed walk: at least one edge, and it returns to where it began. */
  predicate IsCycle(g: Graph, p: seq<Id>) {
    |p| >= 2 && p[0] == p[|p| - 1] && IsPath(g, p)
  }

  ghost predicate HasCycle(g: Graph) { exists p :: IsCycle(g, p) }

  /** Some profile falls back from `u` to `v`. */
  predicate FallsBack(profiles: seq<Profile>, u: Id, v: Id) {
    exists k :: 0 <= k < |profiles| && profiles[k].primary == u && v in profiles[k].fallbacks
  }

  /** A provider reaches itself by following fallbacks of any of the profiles. */
  ghost predicate FallbackCycle(profiles: seq<Profile>) {
    exists p: seq<Id> :: |p| >= 2 && p[0] == p[|p| - 1]
      && forall i | 0 <= i < |p| - 1 :: FallsBack(profiles, p[i], p[i + 1])
  }

  ghost predicate Represents(g: Graph, profiles: seq<Profile>) {
    && (forall u, v | Edge(g, u, v) :: FallsBack(profiles, u, v))
    && (forall k | 0 <= k < |profiles| ::
          profiles[k].primary in g && forall v | v in profiles[k].fallbacks :: v in g[profiles[k].primary])
  }

  lemma RepresentsCycles(g: Graph, profiles: seq<Profile>)
    requires Represents(g, profiles)
    ensures HasCycle(g) <==> FallbackCycle(profiles)
  {
    forall u, v ensures Edge(g, u, v) <==> FallsBack(profiles, u, v) {}
    if FallbackCycle(profiles) {
      var p: seq<Id> :| |p| >= 2 && p[0] == p[|p| - 1]
        && forall i | 0 <= i < |p| - 1 :: FallsBack(profiles, p[i], p[i + 1]);
      assert IsCycle(g, p);
    }
  }

  method BuildGraph(profiles: seq<Profile>) returns (g: Graph)
    ensures Represents(g, profiles)
  {
    g := map[];
    for n := 0 to |profiles|
      invariant Represents(g, profiles[..n])
    {
      var p := profiles[n];
      var known := if p.primary in g then g[p.primary] else {};
      ghost var before := g;
      g := g[p.primary := known + set v | v in p.fallbacks];
      forall u, v | Edge(g, u, v) ensures FallsBack(profiles[..n + 1], u, v) {
        if Edge(before, u, v) {
          var k :| 0 <= k < n && profiles[..n][k].primary == u && v in profiles[..n][k].fallbacks;
          assert profiles[..n + 1][k].primary == u;
        } else {
          assert profiles[..n + 1][n] == p;
        }
      }
      forall k | 0 <= k < n + 1
        ensures profiles[k].primary in g && forall v | v in profiles[k].fallbacks :: v in g[profiles[k].primary]
      {
        if k < n { assert profiles[..n][k] == profiles[k]; }
      }
    }
    assert profiles[..|profiles|] == profiles;
  }

  /** `order` numbers the visited nodes so that every edge leads to a smaller number. */
  ghost predicate Descends(g: Graph, visited: set<Id>, order: map<Id, nat>) {
    && visited <= order.Keys
    && forall u, v | u in visited && Edge(g, u, v) :: v in visited && order[v] < order[u]
  }

  lemma {:induction false} OrderFallsAlongPaths(g: Graph, visited: set<Id>, order: map<Id, nat>, p: seq<Id>)
    requires Descends(g, visited, order)
    requires |p| >= 2 && p[0] in visited && IsPath(g, p)
    ensures p[|p| - 1] in visited && order[p[|p| - 1]] < order[p[0]]
  {
    assert Edge(g, p[0], p[1]);
    if |p| > 2 {
      var rest := p[1..];
      forall i | 0 <= i < |rest| - 1 ensures Edge(g, rest[i], rest[i + 1]) { assert Edge(g, p[i + 1], p[i + 2]); }
      OrderFallsAlongPaths(g, visited, order, rest);
    }
  }

  lemma DescendingMeansAcyclic(g: Graph, visited: set<Id>, order: map<Id, nat>)
    requires Descends(g, visited, order) && g.Keys <= visited
    ensures !HasCycle(g)
  {
    forall p ensures !IsCycle(g, p) {
      if |p| >= 2 && IsPath(g, p) {
        assert Edge(g, p[0], p[1]);
        OrderFallsAlongPaths(g, visited, order, p);
      }
    }
  }

  /** Meeting a node of the active stack again closes a cycle. */
  lemma StackClosesCycle(g: Graph, stack: seq<Id>, p: Id)
    requires IsPath(g, stack) && p in stack && Edge(g, stack[|stack| - 1], p)
    ensures HasCycle(g)
  {
    var k :| 0 <= k < |stack| && stack[k] == p;
    var cycle := stack[k..] + [p];
    forall i | 0 <= i < |cycle| - 1 ensures Edge(g, cycle[i], cycle[i + 1]) {
      if i + 1 < |stack| - k { assert Edge(g, stack[k + i], stack[k + i + 1]); }
    }
    assert IsCycle(g, cycle);
  }

  lemma FinishKeepsOrder(g: Graph, visited: set<Id>, order: map<Id, nat>, bound: nat, p: Id)
    requires Descends(g, visited, order) && (forall u | u in visited :: order[u] < bound)
    requires p !in visited && forall v | Edge(g, p, v) :: v in visited
    ensures Descends(g, visited + {p}, order[p := bound])
  {
  }

  /** The nested `visit` of the source with the two sets it shares. */
  class Search {
    const graph: Graph
    var active: set<Id>
    var visited: set<Id>
    ghost var stack: seq<Id>
    ghost var order: map<Id, nat>
    ghost var bound: nat
    ghost const nodes: set<Id>

    ghost predicate Valid()
      reads this
    {
      && graph.Keys <= nodes
      && (forall u, v | Edge(graph, u, v) :: v in nodes)
      && (forall x :: x in active <==> x in stack)
      && active <= nodes
      && IsPath(graph, stack)
      && active !! visited
      && Descends(graph, visited, order)
      && forall u | u in visited :: order[u] < bound
    }

    constructor (g: Graph)
      ensures Valid() && graph == g && active == {} && visited == {} && stack == []
    {
      graph := g;
      active, visited, stack, order, bound := {}, {}, [], map[], 0;
      nodes := g.Keys + set u, v | u in g && v in g[u] :: v;
    }

    /** Visits everything below `p`; `false` is the raised cycle error. */
    method Visit(p: Id) returns (ok: bool)
      requires Valid() && p in nodes
      requires stack != [] ==> Edge(graph, stack[|stack| - 1], p)
      modifies this
      ensures ok ==> Valid() && active == old(active) && stack == old(stack)
      ensures ok ==> p in visited && old(visited) <= visited
      ensures !ok ==> HasCycle(graph)
      decreases nodes - active
    {
      if p in active {
        StackClosesCycle(graph, stack, p);
        return false;
      }
      if p in visited { return true; }
      active, stack := active + {p}, stack + [p];
      var todo := if p in graph then graph[p] else {};
      while todo != {}
        invariant Valid() && active == old(active) + {p} && stack == old(stack) + [p]
        invariant old(visited) <= visited
        invariant todo <= if p in graph then graph[p] else {}
        invariant forall v | Edge(graph, p, v) && v !in todo :: v in visited
        decreases todo
      {
        var f :| f in todo;
        assert Edge(graph, p, f);
        var below := Visit(f);
        if !below { return false; }
        todo := todo - {f};
      }
      FinishKeepsOrder(graph, visited, order, bound, p);
      active, visited, stack := active - {p}, visited + {p}, old(stack);
      order, bound := order[p := bound], bound + 1;
      return true;
    }

    /** The loop over all primaries. */
    method FindCycle() returns (acyclic: bool)
      requires Valid() && active == {} && visited == {} && stack == []
      modifies this
      ensures acyclic <==> !HasCycle(graph)
    {
      var todo := graph.Keys;
      while todo != {}
        invariant Valid() && active == {} && stack == []
        invariant todo <= graph.Keys && graph.Keys - todo <= visited
        decreases todo
      {
        var p :| p in todo;
        var ok := Visit(p);
        if !ok { return false; }
        todo := todo - {p};
      }
      DescendingMeansAcyclic(graph, visited, order);
      return true;
    }
  }

  datatype Outcome = Valid | CycleNotAllowed | UnknownProvider | LacksCapabilities

  predicate Equipped(providers: map<Id, Capabilities>, p: Profile) {
    forall f | f in p.fallbacks :: f in providers && Supports(providers[f], p.required)
  }

  /** `_validate_fallbacks`: the cycle error is raised exactly when fallbacks form a cycle, and a
      registry is accepted exactly when it has no cycle and every fallback meets its profile. */
  method ValidateFallbacks(profiles: seq<Profile>, providers: map<Id, Capabilities>) returns (r: Outcome)
    ensures r == CycleNotAllowed <==> FallbackCycle(profiles)
    ensures r == Valid <==>
            !FallbackCycle(profiles) && forall k | 0 <= k < |profiles| :: Equipped(providers, profiles[k])
    ensures r == UnknownProvider ==>
            exists k, f :: 0 <= k < |profiles| && f in profiles[k].fallbacks && f !in providers
    ensures r == LacksCapabilities ==>
            exists k, f :: 0 <= k < |profiles| && f in profiles[k].fallbacks && f in providers
              && !Supports(providers[f], profiles[k].required)
  {
    var g := BuildGraph(profiles);
    RepresentsCycles(g, profiles);
    var search := new Search(g);
    var acyclic := search.FindCycle();
    if !acyclic { return CycleNotAllowed; }
    for k := 0 to |profiles|
      invariant forall i | 0 <= i < k :: Equipped(providers, profiles[i])
    {
      var p := profiles[k];
      for n := 0 to |p.fallbacks|
        invariant forall m | 0 <= m < n ::
          p.fallbacks[m] in providers && Supports(providers[p.fallbacks[m]], p.required)
      {
        var f := p.fallbacks[n];
        assert f in profiles[k].fallbacks;
        if f !in providers { return UnknownProvider; }
        if !Supports(providers[f], p.required) { return LacksCapabilities; }
      }
    }
    return Valid;
  }
}
