/** The depth-first cycle check over a family's state dependencies. */
module DependencyGraph {
  import opened Machine
  import opened StateKeys

  datatype Node = Node(key: StateKey, dependencies: seq<StateKey>)

  datatype GraphError = SelfDependency | MissingDependency | DependencyOrder | DependencyCycle

  type Graph = map<StateKey, seq<StateKey>>

  function Keys(states: seq<Node>): seq<StateKey> {
    seq(|states|, i requires 0 <= i < |states| => states[i].key)
  }

  /** Every dependency list names other states of the family, in order. */
  predicate WellFormed(states: seq<Node>) {
    forall i :: 0 <= i < |states| ==> DependenciesOk(states[i], set k | k in Keys(states))
  }

  predicate DependenciesOk(state: Node, keys: set<StateKey>) {
    && state.key !in state.dependencies
    && (forall d :: d in state.dependencies ==> d in keys)
    && Ascending(state.dependencies)
  }

  predicate Closed(graph: Graph) {
    forall k, d :: k in graph && d in graph[k] ==> d in graph
  }

  /** `graph` holds exactly the states, each with its own list. */
  predicate GraphOf(states: seq<Node>, graph: Graph) {
    && (forall i :: 0 <= i < |states| ==>
          states[i].key in graph && graph[states[i].key] == states[i].dependencies)
    && (forall k :: k in graph ==> HasKey(states, k))
  }

  predicate HasKey(states: seq<Node>, key: StateKey) {
    exists i :: 0 <= i < |states| && states[i].key == key
  }

  predicate IsPath(graph: Graph, p: seq<StateKey>) {
    && p != []
    && (forall i :: 0 <= i < |p| ==> p[i] in graph)
    && (forall i :: 0 < i < |p| ==> p[i] in graph[p[i - 1]])
  }

  predicate IsCycle(graph: Graph, p: seq<StateKey>) {
    |p| >= 2 && IsPath(graph, p) && p[0] == p[|p| - 1]
  }

  ghost predicate Acyclic(graph: Graph) {
    forall p :: !IsCycle(graph, p)
  }

  /** Every state comes after all of its dependencies. */
  predicate IsTopological(graph: Graph, order: seq<StateKey>) {
    && (forall i :: 0 <= i < |order| ==> order[i] in graph)
    && (forall i, d :: 0 <= i < |order| && d in graph[order[i]] ==> d in order[..i])
    && (forall i, j :: 0 <= i < j < |order| ==> order[i] != order[j])
  }

  lemma {:induction false} TopologicalExtend(graph: Graph, order: seq<StateKey>, key: StateKey)
    requires IsTopological(graph, order) && key in graph && key !in order
    requires forall d :: d in graph[key] ==> d in order
    ensures IsTopological(graph, order + [key])
  {
    var extended := order + [key];
    forall i, d | 0 <= i < |extended| && d in graph[extended[i]] ensures d in extended[..i] {
      assert extended[..i] == order[..i];
      assert order[..|order|] == order;
    }
  }

  lemma {:induction false} StepDescends(graph: Graph, order: seq<StateKey>, key: StateKey, d: StateKey)
      returns (a: nat, b: nat)
    requires IsTopological(graph, order) && key in graph && key in order && d in graph[key]
    ensures a < b < |order| && order[a] == d && order[b] == key
  {
    b :| 0 <= b < |order| && order[b] == key;
    assert d in order[..b];
    a :| 0 <= a < b && order[..b][a] == d;
  }

  lemma {:induction false} PlacedOnce(graph: Graph, order: seq<StateKey>, a: nat, b: nat)
    requires IsTopological(graph, order) && a < |order| && b < |order| && order[a] == order[b]
    ensures a == b
  {
  }

  lemma {:induction false} PathDescends(
      graph: Graph, order: seq<StateKey>, p: seq<StateKey>, i: nat, j: nat)
      returns (a: nat, b: nat)
    requires IsTopological(graph, order) && IsPath(graph, p)
    requires forall k :: k in graph ==> k in order
    requires i < j < |p|
    ensures a < b < |order| && order[a] == p[j] && order[b] == p[i]
    decreases j - i
  {
    hide IsTopological;
    a, b := StepDescends(graph, order, p[i], p[i + 1]);
    if i + 1 >= j {
    } else {
      var c, d := PathDescends(graph, order, p, i + 1, j);
      PlacedOnce(graph, order, a, d);
      a := c;
    }
  }

  lemma {:induction false} TopologicalAcyclic(graph: Graph, order: seq<StateKey>)
    requires IsTopological(graph, order)
    requires forall k :: k in graph ==> k in order
    ensures Acyclic(graph)
  {
    forall p ensures !IsCycle(graph, p) {
      if IsCycle(graph, p) {
        var a, b := PathDescends(graph, order, p, 0, |p| - 1);
        assert false;
      }
    }
  }

  /** One recursive visit. `path` is the chain of states being visited and
      `order` the finished ones; a rejected visit closes `path` to a cycle. */
  method Visit(key: StateKey, graph: Graph, visiting: set<StateKey>, done: set<StateKey>,
               ghost path: seq<StateKey>, ghost order: seq<StateKey>)
      returns (ok: bool, visiting': set<StateKey>, done': set<StateKey>,
               ghost order': seq<StateKey>)
    requires Closed(graph) && key in graph
    requires visiting <= graph.Keys && visiting !! done
    requires IsTopological(graph, order) && done == set k | k in order
    requires visiting == set k | k in path
    requires IsPath(graph, path + [key])
    ensures ok ==> visiting' == visiting && done <= done' && key in done' && visiting !! done'
    ensures ok ==> IsTopological(graph, order') && done' == set k | k in order'
    ensures !ok ==> exists p :: IsCycle(graph, p)
    decreases graph.Keys - visiting
  {
    visiting', done', order' := visiting, done, order;
    if key in done {
      return true, visiting', done', order';
    }
    if key in visiting {
      ghost var i :| 0 <= i < |path| && path[i] == key;
      assert IsCycle(graph, (path + [key])[i..]);
      return false, visiting', done', order';
    }
    visiting' := visiting + {key};
    var dependencies := graph[key];
    var n := 0;
    while n < |dependencies|
      invariant 0 <= n <= |dependencies|
      invariant visiting' == visiting + {key} && visiting' !! done'
      invariant done <= done' && IsTopological(graph, order') && done' == set k | k in order'
      invariant forall d :: d in dependencies[..n] ==> d in done'
    {
      ghost var deeper := path + [key];
      assert dependencies[n] in graph[key];
      assert visiting' == set k | k in deeper;
      ok, visiting', done', order' :=
        Visit(dependencies[n], graph, visiting', done', deeper, order');
      if !ok {
        return;
      }
      n := n + 1;
    }
    assert dependencies[..n] == dependencies;
    TopologicalExtend(graph, order', key);
    visiting' := visiting' - {key};
    done' := done' + {key};
    order' := order' + [key];
    ok := true;
  }

  method CheckDependencyList(key: StateKey, dependencies: seq<StateKey>, keys: set<StateKey>)
      returns (r: Result<bool, GraphError>)
    ensures r.Ok? <==> DependenciesOk(Node(key, dependencies), keys)
    ensures r != Err(DependencyCycle)
  {
    var n := 0;
    while n < |dependencies|
      invariant 0 <= n <= |dependencies|
      invariant DependenciesOk(Node(key, dependencies[..n]), keys)
    {
      if dependencies[n] == key {
        return Err(SelfDependency);
      }
      if dependencies[n] !in keys {
        return Err(MissingDependency);
      }
      if n > 0 && !KeyLess(dependencies[n - 1], dependencies[n]) {
        return Err(DependencyOrder);
      }
      n := n + 1;
    }
    assert dependencies[..n] == dependencies;
    return Ok(true);
  }

  lemma {:induction false} GraphGrows(states: seq<Node>, n: nat, graph: Graph)
    requires n < |states| && Ascending(Keys(states)) && GraphOf(states[..n], graph)
    ensures GraphOf(states[..n + 1], graph[states[n].key := states[n].dependencies])
  {
    hide Ascending, KeyLess;
    var before, after := states[..n], states[..n + 1];
    forall i | 0 <= i < n ensures states[i].key != states[n].key {
      AscendingDistinct(Keys(states), i, n);
    }
    assert after == before + [states[n]];
    forall k | k in graph[states[n].key := states[n].dependencies] ensures HasKey(after, k) {
      if k == states[n].key {
        assert after[n].key == k;
      } else {
        var i :| 0 <= i < |before| && before[i].key == k;
        assert after[i].key == k;
      }
    }
  }

  lemma {:induction false} GraphKeys(states: seq<Node>, graph: Graph)
    requires GraphOf(states, graph)
    ensures graph.Keys == set k | k in Keys(states)
  {
    forall k ensures k in graph <==> k in Keys(states) {
      if k in graph {
        var i :| 0 <= i < |states| && states[i].key == k;
        assert Keys(states)[i] == k;
      }
      if k in Keys(states) {
        var i :| 0 <= i < |Keys(states)| && Keys(states)[i] == k;
      }
    }
  }

  /** The map the validator collects from a family with unique keys. */
  method CollectGraph(states: seq<Node>) returns (keys: set<StateKey>, graph: Graph)
    requires Ascending(Keys(states))
    ensures keys == graph.Keys == set k | k in Keys(states)
    ensures GraphOf(states, graph)
  {
    keys, graph := {}, map[];
    for n := 0 to |states|
      invariant keys == graph.Keys
      invariant GraphOf(states[..n], graph)
    {
      hide GraphOf, Ascending;
      GraphGrows(states, n, graph);
      keys := keys + {states[n].key};
      graph := graph[states[n].key := states[n].dependencies];
    }
    assert states[..|states|] == states;
    GraphKeys(states, graph);
  }

  lemma {:induction false} GraphIsClosed(states: seq<Node>, graph: Graph)
    requires GraphOf(states, graph)
    requires forall i :: 0 <= i < |states| ==> DependenciesOk(states[i], graph.Keys)
    ensures Closed(graph)
  {
    forall k, d | k in graph && d in graph[k] ensures d in graph {
      assert HasKey(states, k);
    }
  }

  lemma {:induction false} NothingOrdered(graph: Graph)
    ensures IsTopological(graph, [])
    ensures forall key: StateKey :: key in graph ==> IsPath(graph, [] + [key])
  {
  }

  lemma {:induction false} StateIsNode(states: seq<Node>, graph: Graph, n: nat)
    requires GraphOf(states, graph) && n < |states|
    ensures states[n].key in graph
  {
  }

  lemma {:induction false} AllOrdered(states: seq<Node>, graph: Graph, order: seq<StateKey>)
    requires GraphOf(states, graph)
    requires forall i :: 0 <= i < |states| ==> states[i].key in order
    ensures forall k :: k in graph ==> k in order
  {
    forall k | k in graph ensures k in order {
      assert HasKey(states, k);
    }
  }

  lemma {:induction false} GraphUnique(states: seq<Node>, a: Graph, b: Graph)
    requires GraphOf(states, a) && GraphOf(states, b)
    ensures a == b
  {
    forall k ensures k in a <==> k in b {
      if k in a {
        assert HasKey(states, k);
      }
      if k in b {
        assert HasKey(states, k);
      }
    }
    forall k | k in a ensures a[k] == b[k] {
      assert HasKey(states, k);
    }
  }

  /** The dependencies of the states have no cycle. */
  ghost predicate AcyclicStates(states: seq<Node>) {
    exists graph :: GraphOf(states, graph) && Acyclic(graph)
  }

  ghost predicate Orders(states: seq<Node>, graph: Graph, order: seq<StateKey>) {
    GraphOf(states, graph) && IsTopological(graph, order) && forall k :: k in graph ==> k in order
  }

  ghost predicate CycleIn(states: seq<Node>, graph: Graph, p: seq<StateKey>) {
    GraphOf(states, graph) && IsCycle(graph, p)
  }

  lemma {:induction false} CycleIsReal(states: seq<Node>, graph: Graph)
    requires GraphOf(states, graph) && exists p :: IsCycle(graph, p)
    ensures !AcyclicStates(states) && exists g, p :: CycleIn(states, g, p)
  {
    hide GraphOf, IsCycle;
    var p :| IsCycle(graph, p);
    assert CycleIn(states, graph, p);
    if AcyclicStates(states) {
      var other :| GraphOf(states, other) && Acyclic(other);
      GraphUnique(states, graph, other);
    }
  }

  lemma {:induction false} OrderIsWhole(states: seq<Node>, graph: Graph, order: seq<StateKey>)
    requires GraphOf(states, graph) && IsTopological(graph, order)
    requires forall i :: 0 <= i < |states| ==> states[i].key in order
    ensures AcyclicStates(states) && exists g, o :: Orders(states, g, o)
  {
    hide GraphOf, IsTopological;
    AllOrdered(states, graph, order);
    TopologicalAcyclic(graph, order);
    assert Orders(states, graph, order);
  }

  /** Accepts exactly the well-formed acyclic families. Acceptance comes with
      a complete topological order, a cycle error with a real cycle. The
      caller has already put the states in strict key order. */
  method ValidateDependencies(states: seq<Node>) returns (r: Result<bool, GraphError>)
    requires Ascending(Keys(states))
    ensures r.Ok? <==> WellFormed(states) && AcyclicStates(states)
    ensures r.Ok? ==> exists graph, order :: Orders(states, graph, order)
    ensures r == Err(DependencyCycle) ==> WellFormed(states) && exists graph, p :: CycleIn(states, graph, p)
  {
    hide GraphOf, DependenciesOk, IsTopological, Acyclic, Closed, Ascending, IsCycle, AcyclicStates, Orders, CycleIn;
    var keys, edges := CollectGraph(states);
    NothingOrdered(edges);
    for n := 0 to |states|
      invariant forall i :: 0 <= i < n ==> DependenciesOk(states[i], keys)
    {
      var checked := CheckDependencyList(states[n].key, states[n].dependencies, keys);
      if checked.Err? {
        assert !DependenciesOk(states[n], keys);
        return Err(checked.error);
      }
    }
    GraphIsClosed(states, edges);
    var visiting: set<StateKey>, done: set<StateKey> := {}, {};
    ghost var order: seq<StateKey> := [];
    for n := 0 to |states|
      invariant visiting == {} && IsTopological(edges, order) && done == set k | k in order
      invariant forall i :: 0 <= i < n ==> states[i].key in done
    {
      StateIsNode(states, edges, n);
      var ok;
      ok, visiting, done, order := Visit(states[n].key, edges, visiting, done, [], order);
      if !ok {
        CycleIsReal(states, edges);
        return Err(DependencyCycle);
      }
    }
    OrderIsWhole(states, edges, order);
    return Ok(true);
  }
}
