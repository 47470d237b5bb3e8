/** `WorkflowService.build_execution_order`: Kahn's topological sort over the
    node ids, with a first-in first-out queue seeded from the ids of in-degree
    zero in dictionary insertion order. Only edges whose source is a node id
    are counted; a counted edge whose target is not a node id makes the
    in-degree update raise `KeyError`. */
module Scheduling {
  import opened Values
  import opened Workflow

  /** The node ids, in node order (duplicates kept). */
  function Ids(nodes: seq<Node>): (ids: seq<string>)
    ensures |ids| == |nodes| && forall i :: 0 <= i < |nodes| ==> ids[i] == nodes[i].id
  {
    seq(|nodes|, i requires 0 <= i < |nodes| => nodes[i].id)
  }

  function SetOf(s: seq<string>): set<string> {
    set x | x in s
  }

  predicate Distinct(s: seq<string>) {
    forall i, j :: 0 <= i < j < |s| ==> s[i] != s[j]
  }

  /** The keys of a dictionary filled with `ids`, in insertion order: each id
      at its first occurrence. */
  function Keys(ids: seq<string>): seq<string>
  {
    if ids == [] then []
    else
      var init := Keys(ids[..|ids| - 1]);
      var last := ids[|ids| - 1];
      if last in init then init else init + [last]
  }

  /** The insertion-order keys are distinct and are exactly the ids. */
  lemma {:induction false} KeysSpec(ids: seq<string>)
    ensures Distinct(Keys(ids)) && SetOf(Keys(ids)) == SetOf(ids)
  {
    if ids != [] {
      var init := ids[..|ids| - 1];
      var last := ids[|ids| - 1];
      KeysSpec(init);
      assert ids == init + [last];
      assert SetOf(ids) == SetOf(init) + {last};
      if last !in Keys(init) {
        DistinctAppend(Keys(init), last);
        assert SetOf(Keys(init) + [last]) == SetOf(Keys(init)) + {last};
      }
    }
  }

  /** An edge the sort counts: its source is a node id. */
  predicate Counted(e: Edge, ids: set<string>) {
    e.source in ids
  }

  /** A counted edge whose target is not a node id: `in_degree[target]` raises. */
  predicate Dangling(e: Edge, ids: set<string>) {
    e.source in ids && e.target !in ids
  }

  /** The number of counted edges into `v` whose source is not in `done`:
      `in_degree[v]` once the nodes of `done` have been emitted. */
  function InCount(edges: seq<Edge>, ids: set<string>, done: set<string>, v: string): nat {
    if edges == [] then 0
    else
      var e := edges[|edges| - 1];
      InCount(edges[..|edges| - 1], ids, done, v)
      + (if Counted(e, ids) && e.source !in done && e.target == v then 1 else 0)
  }

  /** `graph[u]`: the targets of the edges out of `u`, in edge order. */
  function Targets(edges: seq<Edge>, u: string): seq<string> {
    if edges == [] then []
    else
      var e := edges[|edges| - 1];
      Targets(edges[..|edges| - 1], u) + (if e.source == u then [e.target] else [])
  }

  /** Without dangling edges, every successor of a node id is a node id. */
  lemma {:induction false} TargetsIn(edges: seq<Edge>, u: string, x: string, ids: set<string>)
    requires u in ids && x in Targets(edges, u)
    requires forall e :: e in edges ==> !Dangling(e, ids)
    ensures x in ids
  {
    var init := edges[..|edges| - 1];
    var e := edges[|edges| - 1];
    if x in Targets(init, u) {
      TargetsIn(init, u, x, ids);
    } else {
      assert e in edges;
    }
  }

  lemma TargetsSnoc(edges: seq<Edge>, e: Edge, u: string)
    ensures Targets(edges + [e], u) == Targets(edges, u) + (if e.source == u then [e.target] else [])
  {
    assert (edges + [e])[..|edges|] == edges;
  }

  lemma InCountSnoc(edges: seq<Edge>, e: Edge, ids: set<string>, done: set<string>, v: string)
    ensures InCount(edges + [e], ids, done, v)
            == InCount(edges, ids, done, v) + (if Counted(e, ids) && e.source !in done && e.target == v then 1 else 0)
  {
    assert (edges + [e])[..|edges|] == edges;
  }

  /** The number of occurrences of `v` in `s`. */
  function Occ(v: string, s: seq<string>): nat {
    if s == [] then 0 else (if s[0] == v then 1 else 0) + Occ(v, s[1..])
  }

  /** The initial queue: the keys, in order, whose in-degree is zero. */
  function Roots(ks: seq<string>, edges: seq<Edge>, ids: set<string>): seq<string>
  {
    if ks == [] then []
    else
      var init := Roots(ks[..|ks| - 1], edges, ids);
      var last := ks[|ks| - 1];
      init + (if InCount(edges, ids, {}, last) == 0 then [last] else [])
  }

  /** The roots are the keys of in-degree zero, distinct when the keys are. */
  lemma {:induction false} RootsSpec(ks: seq<string>, edges: seq<Edge>, ids: set<string>)
    ensures SetOf(Roots(ks, edges, ids)) <= SetOf(ks)
    ensures Distinct(ks) ==> Distinct(Roots(ks, edges, ids))
    ensures forall k :: k in ks && InCount(edges, ids, {}, k) == 0 ==> k in Roots(ks, edges, ids)
    ensures forall k :: k in Roots(ks, edges, ids) ==> InCount(edges, ids, {}, k) == 0
  {
    if ks != [] {
      var init := ks[..|ks| - 1];
      var last := ks[|ks| - 1];
      RootsSpec(init, edges, ids);
      assert ks == init + [last];
      assert SetOf(ks) == SetOf(init) + {last};
      var r := Roots(init, edges, ids);
      if InCount(edges, ids, {}, last) == 0 {
        assert SetOf(r + [last]) == SetOf(r) + {last};
        if Distinct(ks) {
          assert last !in init;
          DistinctAppend(r, last);
        }
      }
    }
  }

  /** Every counted edge into an emitted node comes from a node emitted before it. */
  predicate PredClosed(order: seq<string>, edges: seq<Edge>, ids: set<string>) {
    forall j, e :: 0 <= j < |order| && e in edges && Counted(e, ids) && e.target == order[j]
      ==> e.source in order[..j]
  }

  /** Every node all of whose counted predecessors were emitted was emitted too. */
  predicate Maximal(order: seq<string>, edges: seq<Edge>, ids: set<string>) {
    forall v :: v in ids && InCount(edges, ids, SetOf(order), v) == 0 ==> v in order
  }

  /** What `build_execution_order` returns: each node id at most once, a
      topological order of the counted edges, as long as it can be, starting
      with the ids of in-degree zero in insertion order. */
  predicate ExecutionOrder(order: seq<string>, ids: seq<string>, edges: seq<Edge>) {
    var s := SetOf(ids);
    Distinct(order) && SetOf(order) <= s
    && PredClosed(order, edges, s) && Maximal(order, edges, s)
    && Roots(Keys(ids), edges, s) <= order
  }

  /** `graph` once the edges are counted: each node id's successors in edge order. */
  function GraphOf(s: set<string>, edges: seq<Edge>): map<string, seq<string>> {
    map u | u in s :: Targets(edges, u)
  }

  /** `in_degree` once the edges are counted. */
  function InDegreeOf(s: set<string>, edges: seq<Edge>): map<string, int> {
    map v | v in s :: InCount(edges, s, {}, v)
  }

  /** The order `build_execution_order` returns when no edge dangles: the
      first-in first-out run of `Kahn` from the in-degree-zero keys. Each pass
      emits a new node id, so `|s|` passes are never the reason it stops. */
  function FifoOrder(ids: seq<string>, edges: seq<Edge>): seq<string>
    requires forall e :: e in edges ==> !Dangling(e, SetOf(ids))
  {
    var s := SetOf(ids);
    KeysSpec(ids);
    RootsSpec(Keys(ids), edges, s);
    TargetsAllIn(edges, s);
    Kahn(GraphOf(s, edges), InDegreeOf(s, edges), Roots(Keys(ids), edges, s), |s|)
  }

  /** Without dangling edges, all successors of node ids are node ids. */
  lemma TargetsAllIn(edges: seq<Edge>, s: set<string>)
    requires forall e :: e in edges ==> !Dangling(e, s)
    ensures forall u, x :: u in s && x in Targets(edges, u) ==> x in s
  {
    forall u, x | u in s && x in Targets(edges, u) ensures x in s {
      TargetsIn(edges, u, x, s);
    }
  }

  /** The first-in first-out order is an execution order: distinct node ids,
      counted edges respected, no ready node left out, roots first. */
  lemma FifoOrderSpec(ids: seq<string>, edges: seq<Edge>)
    requires forall e :: e in edges ==> !Dangling(e, SetOf(ids))
    ensures ExecutionOrder(FifoOrder(ids, edges), ids, edges)
  {
    var s := SetOf(ids);
    var graph, inDegree := GraphOf(s, edges), InDegreeOf(s, edges);
    var queue := Roots(Keys(ids), edges, s);
    KeysSpec(ids);
    RootsSpec(Keys(ids), edges, s);
    TargetsAllIn(edges, s);
    assert Tracks(inDegree, s, edges, {}, []) by {
      forall v | v in s ensures inDegree[v] == InCount(edges, s, {}, v) + Occ(v, []) { }
    }
    assert Successors(graph, s, edges);
    KahnStart(s, edges, graph, inDegree, queue, []);
  }

  /** The sort started from the roots with nothing emitted yet. */
  lemma KahnStart(s: set<string>, edges: seq<Edge>, graph: map<string, seq<string>>, inDegree: map<string, int>,
                  queue: seq<string>, order: seq<string>)
    requires Successors(graph, s, edges)
    requires Tracks(inDegree, s, edges, {}, [])
    requires Frontier(inDegree, s, queue)
    requires order == []
    ensures Completes(Kahn(graph, inDegree, queue, |s|), queue, edges, s)
  {
    assert order + queue == queue;
    DistinctBound(queue, s);
    assert SetOf(order) == {};
    assert Pending(inDegree, s, edges, order, queue);
    YieldsAtStart(graph, inDegree, queue, s, order);
    KahnSpec(s, edges, graph, inDegree, order, queue, |s|, Kahn(graph, inDegree, queue, |s|));
  }

  /** The sort emits every node id exactly when the graph has no cycle. */
  lemma FifoCompleteIffAcyclic(ids: seq<string>, edges: seq<Edge>)
    requires forall e :: e in edges ==> !Dangling(e, SetOf(ids))
    ensures SetOf(FifoOrder(ids, edges)) == SetOf(ids) <==> Acyclic(SetOf(ids), edges)
  {
    FifoOrderSpec(ids, edges);
    CompleteIffAcyclic(FifoOrder(ids, edges), ids, edges);
  }

  /** `build_execution_order(nodes, edges)`: `Err(t)` is the `KeyError` for
      the target `t` of the first dangling edge; otherwise the first-in
      first-out order, which is an execution order. */
  method BuildExecutionOrder(nodes: seq<Node>, edges: seq<Edge>) returns (r: Result<seq<string>, string>)
    ensures r.Err? <==> exists e :: e in edges && Dangling(e, SetOf(Ids(nodes)))
    ensures r.Err? ==> exists k :: 0 <= k < |edges| && Dangling(edges[k], SetOf(Ids(nodes)))
                                   && r.error == edges[k].target
                                   && forall k' :: 0 <= k' < k ==> !Dangling(edges[k'], SetOf(Ids(nodes)))
    ensures r.Ok? ==> && (forall e :: e in edges ==> !Dangling(e, SetOf(Ids(nodes))))
                      && r.value == FifoOrder(Ids(nodes), edges)
                      && ExecutionOrder(r.value, Ids(nodes), edges)
  {
    ghost var ids := Ids(nodes);
    ghost var s := SetOf(ids);
    var graph, inDegree, keys := InitTables(nodes);
    KeysSpec(ids);
    var built := CountEdges(s, edges, graph, inDegree);
    if built.Err? {
      return Err(built.error);
    }
    var order := SortCounted(ids, edges, built.value.0, built.value.1, keys);
    FifoOrderSpec(ids, edges);
    r := Ok(order);
  }

  /** The queue and `while queue` part of `build_execution_order`, once
      every edge has been counted. */
  method SortCounted(ghost ids: seq<string>, ghost edges: seq<Edge>, graph: map<string, seq<string>>,
                     inDegree: map<string, int>, keys: seq<string>) returns (order: seq<string>)
    requires forall e :: e in edges ==> !Dangling(e, SetOf(ids))
    requires Filled(graph, inDegree, SetOf(ids), edges)
    requires keys == Keys(ids)
    ensures order == FifoOrder(ids, edges)
  {
    ghost var s := SetOf(ids);
    KeysSpec(ids);
    TargetsAllIn(edges, s);
    assert graph == GraphOf(s, edges);
    assert inDegree == InDegreeOf(s, edges);

    var queue := InitialQueue(keys, inDegree, s, edges);
    assert Tracks(inDegree, s, edges, {}, []) by {
      forall v | v in s ensures inDegree[v] == InCount(edges, s, {}, v) + Occ(v, []) { }
    }
    assert Successors(graph, s, edges);
    order := Drain(s, edges, graph, inDegree, queue);
  }

  /** `[node_id for node_id, degree in in_degree.items() if degree == 0]`. */
  method InitialQueue(keys: seq<string>, inDegree: map<string, int>, ghost s: set<string>, ghost edges: seq<Edge>)
    returns (queue: seq<string>)
    requires Distinct(keys) && SetOf(keys) == s && inDegree.Keys == s
    requires forall v :: v in s ==> inDegree[v] == InCount(edges, s, {}, v)
    ensures queue == Roots(keys, edges, s)
    ensures Frontier(inDegree, s, queue)
  {
    queue := [];
    for i := 0 to |keys|
      invariant queue == Roots(keys[..i], edges, s)
    {
      assert keys[..i + 1] == keys[..i] + [keys[i]];
      if inDegree[keys[i]] == 0 {
        queue := queue + [keys[i]];
      }
    }
    assert keys[..|keys|] == keys;
    RootsSpec(keys, edges, s);
  }

  /** The loop over the nodes that gives every id an empty successor list
      and an in-degree of zero; `keys` is the insertion order both
      dictionaries remember. */
  method InitTables(nodes: seq<Node>) returns (graph: map<string, seq<string>>, inDegree: map<string, int>, keys: seq<string>)
    ensures graph.Keys == SetOf(Ids(nodes)) && inDegree.Keys == SetOf(Ids(nodes))
    ensures forall u :: u in graph ==> graph[u] == []
    ensures forall u :: u in inDegree ==> inDegree[u] == 0
    ensures keys == Keys(Ids(nodes))
  {
    ghost var ids := Ids(nodes);
    graph, inDegree, keys := map[], map[], [];
    for i := 0 to |nodes|
      invariant keys == Keys(ids[..i])
      invariant graph.Keys == SetOf(ids[..i]) && inDegree.Keys == SetOf(ids[..i])
      invariant forall u :: u in graph ==> graph[u] == []
      invariant forall u :: u in inDegree ==> inDegree[u] == 0
    {
      var id := nodes[i].id;
      assert ids[..i + 1][..i] == ids[..i] && ids[i] == id;
      assert SetOf(ids[..i + 1]) == SetOf(ids[..i]) + {id};
      KeysSpec(ids[..i]);
      assert id in Keys(ids[..i]) <==> id in graph;
      if id !in graph {
        keys := keys + [id];
      }
      graph := graph[id := []];
      inDegree := inDegree[id := 0];
    }
    assert ids[..|nodes|] == ids;
  }

  /** `graph` and `in_degree` after the edges `seen`. */
  predicate Filled(graph: map<string, seq<string>>, inDegree: map<string, int>, s: set<string>, seen: seq<Edge>) {
    graph.Keys == s && inDegree.Keys == s
    && (forall u :: u in graph ==> graph[u] == Targets(seen, u))
    && (forall v :: v in inDegree ==> inDegree[v] == InCount(seen, s, {}, v))
  }

  /** One pass of the edge loop keeps `graph` and `in_degree` filled. */
  lemma CountStep(graph: map<string, seq<string>>, inDegree: map<string, int>,
                  graph': map<string, seq<string>>, inDegree': map<string, int>,
                  s: set<string>, edges: seq<Edge>, j: nat)
    requires j < |edges|
    requires Filled(graph, inDegree, s, edges[..j])
    requires edges[j].source in graph ==>
               && edges[j].target in inDegree
               && graph' == graph[edges[j].source := graph[edges[j].source] + [edges[j].target]]
               && inDegree' == inDegree[edges[j].target := inDegree[edges[j].target] + 1]
    requires edges[j].source !in graph ==> graph' == graph && inDegree' == inDegree
    ensures Filled(graph', inDegree', s, edges[..j + 1])
  {
    var seen, e := edges[..j], edges[j];
    assert edges[..j + 1] == seen + [e];
    forall u | u in graph' ensures graph'[u] == Targets(seen + [e], u) {
      TargetsSnoc(seen, e, u);
    }
    forall v | v in inDegree' ensures inDegree'[v] == InCount(seen + [e], s, {}, v) {
      InCountSnoc(seen, e, s, {}, v);
    }
  }

  /** The edge at `j` is the first dangling one. */
  lemma FirstDangling(edges: seq<Edge>, s: set<string>, j: nat)
    requires j < |edges| && Dangling(edges[j], s)
    requires forall k :: 0 <= k < j ==> !Dangling(edges[k], s)
    ensures exists e :: e in edges && Dangling(e, s)
    ensures exists k :: 0 <= k < |edges| && Dangling(edges[k], s) && edges[j].target == edges[k].target
                        && forall k' :: 0 <= k' < k ==> !Dangling(edges[k'], s)
  {
    assert edges[j] in edges;
  }

  /** The loop over the edges that fills `graph` and `in_degree`. */
  method CountEdges(ghost s: set<string>, edges: seq<Edge>, graph0: map<string, seq<string>>, inDegree0: map<string, int>)
    returns (r: Result<(map<string, seq<string>>, map<string, int>), string>)
    requires graph0.Keys == s && inDegree0.Keys == s
    requires forall u :: u in graph0 ==> graph0[u] == []
    requires forall u :: u in inDegree0 ==> inDegree0[u] == 0
    ensures r.Err? <==> exists e :: e in edges && Dangling(e, s)
    ensures r.Err? ==> exists k :: 0 <= k < |edges| && Dangling(edges[k], s) && r.error == edges[k].target
                                   && forall k' :: 0 <= k' < k ==> !Dangling(edges[k'], s)
    ensures r.Ok? ==> Filled(r.value.0, r.value.1, s, edges)
  {
    var graph, inDegree := graph0, inDegree0;
    assert edges[..0] == [];
    for j := 0 to |edges|
      invariant Filled(graph, inDegree, s, edges[..j])
      invariant forall k :: 0 <= k < j ==> !Dangling(edges[k], s)
    {
      var step := CountEdge(s, edges, j, graph, inDegree);
      if step.Err? {
        FirstDangling(edges, s, j);
        return Err(step.error);
      }
      graph, inDegree := step.value.0, step.value.1;
    }
    NoDangling(edges, s);
    assert edges[..|edges|] == edges;
    r := Ok((graph, inDegree));
  }

  /** One pass of the edge loop: an edge from a node id records its target
      among the source's successors and raises the target's in-degree, or
      raises `KeyError` when the target is not a node id. */
  method CountEdge(ghost s: set<string>, edges: seq<Edge>, j: nat, graph: map<string, seq<string>>, inDegree: map<string, int>)
    returns (r: Result<(map<string, seq<string>>, map<string, int>), string>)
    requires j < |edges| && Filled(graph, inDegree, s, edges[..j])
    ensures r.Err? <==> Dangling(edges[j], s)
    ensures r.Err? ==> r.error == edges[j].target
    ensures r.Ok? ==> Filled(r.value.0, r.value.1, s, edges[..j + 1])
  {
    var e := edges[j];
    var graph', inDegree' := graph, inDegree;
    if e.source in graph {
      if e.target !in inDegree {
        return Err(e.target);
      }
      graph' := graph[e.source := graph[e.source] + [e.target]];
      inDegree' := inDegree[e.target := inDegree[e.target] + 1];
    }
    CountStep(graph, inDegree, graph', inDegree', s, edges, j);
    r := Ok((graph', inDegree'));
  }

  /** Every edge checked and none dangling: no edge of the list dangles. */
  lemma NoDangling(edges: seq<Edge>, s: set<string>)
    requires forall k :: 0 <= k < |edges| ==> !Dangling(edges[k], s)
    ensures !exists e :: e in edges && Dangling(e, s)
  {
    forall e | e in edges ensures !Dangling(e, s) {
      var k :| 0 <= k < |edges| && edges[k] == e;
    }
  }

  /** `in_degree` while the successors `rest` of the last emitted node are
      still to be released: the counted edges from nodes not in `done`, plus
      the pending decrements. */
  predicate Tracks(inDegree: map<string, int>, s: set<string>, edges: seq<Edge>, done: set<string>, rest: seq<string>) {
    inDegree.Keys == s
    && forall v :: v in s ==> inDegree[v] == InCount(edges, s, done, v) + Occ(v, rest)
  }

  /** The ids emitted or queued (`order + queue`) are distinct node ids, and
      they are exactly the ids whose in-degree has reached zero. */
  predicate Frontier(inDegree: map<string, int>, s: set<string>, seen: seq<string>) {
    inDegree.Keys == s && Distinct(seen) && SetOf(seen) <= s
    && forall v :: v in s ==> (inDegree[v] == 0 <==> v in seen)
  }

  /** The `for neighbor in graph[current]` loop: each successor, in order,
      loses one from its in-degree and joins the end of the queue when that
      reaches zero. */
  function ReleaseAll(inDegree: map<string, int>, queue: seq<string>, succ: seq<string>): (r: (map<string, int>, seq<string>))
    requires forall x :: x in succ ==> x in inDegree
    ensures r.0.Keys == inDegree.Keys
    ensures forall x :: x in r.1 ==> x in queue || x in succ
    decreases |succ|
  {
    if succ == [] then (inDegree, queue)
    else
      var r := Step(inDegree, queue, succ[0]);
      ReleaseAll(r.0, r.1, succ[1..])
  }

  /** One neighbour: `in_degree[neighbor] -= 1`, and the neighbour joins the
      queue when that reaches zero. */
  function Step(inDegree: map<string, int>, queue: seq<string>, n: string): (r: (map<string, int>, seq<string>))
    requires n in inDegree
    ensures r.0.Keys == inDegree.Keys
  {
    var d := inDegree[n := inDegree[n] - 1];
    (d, if d[n] == 0 then queue + [n] else queue)
  }

  /** One pass of the `while queue` loop: `queue.popleft()` and the release
      of the popped node's successors; the new in-degrees and queue. */
  function Pass(graph: map<string, seq<string>>, inDegree: map<string, int>, queue: seq<string>)
    : (r: (map<string, int>, seq<string>))
    requires inDegree.Keys == graph.Keys
    requires forall u, x :: u in graph && x in graph[u] ==> x in graph
    requires queue != [] && queue[0] in graph
    ensures r.0.Keys == graph.Keys
    ensures forall x :: x in r.1 ==> x in queue[1..] || x in graph[queue[0]]
  {
    ReleaseAll(inDegree, queue[1..], graph[queue[0]])
  }

  /** The `while queue` loop, for at most `fuel` passes: pop the head of the
      queue, emit it, and release its successors. */
  function Kahn(graph: map<string, seq<string>>, inDegree: map<string, int>, queue: seq<string>, fuel: nat): seq<string>
    requires inDegree.Keys == graph.Keys
    requires forall u, x :: u in graph && x in graph[u] ==> x in graph
    requires forall x :: x in queue ==> x in graph
    decreases fuel
  {
    if queue == [] || fuel == 0 then []
    else
      var r := Pass(graph, inDegree, queue);
      [queue[0]] + Kahn(graph, r.0, r.1, fuel - 1)
  }

  /** `full` is what the loop emits: `order`, then `fuel` more passes from
      `inDegree` and `queue`. */
  predicate Yields(full: seq<string>, graph: map<string, seq<string>>, inDegree: map<string, int>,
                   queue: seq<string>, fuel: nat, order: seq<string>) {
    && inDegree.Keys == graph.Keys
    && (forall u, x :: u in graph && x in graph[u] ==> x in graph)
    && (forall x :: x in queue ==> x in graph)
    && full == order + Kahn(graph, inDegree, queue, fuel)
  }

  /** Releasing the successors of the last emitted node keeps the in-degrees
      counting the edges from nodes not yet emitted, and queues exactly the
      nodes whose count reaches zero, after those already queued. */
  lemma {:induction false} ReleaseAllSpec(s: set<string>, edges: seq<Edge>, done: set<string>, succ: seq<string>,
                                          inDegree: map<string, int>, order: seq<string>, queue: seq<string>)
    requires forall x :: x in succ ==> x in s
    requires Tracks(inDegree, s, edges, done, succ)
    requires Frontier(inDegree, s, order + queue)
    ensures Tracks(ReleaseAll(inDegree, queue, succ).0, s, edges, done, [])
    ensures Frontier(ReleaseAll(inDegree, queue, succ).0, s, order + ReleaseAll(inDegree, queue, succ).1)
    ensures queue <= ReleaseAll(inDegree, queue, succ).1
    decreases |succ|
  {
    if succ != [] {
      StepSpec(s, edges, done, succ, inDegree, order, queue);
      var r := Step(inDegree, queue, succ[0]);
      ReleaseAllSpec(s, edges, done, succ[1..], r.0, order, r.1);
    }
  }

  /** Releasing the first successor keeps the in-degrees and the frontier. */
  lemma StepSpec(s: set<string>, edges: seq<Edge>, done: set<string>, succ: seq<string>,
                 inDegree: map<string, int>, order: seq<string>, queue: seq<string>)
    requires succ != [] && forall x :: x in succ ==> x in s
    requires Tracks(inDegree, s, edges, done, succ)
    requires Frontier(inDegree, s, order + queue)
    ensures Tracks(Step(inDegree, queue, succ[0]).0, s, edges, done, succ[1..])
    ensures Frontier(Step(inDegree, queue, succ[0]).0, s, order + Step(inDegree, queue, succ[0]).1)
    ensures queue <= Step(inDegree, queue, succ[0]).1
  {
    var n := succ[0];
    ReleaseOne(s, edges, done, succ, inDegree, order + queue);
    assert (order + queue) + [n] == order + (queue + [n]);
  }

  /** Popping the head of the queue: a node id not yet emitted. */
  lemma PopHead(s: set<string>, inDegree: map<string, int>, order: seq<string>, queue: seq<string>)
    requires queue != []
    requires Frontier(inDegree, s, order + queue)
    ensures (order + [queue[0]]) + queue[1..] == order + queue
    ensures queue[0] in s && queue[0] !in SetOf(order)
  {
    var current := queue[0];
    assert (order + queue)[|order|] == current;
    forall i | 0 <= i < |order| ensures order[i] != current {
      assert (order + queue)[i] == order[i];
    }
    assert (order + [current]) + queue[1..] == order + queue;
  }

  /** `full` is an execution order over `s` extending `seen`: distinct node
      ids, counted predecessors first, no ready node left out. */
  predicate Completes(full: seq<string>, seen: seq<string>, edges: seq<Edge>, s: set<string>) {
    Distinct(full) && SetOf(full) <= s && PredClosed(full, edges, s) && Maximal(full, edges, s) && seen <= full
  }

  /** `graph` as the edge loop leaves it: each node id's successors, all of
      them node ids. */
  predicate Successors(graph: map<string, seq<string>>, s: set<string>, edges: seq<Edge>) {
    graph.Keys == s
    && (forall u :: u in s ==> graph[u] == Targets(edges, u))
    && (forall u, x :: u in graph && x in graph[u] ==> x in graph)
  }

  /** The state of the `while queue` loop after emitting `order`. */
  predicate Pending(inDegree: map<string, int>, s: set<string>, edges: seq<Edge>, order: seq<string>, queue: seq<string>) {
    Tracks(inDegree, s, edges, SetOf(order), []) && Frontier(inDegree, s, order + queue)
    && |order + queue| <= |s| && (forall x :: x in queue ==> x in s)
  }

  /** What the loop emits after `order`, with `queue` pending, completes an
      execution order: `full` is `order` followed by the remaining passes. */
  lemma {:induction false} KahnSpec(s: set<string>, edges: seq<Edge>, graph: map<string, seq<string>>,
                                    inDegree: map<string, int>, order: seq<string>, queue: seq<string>,
                                    fuel: nat, full: seq<string>)
    requires Successors(graph, s, edges)
    requires Pending(inDegree, s, edges, order, queue)
    requires PredClosed(order, edges, s)
    requires fuel == |s| - |order|
    requires Yields(full, graph, inDegree, queue, fuel, order)
    ensures Completes(full, order + queue, edges, s)
    decreases fuel, 1
  {
    if queue == [] {
      assert order + queue == order;
      forall v | v in s && InCount(edges, s, SetOf(order), v) == 0 ensures v in order {
        assert inDegree[v] == InCount(edges, s, SetOf(order), v) + Occ(v, []);
      }
    } else {
      KahnStep(s, edges, graph, inDegree, order, queue, fuel, full);
    }
  }

  /** `KahnSpec` when the queue is not empty: the head is emitted, and the
      rest follows from the state after its release. */
  lemma {:induction false} KahnStep(s: set<string>, edges: seq<Edge>, graph: map<string, seq<string>>,
                                    inDegree: map<string, int>, order: seq<string>, queue: seq<string>,
                                    fuel: nat, full: seq<string>)
    requires Successors(graph, s, edges)
    requires Pending(inDegree, s, edges, order, queue)
    requires PredClosed(order, edges, s)
    requires queue != []
    requires fuel == |s| - |order|
    requires Yields(full, graph, inDegree, queue, fuel, order)
    ensures Completes(full, order + queue, edges, s)
    decreases fuel, 0
  {
    var order' := order + [queue[0]];
    var r := Pass(graph, inDegree, queue);
    var inDegree', queue' := r.0, r.1;
    PopStep(s, edges, graph, inDegree, order, queue, inDegree', order', queue');
    PredClosedExtend(order, queue[0], edges, s);
    var next := fuel - 1;
    KahnUnfold(graph, inDegree, queue, fuel, inDegree', queue', next, order, order', full);
    KahnSpec(s, edges, graph, inDegree', order', queue', next, full);
    PrefixGrows(order + queue, order', queue[1..], queue');
  }

  /** Emitting the head of the queue (`order'`) and releasing its successors
      (`inDegree'`, `queue'`) keeps the loop's state, with the rest of the
      queue still in front; every counted edge into the head comes from an
      emitted node. */
  lemma PopStep(s: set<string>, edges: seq<Edge>, graph: map<string, seq<string>>,
                inDegree: map<string, int>, order: seq<string>, queue: seq<string>,
                inDegree': map<string, int>, order': seq<string>, queue': seq<string>)
    requires Successors(graph, s, edges)
    requires Pending(inDegree, s, edges, order, queue)
    requires queue != [] && order' == order + [queue[0]]
    requires inDegree' == Pass(graph, inDegree, queue).0
    requires queue' == Pass(graph, inDegree, queue).1
    ensures forall e :: e in edges && Counted(e, s) && e.target == queue[0] ==> e.source in SetOf(order)
    ensures Pending(inDegree', s, edges, order', queue')
    ensures queue[1..] <= queue' && order + queue == order' + queue[1..]
  {
    var current := queue[0];
    PopHead(s, inDegree, order, queue);
    assert inDegree[current] == InCount(edges, s, SetOf(order), current) + Occ(current, []);
    InCountZero(edges, s, SetOf(order), current);
    ReleaseStart(s, edges, current, order, inDegree);
    ReleaseAllSpec(s, edges, SetOf(order'), graph[current], inDegree, order', queue[1..]);
    DistinctBound(order' + queue', s);
    assert forall x :: x in queue' ==> x in SetOf(order' + queue');
  }

  /** One pass of `Kahn`, behind the nodes already emitted. */
  lemma KahnUnfold(graph: map<string, seq<string>>, inDegree: map<string, int>, queue: seq<string>, fuel: nat,
                    inDegree': map<string, int>, queue': seq<string>, next: nat,
                    order: seq<string>, order': seq<string>, full: seq<string>)
    requires inDegree.Keys == graph.Keys
    requires forall u, x :: u in graph && x in graph[u] ==> x in graph
    requires forall x :: x in queue ==> x in graph
    requires queue != [] && fuel == next + 1
    requires inDegree' == Pass(graph, inDegree, queue).0
    requires queue' == Pass(graph, inDegree, queue).1
    requires order' == order + [queue[0]]
    requires Yields(full, graph, inDegree, queue, fuel, order)
    ensures inDegree'.Keys == graph.Keys && forall x :: x in queue' ==> x in graph
    ensures Yields(full, graph, inDegree', queue', next, order')
  {
    var rest := Kahn(graph, inDegree', queue', next);
    assert Kahn(graph, inDegree, queue, fuel) == [queue[0]] + rest;
    assert order + ([queue[0]] + rest) == (order + [queue[0]]) + rest;
  }

  /** The `while queue` loop: pop the head, emit it, and release its
      successors, until the queue is empty; it emits exactly `Kahn`. */
  method Drain(ghost s: set<string>, ghost edges: seq<Edge>, graph: map<string, seq<string>>,
               inDegree0: map<string, int>, queue0: seq<string>) returns (order: seq<string>)
    requires Successors(graph, s, edges)
    requires Tracks(inDegree0, s, edges, {}, [])
    requires Frontier(inDegree0, s, queue0)
    ensures forall x :: x in queue0 ==> x in graph
    ensures order == Kahn(graph, inDegree0, queue0, |s|)
  {
    var inDegree, queue := inDegree0, queue0;
    order := [];
    assert SetOf(order) == {} && order + queue == queue;
    assert forall x :: x in queue0 ==> x in SetOf(queue0);
    DistinctBound(queue, s);
    ghost var full := Kahn(graph, inDegree0, queue0, |s|);
    ghost var fuel: nat := |s|;
    YieldsAtStart(graph, inDegree, queue, s, order);
    while queue != []
      invariant Pending(inDegree, s, edges, order, queue)
      invariant fuel == |s| - |order|
      invariant Yields(full, graph, inDegree, queue, fuel, order)
      decreases fuel
    {
      ghost var next: nat := fuel - 1;
      inDegree, order, queue := PopAndRelease(s, edges, graph, inDegree, order, queue, fuel, next, full);
      fuel := next;
    }
    assert order + queue == order;
  }

  /** Before the first pass nothing has been emitted. */
  lemma YieldsAtStart(graph: map<string, seq<string>>, inDegree: map<string, int>, queue: seq<string>,
                        s: set<string>, order: seq<string>)
    requires inDegree.Keys == graph.Keys
    requires forall u, x :: u in graph && x in graph[u] ==> x in graph
    requires forall x :: x in queue ==> x in graph
    requires order == []
    ensures Yields(Kahn(graph, inDegree, queue, |s|), graph, inDegree, queue, |s|, order)
  {
    assert [] + Kahn(graph, inDegree, queue, |s|) == Kahn(graph, inDegree, queue, |s|);
  }

  /** One pass of the `while queue` loop: `current = queue.popleft()`,
      `result.append(current)`, then the release of its successors. */
  method PopAndRelease(ghost s: set<string>, ghost edges: seq<Edge>, graph: map<string, seq<string>>,
                       inDegree: map<string, int>, order: seq<string>, queue: seq<string>,
                       ghost fuel: nat, ghost next: nat, ghost full: seq<string>)
    returns (inDegree': map<string, int>, order': seq<string>, queue': seq<string>)
    requires Successors(graph, s, edges)
    requires Pending(inDegree, s, edges, order, queue)
    requires queue != []
    requires fuel == |s| - |order| && fuel == next + 1
    requires Yields(full, graph, inDegree, queue, fuel, order)
    ensures Pending(inDegree', s, edges, order', queue')
    ensures next == |s| - |order'|
    ensures Yields(full, graph, inDegree', queue', next, order')
  {
    var current := queue[0];
    inDegree', queue' := Release(graph[current], inDegree, queue[1..]);
    order' := order + [current];
    PassKeeps(s, edges, graph, inDegree, order, queue, fuel, next, full, inDegree', order', queue');
  }

  /** One pass keeps the loop's state and what it will emit. */
  lemma PassKeeps(s: set<string>, edges: seq<Edge>, graph: map<string, seq<string>>,
                  inDegree: map<string, int>, order: seq<string>, queue: seq<string>, fuel: nat, next: nat,
                  full: seq<string>, inDegree': map<string, int>, order': seq<string>, queue': seq<string>)
    requires Successors(graph, s, edges)
    requires Pending(inDegree, s, edges, order, queue)
    requires queue != []
    requires fuel == |s| - |order| && fuel == next + 1
    requires Yields(full, graph, inDegree, queue, fuel, order)
    requires order' == order + [queue[0]]
    requires inDegree' == Pass(graph, inDegree, queue).0
    requires queue' == Pass(graph, inDegree, queue).1
    ensures Pending(inDegree', s, edges, order', queue')
    ensures next == |s| - |order'|
    ensures Yields(full, graph, inDegree', queue', next, order')
  {
    PopStep(s, edges, graph, inDegree, order, queue, inDegree', order', queue');
    KahnUnfold(graph, inDegree, queue, fuel, inDegree', queue', next, order, order', full);
  }

  /** Every counted edge into `current` comes from an emitted node, so
      emitting it keeps the emitted prefix closed under counted predecessors. */
  lemma PredClosedExtend(order: seq<string>, current: string, edges: seq<Edge>, s: set<string>)
    requires PredClosed(order, edges, s)
    requires forall e :: e in edges && Counted(e, s) && e.target == current ==> e.source in SetOf(order)
    ensures PredClosed(order + [current], edges, s)
  {
    var o := order + [current];
    forall j, e | 0 <= j < |o| && e in edges && Counted(e, s) && e.target == o[j]
      ensures e.source in o[..j]
    {
      if j < |order| {
        assert o[..j] == order[..j];
      } else {
        assert o[..j] == order;
      }
    }
  }

  /** The `for neighbor in graph[current]` loop computes `ReleaseAll`. */
  method Release(succ: seq<string>, inDegree0: map<string, int>, queue0: seq<string>)
    returns (inDegree: map<string, int>, queue: seq<string>)
    requires forall x :: x in succ ==> x in inDegree0
    ensures inDegree == ReleaseAll(inDegree0, queue0, succ).0
    ensures queue == ReleaseAll(inDegree0, queue0, succ).1
  {
    inDegree, queue := inDegree0, queue0;
    for t := 0 to |succ|
      invariant inDegree.Keys == inDegree0.Keys
      invariant ReleaseAll(inDegree, queue, succ[t..]) == ReleaseAll(inDegree0, queue0, succ)
    {
      var neighbor := succ[t];
      assert succ[t..][1..] == succ[t + 1..];
      inDegree := inDegree[neighbor := inDegree[neighbor] - 1];
      if inDegree[neighbor] == 0 {
        queue := queue + [neighbor];
      }
    }
    assert succ[|succ|..] == [];
  }

  /** Before the release loop, the in-degrees count the edges from the emitted
      nodes other than `current`, which are all still pending in `Targets`. */
  lemma ReleaseStart(s: set<string>, edges: seq<Edge>, current: string, before: seq<string>, inDegree: map<string, int>)
    requires current in s && current !in SetOf(before)
    requires Tracks(inDegree, s, edges, SetOf(before), [])
    ensures Tracks(inDegree, s, edges, SetOf(before + [current]), Targets(edges, current))
  {
    assert SetOf(before + [current]) == SetOf(before) + {current};
    forall v | v in s
      ensures inDegree[v] == InCount(edges, s, SetOf(before + [current]), v) + Occ(v, Targets(edges, current))
    {
      InCountSplit(edges, s, SetOf(before), current, v);
      assert inDegree[v] == InCount(edges, s, SetOf(before), v) + Occ(v, []);
    }
  }

  /** One decrement of the release loop: a successor whose count reaches zero
      is new to `order + queue`, and appending it keeps the frontier. */
  lemma ReleaseOne(s: set<string>, edges: seq<Edge>, done: set<string>, rest: seq<string>,
                   inDegree: map<string, int>, seen: seq<string>)
    requires rest != [] && rest[0] in s
    requires Tracks(inDegree, s, edges, done, rest)
    requires Frontier(inDegree, s, seen)
    ensures var n := rest[0];
            var d := inDegree[n := inDegree[n] - 1];
            Tracks(d, s, edges, done, rest[1..])
            && (d[n] == 0 ==> Frontier(d, s, seen + [n]))
            && (d[n] != 0 ==> Frontier(d, s, seen))
  {
    var n := rest[0];
    var d := inDegree[n := inDegree[n] - 1];
    assert inDegree[n] >= 1;
    assert n !in seen;
    if d[n] == 0 {
      DistinctAppend(seen, n);
      assert SetOf(seen + [n]) == SetOf(seen) + {n};
    }
  }

  /** Appending to the queue keeps a prefix of `order + queue` a prefix, and a
      prefix of the emitted order stays one. */
  lemma PrefixGrows(first: seq<string>, order: seq<string>, q1: seq<string>, q2: seq<string>)
    requires first <= order + q1 && q1 <= q2
    ensures first <= order + q2
  {
    assert order + q1 == (order + q2)[..|order + q1|];
  }

  lemma DistinctAppend(s: seq<string>, x: string)
    requires Distinct(s) && x !in s
    ensures Distinct(s + [x])
  {
  }

  /** Leaving out one source splits the in-degree into what remains and the
      edges out of that source. */
  lemma {:induction false} InCountSplit(edges: seq<Edge>, s: set<string>, done: set<string>, c: string, v: string)
    requires c in s && c !in done
    ensures InCount(edges, s, done, v) == InCount(edges, s, done + {c}, v) + Occ(v, Targets(edges, c))
  {
    if edges != [] {
      var init := edges[..|edges| - 1];
      var e := edges[|edges| - 1];
      InCountSplit(init, s, done, c, v);
      OccAppend(v, Targets(init, c), if e.source == c then [e.target] else []);
    }
  }

  lemma {:induction false} OccAppend(v: string, a: seq<string>, b: seq<string>)
    ensures Occ(v, a + b) == Occ(v, a) + Occ(v, b)
  {
    if a != [] {
      assert (a + b)[1..] == a[1..] + b;
      OccAppend(v, a[1..], b);
    } else {
      assert a + b == b;
    }
  }

  /** The in-degree is zero exactly when every counted predecessor is done. */
  lemma {:induction false} InCountZero(edges: seq<Edge>, s: set<string>, done: set<string>, v: string)
    ensures InCount(edges, s, done, v) == 0
            <==> forall e :: e in edges && Counted(e, s) && e.target == v ==> e.source in done
  {
    if edges != [] {
      var init := edges[..|edges| - 1];
      InCountZero(init, s, done, v);
      assert edges == init + [edges[|edges| - 1]];
    }
  }

  lemma {:induction false} DistinctCard(q: seq<string>)
    requires Distinct(q)
    ensures |SetOf(q)| == |q|
  {
    if q != [] {
      var init := q[..|q| - 1];
      DistinctCard(init);
      assert q == init + [q[|q| - 1]];
      assert SetOf(q) == SetOf(init) + {q[|q| - 1]};
    }
  }

  lemma {:induction false} SubsetCard(a: set<string>, b: set<string>)
    requires a <= b
    ensures |a| <= |b|
  {
    if a != {} {
      var x :| x in a;
      SubsetCard(a - {x}, b - {x});
    }
  }

  /** A repetition-free sequence of node ids is no longer than the set of ids. */
  lemma DistinctBound(q: seq<string>, s: set<string>)
    requires Distinct(q) && SetOf(q) <= s
    ensures |q| <= |s|
  {
    DistinctCard(q);
    SubsetCard(SetOf(q), s);
  }

  /** The first position of `order` that holds a member of `r`. */
  function FirstIn(order: seq<string>, r: set<string>): (j: nat)
    requires exists i :: 0 <= i < |order| && order[i] in r
    ensures j < |order| && order[j] in r
    ensures forall i :: 0 <= i < j ==> order[i] !in r
  {
    if order[0] in r then 0
    else
      assert exists i :: 0 <= i < |order[1..]| && order[1..][i] in r by {
        var i :| 0 <= i < |order| && order[i] in r;
        assert order[1..][i - 1] == order[i];
      }
      1 + FirstIn(order[1..], r)
  }

  /** For every counted edge between two emitted nodes, the source is emitted
      first. */
  lemma EdgesRespected(order: seq<string>, ids: seq<string>, edges: seq<Edge>, e: Edge, i: int, j: int)
    requires ExecutionOrder(order, ids, edges)
    requires e in edges && e.source in ids
    requires 0 <= i < |order| && 0 <= j < |order| && order[i] == e.source && order[j] == e.target
    ensures i < j
  {
    assert Counted(e, SetOf(ids));
    assert e.source in order[..j];
    var k :| 0 <= k < j && order[..j][k] == e.source;
    assert order[k] == order[i];
  }

  /** Some edge from a member of `r` enters `v`. */
  predicate Entered(r: set<string>, edges: seq<Edge>, v: string) {
    exists e :: e in edges && e.target == v && e.source in r
  }

  /** Some member of `r` has no edge into it from `r`. */
  predicate HasSource(r: set<string>, edges: seq<Edge>) {
    exists v :: v in r && !Entered(r, edges, v)
  }

  /** The edges among the node ids form no cycle: every nonempty set of node
      ids has a member that no edge from the set enters. */
  predicate Acyclic(ids: set<string>, edges: seq<Edge>) {
    forall r {:trigger HasSource(r, edges)} :: r <= ids && r != {} ==> HasSource(r, edges)
  }

  /** A complete order proves the graph acyclic: in any nonempty set of ids,
      the member emitted first has no edge into it from the set. */
  lemma AcyclicIfComplete(order: seq<string>, ids: seq<string>, edges: seq<Edge>)
    requires ExecutionOrder(order, ids, edges) && SetOf(order) == SetOf(ids)
    ensures Acyclic(SetOf(ids), edges)
  {
    var s := SetOf(ids);
    forall r | r <= s && r != {} ensures HasSource(r, edges) {
      var x :| x in r;
      assert x in order;
      var j := FirstIn(order, r);
      var v := order[j];
      forall e | e in edges && e.target == v ensures e.source !in r {
        if e.source in s {
          assert Counted(e, s);
          assert e.source in order[..j];
          var k :| 0 <= k < j && order[..j][k] == e.source;
          assert order[k] !in r;
        }
      }
      assert !Entered(r, edges, v);
    }
  }

  /** An incomplete order proves the graph cyclic: every id it leaves out is
      entered by an edge from another id it leaves out. */
  lemma CyclicIfIncomplete(order: seq<string>, ids: seq<string>, edges: seq<Edge>)
    requires SetOf(order) <= SetOf(ids) && Maximal(order, edges, SetOf(ids))
    requires SetOf(order) != SetOf(ids)
    ensures !Acyclic(SetOf(ids), edges)
  {
    var s := SetOf(ids);
    var rest := s - SetOf(order);
    forall v | v in rest ensures Entered(rest, edges, v) {
      assert InCount(edges, s, SetOf(order), v) != 0;
      InCountZero(edges, s, SetOf(order), v);
      var e :| e in edges && Counted(e, s) && e.target == v && e.source !in SetOf(order);
      assert e.source in rest;
    }
    assert SetOf(order) < s;
    var v :| v in s && v !in SetOf(order);
    assert v in rest;
    assert rest <= s && !HasSource(rest, edges);
  }

  /** The order holds every node id exactly when the graph has no cycle. */
  lemma CompleteIffAcyclic(order: seq<string>, ids: seq<string>, edges: seq<Edge>)
    requires ExecutionOrder(order, ids, edges)
    ensures SetOf(order) == SetOf(ids) <==> Acyclic(SetOf(ids), edges)
  {
    if SetOf(order) == SetOf(ids) {
      AcyclicIfComplete(order, ids, edges);
    } else {
      CyclicIfIncomplete(order, ids, edges);
    }
  }

  /** `path` is a directed cycle: an edge from each node to the next and from
      the last back to the first. */
  predicate IsCycle(path: seq<string>, edges: seq<Edge>) {
    |path| > 0
    && (forall i :: 0 <= i < |path| - 1 ==> Edge(path[i], path[i + 1]) in edges)
    && Edge(path[|path| - 1], path[0]) in edges
  }

  /** The node before `path[k]` on the cycle, which has an edge into it. */
  function CyclePred(path: seq<string>, edges: seq<Edge>, k: int): (p: string)
    requires IsCycle(path, edges) && 0 <= k < |path|
    ensures p in path && Edge(p, path[k]) in edges
  {
    if k == 0 then path[|path| - 1] else path[k - 1]
  }

  /** A cycle among the node ids makes the graph cyclic. */
  lemma CycleNotAcyclic(path: seq<string>, ids: set<string>, edges: seq<Edge>)
    requires IsCycle(path, edges) && SetOf(path) <= ids
    ensures !Acyclic(ids, edges)
  {
    var r := SetOf(path);
    assert path[0] in r;
    forall v | v in r ensures Entered(r, edges, v) {
      var k :| 0 <= k < |path| && path[k] == v;
      assert Edge(CyclePred(path, edges, k), v) in edges;
    }
    assert !HasSource(r, edges);
  }

  /** No node of a cycle among the node ids is ever emitted. */
  lemma {:induction false} CycleOmitted(order: seq<string>, ids: seq<string>, edges: seq<Edge>, path: seq<string>)
    requires ExecutionOrder(order, ids, edges)
    requires IsCycle(path, edges) && SetOf(path) <= SetOf(ids)
    ensures forall j :: 0 <= j < |order| ==> order[j] !in path
  {
    var s := SetOf(ids);
    for j := 0 to |order|
      invariant forall i :: 0 <= i < j ==> order[i] !in path
    {
      forall k | 0 <= k < |path| ensures order[j] != path[k] {
        var p := CyclePred(path, edges, k);
        assert Counted(Edge(p, path[k]), s);
        assert p !in order[..j];
      }
    }
  }
}
