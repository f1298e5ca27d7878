/**
  The network object of the season allocator: edges are inserted, then units are pushed
  along shortest residual paths, all by updating the adjacency lists in place.
*/
module SeasonNetwork {
  import opened Flow
  import opened Residual
  import opened PathSearch
  import opened Augmentation

  lemma {:induction false} DistinctSize(order: seq<Node>, nodes: set<Node>)
    requires Distinct(order) && forall v :: v in order <==> v in nodes
    ensures |order| == |nodes|
  {
    if |order| == 0 {
      assert nodes == {};
    } else {
      var n := |order| - 1;
      var front := order[..n];
      assert order == front + [order[n]];
      DistinctSize(front, nodes - {order[n]});
    }
  }

  ghost predicate Extends(after: Ledger, before: Ledger) {
    && |before.arcs| == |before.flow| == |before.slots|
    && |after.arcs| == |after.flow| == |after.slots|
    && before.arcs <= after.arcs && before.flow <= after.flow && before.slots <= after.slots
  }

  /** The inner loop of a round: relaxes the edges of one node in list order. */
  method RelaxNode(g: Graph, u: Node, dist0: Distances, prev0: Links, ghost L: Ledger, ghost pi: Potential,
                   ghost before: Distances)
    returns (dist: Distances, prev: Links, changed: bool)
    requires Shape(g, L) && u in g
    requires Tree(g, pi, dist0, prev0) && Lower(dist0, before)
    ensures InnerLoop(g, pi, u, |g[u]|, before, dist0, dist, prev)
    ensures !changed ==> dist == dist0
  {
    hide InnerLoop, Tree, Shape;
    dist, prev, changed := dist0, prev0, false;
    var edges := g[u];
    InnerLoopStarts(g, pi, u, before, dist, prev);
    for index := 0 to |edges|
      invariant InnerLoop(g, pi, u, index, before, dist0, dist, prev)
      invariant !changed ==> dist == dist0
    {
      var e := edges[index];
      Reverse(g, L, u, index);
      InnerLoopDomain(g, pi, u, index, before, dist0, dist, prev);
      if CanRelax(g, dist, u, index) {
        InnerLoopRelaxes(g, pi, u, index, before, dist0, dist, prev);
        dist, prev := dist[e.to := Reached(dist[u].d + e.cost)], prev[e.to := (u, index)];
        changed := true;
      } else {
        InnerLoopSkips(g, pi, u, index, before, dist0, dist, prev);
      }
    }
  }

  class Network {
    var order: seq<Node>
    var graph: Graph
    ghost var book: Ledger

    ghost predicate Valid()
      reads this
    {
      && Shape(graph, book)
      && Distinct(order)
      && forall v :: v in order <==> v in graph
    }

    constructor ()
      ensures Valid() && order == [] && book.arcs == [] && book.flow == []
    {
      order, graph := [], map[];
      book := Ledger([], [], map[], []);
    }

    /** Lists `v` as a node if it is new. */
    method Declare(v: Node)
      requires Valid()
      modifies this
      ensures Valid() && v in graph
      ensures book.arcs == old(book.arcs) && book.flow == old(book.flow) && book.slots == old(book.slots)
      ensures graph.Keys == old(graph.Keys) + {v}
    {
      if v !in graph {
        order := order + [v];
        graph := graph[v := []];
        book := book.(owner := book.owner[v := []]);
        assert forall k :: 0 <= k < |book.arcs| ==> InPlace(old(graph), old(book), k) ==> InPlace(graph, book, k);
        assert forall u, i :: HasEdge(graph, u, i) ==> Owned(old(book), u, i, old(book).owner[u][i]);
      }
    }

    /** Inserts an arc as a forward edge and its empty reverse, and says where the forward edge lies. */
    method AddEdge(u: Node, v: Node, capacity: nat, cost: real) returns (index: nat)
      requires Valid() && u != v
      modifies this
      ensures Valid() && Extends(book, old(book))
      ensures book.arcs == old(book.arcs) + [Arc(u, v, capacity, cost)]
      ensures book.flow == old(book.flow) + [0]
      ensures book.slots[|old(book.slots)|].out == index
      ensures graph.Keys == old(graph.Keys) + {u, v}
    {
      hide Shape, Distinct;
      Declare(u);
      Declare(v);
      ShapeDomain(graph, book);
      label Declared:
      index := |graph[u]|;
      var back := |graph[v]|;
      var fwd := Edge(v, back, capacity, cost);
      var rev := Edge(u, index, 0, -cost);
      ghost var k := |book.arcs|;
      graph := graph[u := graph[u] + [fwd]];
      graph := graph[v := graph[v] + [rev]];
      book := Ledger(book.arcs + [Arc(u, v, capacity, cost)], book.slots + [Slot(index, back)],
                     book.owner[u := book.owner[u] + [Forward(k)]][v := book.owner[v] + [Backward(k)]],
                     book.flow + [0]);
      InsertionKeepsShape(old@Declared(graph), old@Declared(book), u, v, capacity, cost);
    }

    /** One round over all nodes in insertion order. */
    method Round(dist0: Distances, prev0: Links, ghost pi: Potential)
      returns (dist: Distances, prev: Links, changed: bool)
      requires Valid() && Tree(graph, pi, dist0, prev0)
      ensures Tree(graph, pi, dist, prev) && Lower(dist, dist0) && AllCovered(graph, dist0, dist)
      ensures !changed ==> dist == dist0
    {
      hide Shape;
      dist, prev, changed := dist0, prev0, false;
      for k := 0 to |order|
        invariant Tree(graph, pi, dist, prev) && Lower(dist, dist0)
        invariant forall j, i: nat :: 0 <= j < k && HasEdge(graph, order[j], i) ==>
                    Covered(graph, order[j], i, dist0, dist)
        invariant !changed ==> dist == dist0
      {
        var c;
        dist, prev, c := RelaxNode(graph, order[k], dist, prev, book, pi, dist0);
        changed := changed || c;
      }
      forall u, i: nat | HasEdge(graph, u, i) ensures Covered(graph, u, i, dist0, dist) {
        var j :| 0 <= j < |order| && order[j] == u;
        assert HasEdge(graph, order[j], i);
      }
    }

    /**
      Bellman-Ford from the source: at most one round fewer than there are nodes, fewer
      once a round changes nothing. No edge can be relaxed afterwards.
    */
    method ShortestPaths(ghost pi: Potential) returns (dist: Distances, prev: Links)
      requires Valid() && Source in graph && Priced(graph, pi)
      ensures Tree(graph, pi, dist, prev) && AllCovered(graph, dist, dist)
    {
      dist := map v | v in graph :: if v == Source then Reached(0.0) else Unreached;
      prev := map[];
      assert Rooted(prev, Source, 0);
      assert IsRooted(prev, Source);
      DistinctSize(order, graph.Keys);
      for round := 0 to |order| - 1
        invariant Tree(graph, pi, dist, prev) && WithinSteps(graph, dist, round)
      {
        ghost var before := dist;
        var changed;
        dist, prev, changed := Round(dist, prev, pi);
        if !changed {
          return;
        }
        RoundExtendsSteps(graph, before, dist, round);
      }
      forall u, i: nat | HasEdge(graph, u, i) ensures graph[u][i].to in graph {
        Reverse(graph, book, u, i);
      }
      RoundsSuffice(graph, pi, dist, prev);
    }

    /** Moves one unit from an edge to its reverse. */
    method Push(u: Node, index: nat)
      requires HasEdge(graph, u, index)
      requires graph[u][index].to != u && HasEdge(graph, graph[u][index].to, graph[u][index].rev)
      requires u in book.owner && index < |book.owner[u]| && book.owner[u][index].arc < |book.flow|
      modifies this`graph, this`book
      ensures graph == Shift(old(graph), u, index)
      ensures book == ShiftLedger(old(book), u, index)
    {
      book := ShiftLedger(book, u, index);
      var e := graph[u][index];
      graph := graph[u := graph[u][index := e.(cap := e.cap - 1)]];
      var reverse := graph[e.to][e.rev];
      graph := graph[e.to := graph[e.to][e.rev := reverse.(cap := reverse.cap + 1)]];
    }

    /** Walks from the sink back to the source, moving one unit across each link on the way. */
    method Augment(prev: Links, ghost pi: Potential, ghost depth: nat)
      requires Valid() && Walking(book, graph, book, pi, prev, Sink, depth)
      modifies this`graph, this`book
      ensures Valid() && Priced(graph, pi) && graph.Keys == old(graph.Keys)
      ensures InTransit(old(book), book, Source)
    {
      hide Walking, Shape, Priced;
      WalkStands(book, graph, book, pi, prev, Sink, depth);
      var node := Sink;
      ghost var L0, g, L, k := book, graph, book, depth;
      while node != Source
        invariant g == graph && L == book
        invariant |L.arcs| == |L.flow| && (node == Source <==> k == 0)
        invariant Walking(L0, g, L, pi, prev, node, k)
        invariant g.Keys == old(graph.Keys)
        decreases k
      {
        PushKeepsWalking(L0, g, L, pi, prev, node, k);
        var (u, index) := prev[node];
        Push(u, index);
        g, L := Shift(g, u, index), ShiftLedger(L, u, index);
        node, k := u, k - 1;
        WalkStands(L0, g, L, pi, prev, node, k);
      }
      WalkEnds(L0, g, L, pi, prev, k);
    }

    /**
      Successive shortest paths: ships up to `required` units. The result costs the least
      among all flows that ship as much, and ships less than asked only if nothing ships more.
    */
    method Fill(required: nat) returns (flow: nat, ghost pi: Potential)
      requires Valid()
      requires forall k :: 0 <= k < |book.arcs| ==> book.arcs[k].cost >= 0.0 && book.flow[k] == 0
      modifies this
      ensures Valid() && book.arcs == old(book.arcs) && book.slots == old(book.slots)
      ensures flow <= required && IsFlow(book.arcs, book.flow, flow)
      ensures Priced(graph, pi)
      ensures flow < required ==> IsMaximal(book.arcs, flow)
    {
      flow := 0;
      pi := v => 0.0;
      ZeroFlow(book.arcs, book.flow);
      FreshPrices(graph, book, pi);
      while flow < required && Source in graph
        invariant Valid() && book.arcs == old(book.arcs) && book.slots == old(book.slots)
        invariant flow <= required && IsFlow(book.arcs, book.flow, flow)
        invariant Priced(graph, pi)
      {
        var dist, prev := ShortestPaths(pi);
        if Sink !in prev {
          UnreachedSinkIsCut(graph, book, pi, dist, prev);
          CutIsMaximal(book.arcs, book.flow, flow, ReachedNodes(dist));
          return;
        }
        assert IsRooted(prev, Sink);
        ghost var depth: nat :| Rooted(prev, Sink, depth);
        SearchEndsReady(graph, book, pi, dist, prev, depth);
        pi := NextPrices(pi, dist, Gap(graph.Keys, pi, dist));
        label Before:
        Augment(prev, pi, depth);
        UnitAdded(old@Before(book), book, flow);
        flow := flow + 1;
      }
      if flow < required {
        SourceAlone(graph, book, flow);
      }
    }
  }

  /** No flow of these arcs ships more than `value`. */
  ghost predicate IsMaximal(arcs: seq<Arc>, value: int) {
    forall g, other {:trigger IsFlow(arcs, g, other)} :: IsFlow(arcs, g, other) ==> other <= value
  }

  lemma CutIsMaximal(arcs: seq<Arc>, flow: seq<int>, value: int, cut: set<Node>)
    requires IsFlow(arcs, flow, value)
    requires Source in cut && Sink !in cut && Saturates(arcs, flow, cut)
    ensures IsMaximal(arcs, value)
  {
    forall g, other | IsFlow(arcs, g, other)
      ensures other <= value
    {
      SaturatedCutIsMaximal(arcs, flow, g, value, other, cut);
    }
  }

  lemma SourceAlone(g: Graph, L: Ledger, value: int)
    requires Shape(g, L) && Source !in g && IsFlow(L.arcs, L.flow, value)
    ensures IsMaximal(L.arcs, value)
  {
    forall k | 0 <= k < |L.arcs|
      ensures L.arcs[k].tail != Source && L.arcs[k].head != Source
    {
      assert InPlace(g, L, k);
    }
    CutIsMaximal(L.arcs, L.flow, value, {Source});
  }

  lemma {:induction false} ZeroNetOut(arcs: seq<Arc>, flow: seq<int>, v: Node)
    requires |flow| == |arcs| && forall k :: 0 <= k < |flow| ==> flow[k] == 0
    ensures NetOut(arcs, flow, v) == 0
  {
    if |arcs| != 0 {
      ZeroNetOut(arcs[..|arcs| - 1], flow[..|arcs| - 1], v);
    }
  }

  lemma ZeroFlow(arcs: seq<Arc>, flow: seq<int>)
    requires |flow| == |arcs| && forall k :: 0 <= k < |flow| ==> flow[k] == 0
    ensures IsFlow(arcs, flow, 0)
  {
    forall v ensures NetOut(arcs, flow, v) == 0 {
      ZeroNetOut(arcs, flow, v);
    }
  }

  /** Before anything is shipped, non-negative costs are priced by zero potentials. */
  lemma FreshPrices(g: Graph, L: Ledger, pi: Potential)
    requires Shape(g, L) && forall v :: pi(v) == 0.0
    requires forall k :: 0 <= k < |L.arcs| ==> L.arcs[k].cost >= 0.0 && L.flow[k] == 0
    ensures Priced(g, pi)
  {
    forall u, i | HasEdge(g, u, i) && g[u][i].cap > 0
      ensures g[u][i].cost >= 0.0
    {
      assert Owned(L, u, i, L.owner[u][i]);
      assert InPlace(g, L, L.owner[u][i].arc);
    }
  }

  lemma UnitAdded(before: Ledger, after: Ledger, value: int)
    requires IsFlow(before.arcs, before.flow, value)
    requires |after.arcs| == |after.flow| && WithinCapacity(after.arcs, after.flow)
    requires InTransit(before, after, Source)
    ensures IsFlow(after.arcs, after.flow, value + 1)
  {
  }

  lemma InsertionKeepsShape(g: Graph, L: Ledger, u: Node, v: Node, capacity: nat, cost: real)
    requires Shape(g, L) && u in g && v in g && u != v
    ensures var k := |L.arcs|;
            Shape(g[u := g[u] + [Edge(v, |g[v]|, capacity, cost)]][v := g[v] + [Edge(u, |g[u]|, 0, -cost)]],
                  Ledger(L.arcs + [Arc(u, v, capacity, cost)], L.slots + [Slot(|g[u]|, |g[v]|)],
                         L.owner[u := L.owner[u] + [Forward(k)]][v := L.owner[v] + [Backward(k)]],
                         L.flow + [0]))
  {
    var k := |L.arcs|;
    var h := g[u := g[u] + [Edge(v, |g[v]|, capacity, cost)]][v := g[v] + [Edge(u, |g[u]|, 0, -cost)]];
    var M := Ledger(L.arcs + [Arc(u, v, capacity, cost)], L.slots + [Slot(|g[u]|, |g[v]|)],
                    L.owner[u := L.owner[u] + [Forward(k)]][v := L.owner[v] + [Backward(k)]],
                    L.flow + [0]);
    forall w, i | w in h && 0 <= i < |h[w]|
      ensures Owned(M, w, i, M.owner[w][i])
    {
      if HasEdge(g, w, i) {
        assert Owned(L, w, i, L.owner[w][i]);
      }
    }
    forall j | 0 <= j < |M.arcs|
      ensures InPlace(h, M, j)
    {
      if j < k {
        assert InPlace(g, L, j);
      }
    }
  }
}
