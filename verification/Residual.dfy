/**
  The residual graph of the season allocator as it lies in memory: adjacency lists of
  edges that name their reverse by position. A ledger relates the lists to the arcs that
  were inserted and to the flow they carry.
*/
module Residual {
  import opened Flow

  datatype Edge = Edge(to: Node, rev: nat, cap: int, cost: real)

  type Graph = map<Node, seq<Edge>>

  /** Where the two halves of an arc lie in the lists of its tail and of its head. */
  datatype Slot = Slot(out: nat, back: nat)

  datatype Owner = Forward(arc: nat) | Backward(arc: nat)

  datatype Ledger = Ledger(arcs: seq<Arc>, slots: seq<Slot>, owner: map<Node, seq<Owner>>, flow: seq<int>)

  ghost predicate Owned(L: Ledger, u: Node, i: nat, o: Owner) {
    && o.arc < |L.arcs| == |L.slots|
    && match o
       case Forward(k) => L.arcs[k].tail == u && L.slots[k].out == i
       case Backward(k) => L.arcs[k].head == u && L.slots[k].back == i
  }

  /** Arc `k` lies in the lists as a pair of mutually reversed edges that share its capacity. */
  ghost predicate InPlace(g: Graph, L: Ledger, k: nat)
    requires k < |L.arcs| == |L.slots| == |L.flow|
    requires g.Keys == L.owner.Keys
    requires forall u :: u in g ==> |L.owner[u]| == |g[u]|
  {
    var Arc(u, v, cap, cost) := L.arcs[k];
    var Slot(i, j) := L.slots[k];
    && u != v
    && u in g && i < |g[u]| && L.owner[u][i] == Forward(k)
    && v in g && j < |g[v]| && L.owner[v][j] == Backward(k)
    && g[u][i] == Edge(v, j, cap - L.flow[k], cost)
    && g[v][j] == Edge(u, i, L.flow[k], -cost)
  }

  ghost predicate Shape(g: Graph, L: Ledger) {
    && |L.arcs| == |L.slots| == |L.flow|
    && g.Keys == L.owner.Keys
    && (forall u :: u in g ==> |L.owner[u]| == |g[u]|)
    && (forall u, i {:trigger L.owner[u][i]} :: u in g && 0 <= i < |g[u]| ==> Owned(L, u, i, L.owner[u][i]))
    && (forall k :: 0 <= k < |L.arcs| ==> InPlace(g, L, k))
    && WithinCapacity(L.arcs, L.flow)
  }

  lemma ShapeDomain(g: Graph, L: Ledger)
    requires Shape(g, L)
    ensures |L.arcs| == |L.slots| == |L.flow| && g.Keys == L.owner.Keys
  {
  }

  predicate HasEdge(g: Graph, u: Node, i: int) {
    u in g && 0 <= i < |g[u]|
  }

  /** Every edge of a well-shaped graph names an existing reverse edge. */
  lemma Reverse(g: Graph, L: Ledger, u: Node, i: nat)
    requires Shape(g, L) && HasEdge(g, u, i)
    ensures var e := g[u][i];
            && e.to != u && HasEdge(g, e.to, e.rev) && e.cap >= 0
            && g[e.to][e.rev].to == u && g[e.to][e.rev].rev == i && g[e.to][e.rev].cost == -e.cost
  {
    var k := L.owner[u][i].arc;
    assert Owned(L, u, i, L.owner[u][i]);
    assert InPlace(g, L, k);
  }

  /** One unit along edge `(u, i)`: its capacity falls by one, that of its reverse grows by one. */
  function Shift(g: Graph, u: Node, i: nat): Graph
    requires HasEdge(g, u, i)
    requires g[u][i].to != u && HasEdge(g, g[u][i].to, g[u][i].rev)
  {
    var e := g[u][i];
    var r := g[e.to][e.rev];
    g[u := g[u][i := e.(cap := e.cap - 1)]][e.to := g[e.to][e.rev := r.(cap := r.cap + 1)]]
  }

  /** A shift touches the edge and its reverse, and of these only the capacity. */
  lemma ShiftAt(g: Graph, u: Node, i: nat, w: Node, p: nat)
    requires HasEdge(g, u, i) && HasEdge(g, w, p)
    requires g[u][i].to != u && HasEdge(g, g[u][i].to, g[u][i].rev)
    ensures HasEdge(Shift(g, u, i), w, p)
    ensures Shift(g, u, i)[w][p] == g[w][p].(cap := g[w][p].cap
              - (if (w, p) == (u, i) then 1 else 0)
              + (if (w, p) == (g[u][i].to, g[u][i].rev) then 1 else 0))
  {
  }

  ghost function ShiftLedger(L: Ledger, u: Node, i: nat): Ledger
    requires u in L.owner && i < |L.owner[u]| && L.owner[u][i].arc < |L.flow|
  {
    match L.owner[u][i]
    case Forward(k) => L.(flow := L.flow[k := L.flow[k] + 1])
    case Backward(k) => L.(flow := L.flow[k := L.flow[k] - 1])
  }

  lemma ShiftKeepsPlace(g: Graph, L: Ledger, u: Node, i: nat, j: nat)
    requires Shape(g, L) && HasEdge(g, u, i) && j < |L.arcs|
    requires g[u][i].to != u && HasEdge(g, g[u][i].to, g[u][i].rev)
    requires var k := L.owner[u][i].arc; k < |L.arcs| && InPlace(g, L, k)
    requires Owned(L, u, i, L.owner[u][i])
    ensures InPlace(Shift(g, u, i), ShiftLedger(L, u, i), j)
  {
    assert InPlace(g, L, j);
    var a, s := L.arcs[j], L.slots[j];
    ShiftAt(g, u, i, a.tail, s.out);
    ShiftAt(g, u, i, a.head, s.back);
  }

  lemma ShiftKeepsShape(g: Graph, L: Ledger, u: Node, i: nat)
    requires Shape(g, L) && HasEdge(g, u, i) && g[u][i].cap > 0
    ensures g[u][i].to != u && HasEdge(g, g[u][i].to, g[u][i].rev)
    ensures u in L.owner && i < |L.owner[u]| && L.owner[u][i].arc < |L.flow|
    ensures Shape(Shift(g, u, i), ShiftLedger(L, u, i))
  {
    Reverse(g, L, u, i);
    assert Owned(L, u, i, L.owner[u][i]);
    assert InPlace(g, L, L.owner[u][i].arc);
    var h, M := Shift(g, u, i), ShiftLedger(L, u, i);
    forall j | 0 <= j < |M.arcs| ensures InPlace(h, M, j) {
      ShiftKeepsPlace(g, L, u, i, j);
    }
    forall w, j | w in h && 0 <= j < |h[w]| ensures Owned(M, w, j, M.owner[w][j]) {
      assert Owned(L, w, j, L.owner[w][j]);
    }
  }

  lemma {:induction false} BumpNetOut(arcs: seq<Arc>, flow: seq<int>, k: nat, d: int, v: Node)
    requires k < |arcs| == |flow|
    ensures NetOut(arcs, flow[k := flow[k] + d], v) == NetOut(arcs, flow, v)
              + (if arcs[k].tail == v then d else 0) - (if arcs[k].head == v then d else 0)
  {
    var n := |arcs| - 1;
    var bumped := flow[k := flow[k] + d];
    if k == n {
      assert bumped[..n] == flow[..n];
    } else {
      BumpNetOut(arcs[..n], flow[..n], k, d, v);
      assert bumped[..n] == flow[..n][k := flow[..n][k] + d];
    }
  }

  /** A shifted unit leaves `u` and arrives at the head of the edge, whichever half of an arc it is. */
  lemma ShiftMovesOneUnit(g: Graph, L: Ledger, u: Node, i: nat, v: Node)
    requires Shape(g, L) && HasEdge(g, u, i) && g[u][i].cap > 0
    ensures u in L.owner && i < |L.owner[u]| && L.owner[u][i].arc < |L.flow|
    ensures NetOut(L.arcs, ShiftLedger(L, u, i).flow, v) == NetOut(L.arcs, L.flow, v)
              + (if v == u then 1 else 0) - (if v == g[u][i].to then 1 else 0)
  {
    assert Owned(L, u, i, L.owner[u][i]);
    var k := L.owner[u][i].arc;
    assert InPlace(g, L, k);
    BumpNetOut(L.arcs, L.flow, k, if L.owner[u][i].Forward? then 1 else -1, v);
  }

  // ---------------------------------------------------------------- potentials on the graph

  /** No edge with spare capacity has negative reduced cost. */
  ghost predicate Priced(g: Graph, pi: Potential) {
    forall u, i {:trigger g[u][i]} :: HasEdge(g, u, i) && g[u][i].cap > 0 ==>
      g[u][i].cost + pi(u) - pi(g[u][i].to) >= 0.0
  }

  lemma PricedIsSlack(g: Graph, L: Ledger, pi: Potential)
    requires Shape(g, L) && Priced(g, pi)
    ensures Slack(L.arcs, L.flow, pi)
  {
    forall k | 0 <= k < |L.arcs|
      ensures L.flow[k] < L.arcs[k].cap ==> Reduced(L.arcs[k], pi) >= 0.0
      ensures L.flow[k] > 0 ==> Reduced(L.arcs[k], pi) <= 0.0
    {
      assert InPlace(g, L, k);
      var a, s := L.arcs[k], L.slots[k];
      assert HasEdge(g, a.tail, s.out) && HasEdge(g, a.head, s.back);
      assert g[a.tail][s.out].cap == a.cap - L.flow[k] && g[a.head][s.back].cap == L.flow[k];
    }
  }

  type Walk = seq<(Node, nat)>

  ghost predicate StepsExist(g: Graph, w: Walk) {
    forall k :: 0 <= k < |w| ==> HasEdge(g, w[k].0, w[k].1)
  }

  /** A walk over edges with spare capacity, each step named by its node and list position. */
  ghost predicate IsWalk(g: Graph, from: Node, w: Walk, v: Node) {
    if |w| == 0 then v == from
    else
      var (u, i) := w[|w| - 1];
      && HasEdge(g, u, i) && g[u][i].cap > 0 && g[u][i].to == v
      && IsWalk(g, from, w[..|w| - 1], u)
  }

  ghost function WalkCost(g: Graph, w: Walk): real
    requires StepsExist(g, w)
  {
    if |w| == 0 then 0.0
    else
      var (u, i) := w[|w| - 1];
      assert HasEdge(g, w[|w| - 1].0, w[|w| - 1].1);
      WalkCost(g, w[..|w| - 1]) + g[u][i].cost
  }

  lemma {:induction false} WalkEdges(g: Graph, from: Node, w: Walk, v: Node)
    requires IsWalk(g, from, w, v)
    ensures StepsExist(g, w)
  {
    if |w| != 0 {
      WalkEdges(g, from, w[..|w| - 1], w[|w| - 1].0);
    }
  }

  lemma {:induction false} WalkCostAtLeastDrop(g: Graph, from: Node, w: Walk, v: Node, pi: Potential)
    requires Priced(g, pi) && IsWalk(g, from, w, v)
    requires StepsExist(g, w)
    ensures WalkCost(g, w) >= pi(v) - pi(from)
  {
    if |w| != 0 {
      WalkCostAtLeastDrop(g, from, w[..|w| - 1], w[|w| - 1].0, pi);
    }
  }

  /** A priced residual graph has no cycle of negative cost. */
  lemma NoNegativeCycle(g: Graph, v: Node, cycle: Walk, pi: Potential)
    requires Priced(g, pi) && IsWalk(g, v, cycle, v)
    ensures StepsExist(g, cycle)
    ensures WalkCost(g, cycle) >= 0.0
  {
    WalkEdges(g, v, cycle, v);
    WalkCostAtLeastDrop(g, v, cycle, v, pi);
  }
}
