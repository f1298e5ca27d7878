/**
  Pushing one unit along the `previous` chain, one edge at a time: what the walk from the
  sink back to the source keeps.
*/
module Augmentation {
  import opened Flow
  import opened Residual
  import opened PathSearch

  /** Every link is an edge of zero reduced cost into its node. */
  ghost predicate TightLinks(g: Graph, prev: Links, pi: Potential) {
    forall y :: y in prev ==>
      var (u, i) := prev[y];
      HasEdge(g, u, i) && g[u][i].to == y && g[u][i].cost + pi(u) - pi(y) == 0.0
  }

  /** The links still ahead have spare capacity. */
  ghost predicate OpenChain(g: Graph, prev: Links, x: Node, k: nat)
    requires Rooted(prev, x, k)
  {
    forall y :: y in Chain(prev, x, k) && y in prev && y != Source ==>
      HasEdge(g, prev[y].0, prev[y].1) && g[prev[y].0][prev[y].1].cap > 0
  }

  /** One unit is on its way: it has left `x` on paper and has reached the sink. */
  ghost predicate InTransit(L0: Ledger, L: Ledger, x: Node)
    requires |L0.arcs| == |L0.flow| && |L.arcs| == |L.flow|
  {
    && L.arcs == L0.arcs && L.slots == L0.slots
    && forall v :: NetOut(L.arcs, L.flow, v) ==
                   NetOut(L0.arcs, L0.flow, v) + (if v == x then 1 else 0) - (if v == Sink then 1 else 0)
  }

  /** The state of the walk when it stands at `x`, `k` links away from the source. */
  ghost predicate Walking(L0: Ledger, g: Graph, L: Ledger, pi: Potential, prev: Links, x: Node, k: nat) {
    && |L0.arcs| == |L0.flow|
    && Shape(g, L) && Priced(g, pi)
    && TightLinks(g, prev, pi)
    && Rooted(prev, x, k) && OpenChain(g, prev, x, k)
    && InTransit(L0, L, x)
  }

  lemma WalkStands(L0: Ledger, g: Graph, L: Ledger, pi: Potential, prev: Links, x: Node, k: nat)
    requires Walking(L0, g, L, pi, prev, x, k)
    ensures |L0.arcs| == |L0.flow| && |L.arcs| == |L.flow|
    ensures x == Source <==> k == 0
  {
  }

  /** At the source the unit has been shipped. */
  lemma WalkEnds(L0: Ledger, g: Graph, L: Ledger, pi: Potential, prev: Links, k: nat)
    requires Walking(L0, g, L, pi, prev, Source, k)
    ensures |L0.arcs| == |L0.flow| && |L.arcs| == |L.flow|
    ensures Shape(g, L) && Priced(g, pi) && InTransit(L0, L, Source)
  {
  }

  lemma PushKeepsPrices(g: Graph, L: Ledger, pi: Potential, prev: Links, x: Node)
    requires Shape(g, L) && Priced(g, pi) && TightLinks(g, prev, pi) && x in prev
    requires var (u, i) := prev[x]; g[u][i].cap > 0
    ensures var (u, i) := prev[x];
            && g[u][i].to != u && HasEdge(g, g[u][i].to, g[u][i].rev)
            && Priced(Shift(g, u, i), pi) && TightLinks(Shift(g, u, i), prev, pi)
  {
    var (u, i) := prev[x];
    Reverse(g, L, u, i);
    var h := Shift(g, u, i);
    forall w, p | HasEdge(h, w, p) && h[w][p].cap > 0
      ensures h[w][p].cost + pi(w) - pi(h[w][p].to) >= 0.0
    {
      assert HasEdge(g, w, p);
      ShiftAt(g, u, i, w, p);
    }
    forall y | y in prev
      ensures var (w, p) := prev[y];
              HasEdge(h, w, p) && h[w][p].to == y && h[w][p].cost + pi(w) - pi(y) == 0.0
    {
      ShiftAt(g, u, i, prev[y].0, prev[y].1);
    }
  }

  lemma PushKeepsChain(g: Graph, L: Ledger, pi: Potential, prev: Links, x: Node, k: nat)
    requires Shape(g, L) && TightLinks(g, prev, pi)
    requires k > 0 && Rooted(prev, x, k) && OpenChain(g, prev, x, k)
    ensures var (u, i) := prev[x];
            && g[u][i].cap > 0 && g[u][i].to != u && HasEdge(g, g[u][i].to, g[u][i].rev)
            && OpenChain(Shift(g, u, i), prev, u, k - 1)
  {
    var (u, i) := prev[x];
    assert x in Chain(prev, x, k);
    Reverse(g, L, u, i);
    ChainIsAcyclic(prev, x, k);
    var h := Shift(g, u, i);
    forall y | y in Chain(prev, u, k - 1) && y in prev && y != Source
      ensures HasEdge(h, prev[y].0, prev[y].1) && h[prev[y].0][prev[y].1].cap > 0
    {
      assert y in Chain(prev, x, k) && y != x;
      ShiftAt(g, u, i, prev[y].0, prev[y].1);
    }
  }

  /** One step of the walk. */
  lemma PushKeepsWalking(L0: Ledger, g: Graph, L: Ledger, pi: Potential, prev: Links, x: Node, k: nat)
    requires Walking(L0, g, L, pi, prev, x, k) && k > 0
    ensures x in prev
    ensures var (u, i) := prev[x];
            && HasEdge(g, u, i) && g[u][i].cap > 0 && g[u][i].to == x
            && g[u][i].to != u && HasEdge(g, g[u][i].to, g[u][i].rev)
            && u in L.owner && i < |L.owner[u]| && L.owner[u][i].arc < |L.flow|
            && Walking(L0, Shift(g, u, i), ShiftLedger(L, u, i), pi, prev, u, k - 1)
  {
    var (u, i) := prev[x];
    PushKeepsChain(g, L, pi, prev, x, k);
    PushKeepsPrices(g, L, pi, prev, x);
    ShiftKeepsShape(g, L, u, i);
    var M := ShiftLedger(L, u, i);
    assert M.arcs == L.arcs;
    forall v
      ensures NetOut(M.arcs, M.flow, v) ==
              NetOut(L0.arcs, L0.flow, v) + (if v == u then 1 else 0) - (if v == Sink then 1 else 0)
    {
      ShiftMovesOneUnit(g, L, u, i, v);
    }
  }

  /** The end of a search is the beginning of a walk. */
  lemma SearchEndsReady(g: Graph, L: Ledger, pi: Potential, dist: Distances, prev: Links, k: nat)
    requires Shape(g, L) && Tree(g, pi, dist, prev) && AllCovered(g, dist, dist)
    requires Sink in prev && Rooted(prev, Sink, k)
    ensures Walking(L, g, L, NextPrices(pi, dist, Gap(g.Keys, pi, dist)), prev, Sink, k)
  {
    DistancesPrice(g, pi, dist, prev);
  }

  // ---------------------------------------------------------------- the cut at the end

  function ReachedNodes(dist: Distances): set<Node> {
    set v | v in dist && dist[v].Reached?
  }

  /** When the sink is out of reach, the nodes within reach form a saturated cut. */
  lemma UnreachedSinkIsCut(g: Graph, L: Ledger, pi: Potential, dist: Distances, prev: Links)
    requires Shape(g, L) && Tree(g, pi, dist, prev) && AllCovered(g, dist, dist)
    requires Sink !in prev
    ensures var cut := ReachedNodes(dist);
            Source in cut && Sink !in cut && Saturates(L.arcs, L.flow, cut)
  {
    var cut := ReachedNodes(dist);
    forall k | 0 <= k < |L.arcs|
      ensures L.arcs[k].tail in cut && L.arcs[k].head !in cut ==> L.flow[k] == L.arcs[k].cap
      ensures L.arcs[k].tail !in cut && L.arcs[k].head in cut ==> L.flow[k] == 0
    {
      assert InPlace(g, L, k);
      var a, s := L.arcs[k], L.slots[k];
      assert HasEdge(g, a.tail, s.out) && HasEdge(g, a.head, s.back);
      assert Covered(g, a.tail, s.out, dist, dist);
      assert Covered(g, a.head, s.back, dist, dist);
    }
  }
}
