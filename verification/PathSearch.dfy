/**
  What the Bellman-Ford search over a residual graph keeps: distances that are lengths of
  walks, and `previous` links that form a tree rooted at the source. The residual graph
  may have negative costs; the potentials that price it take their place in the proofs.
*/
module PathSearch {
  import opened Flow
  import opened Residual
  import opened Sets

  datatype Distance = Unreached | Reached(d: real)

  type Distances = map<Node, Distance>
  type Links = map<Node, (Node, nat)>

  predicate AtMost(x: Distance, bound: real) {
    x.Reached? && x.d <= bound
  }

  /** `dist` is nowhere above `before`. */
  ghost predicate Lower(dist: Distances, before: Distances) {
    && dist.Keys == before.Keys
    && forall v :: v in before && before[v].Reached? ==> AtMost(dist[v], before[v].d)
  }

  /** Following `previous` from `v` arrives at the source after exactly `k` links. */
  ghost predicate Rooted(prev: Links, v: Node, k: nat)
    decreases k
  {
    if k == 0 then v == Source
    else v != Source && v in prev && Rooted(prev, prev[v].0, k - 1)
  }

  ghost predicate IsRooted(prev: Links, v: Node) {
    exists k: nat :: Rooted(prev, v, k)
  }

  /** The nodes of that chain, `v` and the source included. */
  ghost function Chain(prev: Links, v: Node, k: nat): set<Node>
    requires Rooted(prev, v, k)
    decreases k
  {
    if k == 0 then {Source} else {v} + Chain(prev, prev[v].0, k - 1)
  }

  /** A `previous` link is a usable edge whose relaxation explains the distance of its head. */
  ghost predicate LinkOk(g: Graph, dist: Distances, prev: Links, v: Node)
    requires v in prev
  {
    var (u, i) := prev[v];
    && HasEdge(g, u, i) && g[u][i].to == v && g[u][i].cap > 0
    && u in dist && dist[u].Reached?
    && v in dist && dist[v].Reached? && dist[u].d + g[u][i].cost <= dist[v].d
  }

  ghost predicate Linked(g: Graph, dist: Distances, prev: Links) {
    forall v :: v in prev ==> LinkOk(g, dist, prev, v)
  }

  ghost predicate AllRooted(g: Graph, dist: Distances, prev: Links)
    requires dist.Keys == g.Keys
  {
    forall v :: v in g && dist[v].Reached? ==> IsRooted(prev, v)
  }

  /** Who is reached, and never below what the prices allow. */
  ghost predicate Measured(g: Graph, pi: Potential, dist: Distances, prev: Links)
    requires dist.Keys == g.Keys
  {
    && Source in g && dist[Source] == Reached(0.0)
    && (forall v :: v in g ==> (v in prev <==> v != Source && dist[v].Reached?))
    && (forall v :: v in prev ==> v in g)
    && (forall v :: v in g && dist[v].Reached? ==> dist[v].d >= pi(v) - pi(Source))
  }

  /** The state of the search between two relaxations. */
  ghost predicate Tree(g: Graph, pi: Potential, dist: Distances, prev: Links) {
    && Priced(g, pi)
    && dist.Keys == g.Keys
    && Measured(g, pi, dist, prev)
    && Linked(g, dist, prev)
    && AllRooted(g, dist, prev)
  }

  /** Relaxing edge `(u, i)` would lower the distance of its head. */
  predicate CanRelax(g: Graph, dist: Distances, u: Node, i: nat)
    requires HasEdge(g, u, i) && u in dist && g[u][i].to in dist
  {
    var e := g[u][i];
    && e.cap > 0 && dist[u].Reached?
    && (dist[e.to].Reached? ==> dist[u].d + e.cost < dist[e.to].d)
  }

  /** Links never climb in reduced distance, so a chain cannot pass a node that lies above its start. */
  lemma {:induction false} ChainStaysBelow(g: Graph, pi: Potential, dist: Distances, prev: Links,
                                           u: Node, k: nat, v: Node, link: (Node, nat))
    requires Tree(g, pi, dist, prev) && u in g && v in g
    requires dist[u].Reached? && Rooted(prev, u, k)
    requires dist[v].Reached? ==> dist[u].d - pi(u) < dist[v].d - pi(v)
    ensures v !in Chain(prev, u, k)
    ensures v != Source ==> Rooted(prev[v := link], u, k)
    decreases k
  {
    if k > 0 {
      assert LinkOk(g, dist, prev, u);
      var (p, i) := prev[u];
      assert HasEdge(g, p, i) && g[p][i].cap > 0;
      ChainStaysBelow(g, pi, dist, prev, p, k - 1, v, link);
    }
  }

  /** Re-linking `v` to a rooted `u` keeps every other node rooted. */
  lemma {:induction false} Relinked(prev: Links, v: Node, link: (Node, nat), k: nat, w: Node, m: nat)
    requires v != Source && Rooted(prev[v := link], link.0, k) && Rooted(prev, w, m)
    ensures IsRooted(prev[v := link], w)
    decreases m
  {
    var after := prev[v := link];
    if w == v {
      assert Rooted(after, w, k + 1);
    } else if m == 0 {
      assert Rooted(after, w, 0);
    } else {
      Relinked(prev, v, link, k, prev[w].0, m - 1);
      var n: nat :| Rooted(after, prev[w].0, n);
      assert Rooted(after, w, n + 1);
    }
  }

  /** A relaxation that succeeds never lowers the source. */
  lemma SourceStays(g: Graph, pi: Potential, dist: Distances, prev: Links, u: Node, i: nat)
    requires Tree(g, pi, dist, prev) && HasEdge(g, u, i) && g[u][i].to in g
    requires CanRelax(g, dist, u, i)
    ensures g[u][i].to != Source && g[u][i].to != u
  {
  }

  lemma RelaxKeepsRoot(g: Graph, pi: Potential, dist: Distances, prev: Links, u: Node, i: nat, w: Node)
    requires Tree(g, pi, dist, prev) && HasEdge(g, u, i) && g[u][i].to in g
    requires CanRelax(g, dist, u, i)
    requires w in g && (w == g[u][i].to || dist[w].Reached?)
    ensures IsRooted(prev[g[u][i].to := (u, i)], w)
  {
    var v := g[u][i].to;
    SourceStays(g, pi, dist, prev, u, i);
    var k: nat :| Rooted(prev, u, k);
    ChainStaysBelow(g, pi, dist, prev, u, k, v, (u, i));
    if w == v {
      assert Rooted(prev[v := (u, i)], v, k + 1);
    } else {
      var m: nat :| Rooted(prev, w, m);
      Relinked(prev, v, (u, i), k, w, m);
    }
  }

  lemma RelaxKeepsRoots(g: Graph, pi: Potential, dist: Distances, prev: Links, u: Node, i: nat)
    requires Tree(g, pi, dist, prev) && HasEdge(g, u, i) && g[u][i].to in g
    requires CanRelax(g, dist, u, i)
    ensures var e := g[u][i];
            && dist[e.to := Reached(dist[u].d + e.cost)].Keys == g.Keys
            && AllRooted(g, dist[e.to := Reached(dist[u].d + e.cost)], prev[e.to := (u, i)])
  {
    hide Priced, Linked, Measured, IsRooted;
    forall w | w in g && (w == g[u][i].to || dist[w].Reached?)
      ensures IsRooted(prev[g[u][i].to := (u, i)], w)
    {
      RelaxKeepsRoot(g, pi, dist, prev, u, i, w);
    }
  }

  lemma RelaxKeepsLink(g: Graph, pi: Potential, dist: Distances, prev: Links, u: Node, i: nat, w: Node)
    requires Tree(g, pi, dist, prev) && HasEdge(g, u, i) && g[u][i].to in g
    requires CanRelax(g, dist, u, i)
    requires w in prev || w == g[u][i].to
    ensures var e := g[u][i];
            LinkOk(g, dist[e.to := Reached(dist[u].d + e.cost)], prev[e.to := (u, i)], w)
  {
    hide IsRooted;
    SourceStays(g, pi, dist, prev, u, i);
    if w != g[u][i].to {
      assert LinkOk(g, dist, prev, w);
    }
  }

  lemma RelaxKeepsLinks(g: Graph, pi: Potential, dist: Distances, prev: Links, u: Node, i: nat)
    requires Tree(g, pi, dist, prev) && HasEdge(g, u, i) && g[u][i].to in g
    requires CanRelax(g, dist, u, i)
    ensures var e := g[u][i];
            Linked(g, dist[e.to := Reached(dist[u].d + e.cost)], prev[e.to := (u, i)])
  {
    hide LinkOk, AllRooted, Priced;
    var e := g[u][i];
    forall w | w in prev || w == e.to
      ensures LinkOk(g, dist[e.to := Reached(dist[u].d + e.cost)], prev[e.to := (u, i)], w)
    {
      RelaxKeepsLink(g, pi, dist, prev, u, i, w);
    }
  }

  lemma RelaxKeepsMeasured(g: Graph, pi: Potential, dist: Distances, prev: Links, u: Node, i: nat)
    requires Tree(g, pi, dist, prev) && HasEdge(g, u, i) && g[u][i].to in g
    requires CanRelax(g, dist, u, i)
    ensures var e := g[u][i];
            && dist[e.to := Reached(dist[u].d + e.cost)].Keys == g.Keys
            && Measured(g, pi, dist[e.to := Reached(dist[u].d + e.cost)], prev[e.to := (u, i)])
  {
    SourceStays(g, pi, dist, prev, u, i);
  }

  /** Relaxing an edge keeps the tree. */
  lemma RelaxKeepsTree(g: Graph, pi: Potential, dist: Distances, prev: Links, u: Node, i: nat)
    requires Tree(g, pi, dist, prev) && HasEdge(g, u, i) && g[u][i].to in g
    requires CanRelax(g, dist, u, i)
    ensures var e := g[u][i];
            Tree(g, pi, dist[e.to := Reached(dist[u].d + e.cost)], prev[e.to := (u, i)])
  {
    hide Priced, Linked, Measured, AllRooted;
    RelaxKeepsMeasured(g, pi, dist, prev, u, i);
    RelaxKeepsRoots(g, pi, dist, prev, u, i);
    RelaxKeepsLinks(g, pi, dist, prev, u, i);
  }

  // ---------------------------------------------------------------- convergence

  /** Edge `(u, i)` has been relaxed from the distances `before`. */
  ghost predicate Covered(g: Graph, u: Node, i: nat, before: Distances, dist: Distances)
    requires HasEdge(g, u, i)
  {
    && u in before && g[u][i].to in dist
    && (g[u][i].cap > 0 && before[u].Reached? ==> AtMost(dist[g[u][i].to], before[u].d + g[u][i].cost))
  }

  /** The first `n` edges of `u` have been relaxed. */
  ghost predicate CoveredUpTo(g: Graph, u: Node, n: nat, before: Distances, dist: Distances)
    requires u in g && n <= |g[u]|
  {
    forall i: nat {:trigger g[u][i]} :: i < n ==> Covered(g, u, i, before, dist)
  }

  /** What the inner loop keeps, before its `n`-th edge. */
  ghost predicate InnerLoop(g: Graph, pi: Potential, u: Node, n: nat, before: Distances, dist0: Distances,
                            dist: Distances, prev: Links)
    requires u in g && n <= |g[u]|
  {
    && Tree(g, pi, dist, prev)
    && Lower(dist, dist0) && Lower(dist, before)
    && CoveredUpTo(g, u, n, before, dist)
  }

  lemma InnerLoopStarts(g: Graph, pi: Potential, u: Node, before: Distances, dist: Distances, prev: Links)
    requires u in g && Tree(g, pi, dist, prev) && Lower(dist, before)
    ensures InnerLoop(g, pi, u, 0, before, dist, dist, prev)
  {
  }

  lemma InnerLoopDomain(g: Graph, pi: Potential, u: Node, n: nat, before: Distances, dist0: Distances,
                        dist: Distances, prev: Links)
    requires u in g && n <= |g[u]| && InnerLoop(g, pi, u, n, before, dist0, dist, prev)
    ensures dist.Keys == g.Keys
  {
  }

  lemma InnerLoopSkips(g: Graph, pi: Potential, u: Node, n: nat, before: Distances, dist0: Distances,
                       dist: Distances, prev: Links)
    requires u in g && n < |g[u]| && g[u][n].to in g
    requires InnerLoop(g, pi, u, n, before, dist0, dist, prev)
    requires !CanRelax(g, dist, u, n)
    ensures InnerLoop(g, pi, u, n + 1, before, dist0, dist, prev)
  {
    forall i: nat | i < n + 1
      ensures Covered(g, u, i, before, dist)
    {
      if i < n {
        assert g[u][i] == g[u][i];
      }
    }
  }

  lemma InnerLoopRelaxes(g: Graph, pi: Potential, u: Node, n: nat, before: Distances, dist0: Distances,
                         dist: Distances, prev: Links)
    requires u in g && n < |g[u]| && g[u][n].to in g
    requires InnerLoop(g, pi, u, n, before, dist0, dist, prev)
    requires CanRelax(g, dist, u, n)
    ensures var e := g[u][n];
            dist.Keys == g.Keys && dist[u].Reached? &&
            InnerLoop(g, pi, u, n + 1, before, dist0, dist[e.to := Reached(dist[u].d + e.cost)], prev[e.to := (u, n)])
  {
    hide Tree, CoveredUpTo, Covered, Lower;
    InnerLoopDomain(g, pi, u, n, before, dist0, dist, prev);
    var e := g[u][n];
    var dist' := dist[e.to := Reached(dist[u].d + e.cost)];
    RelaxKeepsTree(g, pi, dist, prev, u, n);
    RelaxLowers(g, dist, u, n, dist0);
    RelaxLowers(g, dist, u, n, before);
    LowerReflexive(dist);
    RelaxLowers(g, dist, u, n, dist);
    RelaxCovers(g, dist, u, n, before);
    CoverageGrows(g, u, n, before, dist, dist');
  }

  lemma LowerReflexive(dist: Distances)
    ensures Lower(dist, dist)
  {
  }

  lemma RelaxCovers(g: Graph, dist: Distances, u: Node, i: nat, before: Distances)
    requires HasEdge(g, u, i) && u in dist && g[u][i].to in dist && CanRelax(g, dist, u, i)
    requires Lower(dist, before)
    ensures Covered(g, u, i, before, dist[g[u][i].to := Reached(dist[u].d + g[u][i].cost)])
  {
  }

  lemma RelaxLowers(g: Graph, dist: Distances, u: Node, i: nat, above: Distances)
    requires HasEdge(g, u, i) && u in dist && g[u][i].to in dist && CanRelax(g, dist, u, i)
    requires Lower(dist, above)
    ensures Lower(dist[g[u][i].to := Reached(dist[u].d + g[u][i].cost)], above)
  {
  }

  lemma CoverageGrows(g: Graph, u: Node, n: nat, before: Distances, dist: Distances, dist': Distances)
    requires u in g && n < |g[u]| && CoveredUpTo(g, u, n, before, dist)
    requires Lower(dist', dist) && Covered(g, u, n, before, dist')
    ensures CoveredUpTo(g, u, n + 1, before, dist')
  {
    forall i: nat | i < n + 1
      ensures Covered(g, u, i, before, dist')
    {
      if i < n {
        assert g[u][i] == g[u][i];
        assert Covered(g, u, i, before, dist);
      }
    }
  }

  ghost predicate AllCovered(g: Graph, before: Distances, dist: Distances) {
    forall u, i: nat {:trigger g[u][i]} :: HasEdge(g, u, i) ==> Covered(g, u, i, before, dist)
  }

  /** No distance is longer than a walk of at most `steps` edges. */
  ghost predicate WithinSteps(g: Graph, dist: Distances, steps: nat) {
    forall w: Walk, v {:trigger IsWalk(g, Source, w, v)} :: IsWalk(g, Source, w, v) && |w| <= steps ==>
      && v in dist
      && StepsExist(g, w)
      && AtMost(dist[v], WalkCost(g, w))
  }

  /** One full round lengthens the walks that are accounted for by one edge. */
  lemma RoundExtendsSteps(g: Graph, before: Distances, dist: Distances, steps: nat)
    requires WithinSteps(g, before, steps) && Lower(dist, before) && AllCovered(g, before, dist)
    ensures WithinSteps(g, dist, steps + 1)
  {
    forall w: Walk, v | IsWalk(g, Source, w, v) && |w| <= steps + 1
      ensures v in dist
      ensures StepsExist(g, w)
      ensures AtMost(dist[v], WalkCost(g, w))
    {
      if |w| == 0 {
        assert IsWalk(g, Source, w, v);
      } else {
        WalkEdges(g, Source, w, v);
        var (u, i) := w[|w| - 1];
        assert IsWalk(g, Source, w[..|w| - 1], u);
        assert Covered(g, u, i, before, dist);
      }
    }
  }

  /** The chain of `v`, read as a walk from the source: it is no longer than the distance of `v`. */
  lemma {:induction false} ChainWalk(g: Graph, pi: Potential, dist: Distances, prev: Links, v: Node, k: nat)
    returns (w: Walk)
    requires Tree(g, pi, dist, prev) && v in g && Rooted(prev, v, k)
    ensures |w| == k && IsWalk(g, Source, w, v)
    ensures StepsExist(g, w)
    ensures AtMost(dist[v], dist[v].d) && WalkCost(g, w) <= dist[v].d
    decreases k
  {
    if k == 0 {
      w := [];
    } else {
      assert LinkOk(g, dist, prev, v);
      var front := ChainWalk(g, pi, dist, prev, prev[v].0, k - 1);
      w := front + [prev[v]];
      assert w[..|w| - 1] == front;
    }
  }

  lemma {:induction false} DepthUnique(prev: Links, v: Node, j: nat, k: nat)
    requires Rooted(prev, v, j) && Rooted(prev, v, k)
    ensures j == k
    decreases k
  {
    if k > 0 && j > 0 {
      DepthUnique(prev, prev[v].0, j - 1, k - 1);
    }
  }

  lemma {:induction false} ChainDepth(prev: Links, v: Node, k: nat, x: Node)
    requires Rooted(prev, v, k) && x in Chain(prev, v, k)
    ensures exists j :: 0 <= j <= k && Rooted(prev, x, j)
    decreases k
  {
    if k == 0 || x == v {
      assert Rooted(prev, x, k);
    } else {
      ChainDepth(prev, prev[v].0, k - 1, x);
    }
  }

  /** A chain never returns to its start: it is acyclic. */
  lemma ChainIsAcyclic(prev: Links, v: Node, k: nat)
    requires k > 0 && Rooted(prev, v, k)
    ensures v !in Chain(prev, prev[v].0, k - 1)
  {
    if v in Chain(prev, prev[v].0, k - 1) {
      ChainDepth(prev, prev[v].0, k - 1, v);
      var j :| 0 <= j <= k - 1 && Rooted(prev, v, j);
      DepthUnique(prev, v, j, k);
    }
  }

  lemma {:induction false} ChainSize(prev: Links, v: Node, k: nat)
    requires Rooted(prev, v, k)
    ensures |Chain(prev, v, k)| == k + 1
    decreases k
  {
    if k > 0 {
      ChainIsAcyclic(prev, v, k);
      ChainSize(prev, prev[v].0, k - 1);
    }
  }

  lemma {:induction false} ChainInside(prev: Links, v: Node, k: nat, nodes: set<Node>)
    requires Rooted(prev, v, k) && Source in nodes && v in nodes
    requires forall w :: w in prev ==> prev[w].0 in nodes
    ensures Chain(prev, v, k) <= nodes
    decreases k
  {
    if k > 0 {
      ChainInside(prev, prev[v].0, k - 1, nodes);
    }
  }

  /** The chain of `u` has as many links as it can, one node aside for every node it avoids. */
  lemma ChainLeavesRoom(g: Graph, pi: Potential, dist: Distances, prev: Links, u: Node, k: nat, v: Node)
    requires Tree(g, pi, dist, prev) && u in g && Rooted(prev, u, k)
    requires v in g && v !in Chain(prev, u, k)
    ensures k + 2 <= |g.Keys|
  {
    ChainSize(prev, u, k);
    forall w | w in prev ensures prev[w].0 in g.Keys { assert LinkOk(g, dist, prev, w); }
    ChainInside(prev, u, k, g.Keys);
    SubsetSize(Chain(prev, u, k) + {v}, g.Keys);
  }

  /** An edge that can still be relaxed ends a walk that is shorter in cost and visits no node twice. */
  lemma RelaxableWalk(g: Graph, pi: Potential, dist: Distances, prev: Links, u: Node, i: nat) returns (w: Walk)
    requires Tree(g, pi, dist, prev) && HasEdge(g, u, i) && g[u][i].to in g
    requires CanRelax(g, dist, u, i)
    ensures |w| <= |g.Keys| - 1 && IsWalk(g, Source, w, g[u][i].to) && StepsExist(g, w)
    ensures WalkCost(g, w) <= dist[u].d + g[u][i].cost
  {
    var k: nat :| Rooted(prev, u, k);
    ChainStaysBelow(g, pi, dist, prev, u, k, g[u][i].to, (u, i));
    ChainLeavesRoom(g, pi, dist, prev, u, k, g[u][i].to);
    var front := ChainWalk(g, pi, dist, prev, u, k);
    w := front + [(u, i)];
    assert w[..|w| - 1] == front;
  }

  /** After one round fewer than there are nodes, no edge can be relaxed any further. */
  lemma RoundsSuffice(g: Graph, pi: Potential, dist: Distances, prev: Links)
    requires Tree(g, pi, dist, prev)
    requires forall u, i: nat {:trigger g[u][i]} :: HasEdge(g, u, i) ==> g[u][i].to in g
    requires WithinSteps(g, dist, |g.Keys| - 1)
    ensures AllCovered(g, dist, dist)
  {
    forall u, i: nat | HasEdge(g, u, i)
      ensures Covered(g, u, i, dist, dist)
    {
      if CanRelax(g, dist, u, i) {
        var w := RelaxableWalk(g, pi, dist, prev, u, i);
      }
    }
  }

  // ---------------------------------------------------------------- the next prices

  /** Shortest distances, with `gap` above the old price for nodes out of reach, as new prices. */
  function NextPrices(pi: Potential, dist: Distances, gap: real): Potential {
    v => if v in dist && dist[v].Reached? then dist[v].d else pi(v) + gap
  }

  /** A bound on how far distances lie above the old prices. */
  ghost function Gap(nodes: set<Node>, pi: Potential, dist: Distances): (gap: real)
    ensures forall v :: v in nodes && v in dist && dist[v].Reached? ==> dist[v].d - pi(v) <= gap
  {
    if nodes == {} then 0.0
    else
      var v :| v in nodes;
      var rest := Gap(nodes - {v}, pi, dist);
      if v in dist && dist[v].Reached? && dist[v].d - pi(v) > rest then dist[v].d - pi(v) else rest
  }

  /** Final distances price the graph, and price the links of the tree at exactly zero. */
  lemma DistancesPrice(g: Graph, pi: Potential, dist: Distances, prev: Links)
    requires Tree(g, pi, dist, prev) && AllCovered(g, dist, dist)
    ensures var next := NextPrices(pi, dist, Gap(g.Keys, pi, dist));
            && Priced(g, next)
            && forall v :: v in prev ==>
                 LinkOk(g, dist, prev, v) && g[prev[v].0][prev[v].1].cost + next(prev[v].0) - next(v) == 0.0
  {
    var next := NextPrices(pi, dist, Gap(g.Keys, pi, dist));
    forall u, i | HasEdge(g, u, i) && g[u][i].cap > 0
      ensures g[u][i].cost + next(u) - next(g[u][i].to) >= 0.0
    {
      assert Covered(g, u, i, dist, dist);
    }
    forall v | v in prev
      ensures LinkOk(g, dist, prev, v) && g[prev[v].0][prev[v].1].cost + next(prev[v].0) - next(v) == 0.0
    {
      assert LinkOk(g, dist, prev, v);
      var (u, i) := prev[v];
      assert Covered(g, u, i, dist, dist);
    }
  }
}
