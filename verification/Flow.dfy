/**
  Flows on a list of arcs between the nodes of the season network, and the duality
  argument behind minimum-cost flow: node potentials turn "no residual arc has negative
  reduced cost" into optimality, and a saturated cut into maximality.
*/
module Flow {

  /** The nodes of the four-layer season network. */
  datatype Node =
    | Source
    | Sink
    | TeamNode(team: string)
    | GameNode(game: int)
    | WeekNode(week: int)

  /** An arc as it was inserted: its full capacity and its cost for each unit. */
  datatype Arc = Arc(tail: Node, head: Node, cap: nat, cost: real)

  type Potential = Node -> real

  // ---------------------------------------------------------------- repeated prices

  /** `n` units at price `p`: the product, spelled as a recursion so that proofs stay linear. */
  function Times(n: int, p: real): real
    decreases if n < 0 then -n else n
  {
    if n == 0 then 0.0
    else if n > 0 then Times(n - 1, p) + p
    else Times(n + 1, p) - p
  }

  lemma {:induction false} TimesIsProduct(n: int, p: real)
    ensures Times(n, p) == n as real * p
    decreases if n < 0 then -n else n
  {
    if n > 0 {
      TimesIsProduct(n - 1, p);
    } else if n < 0 {
      TimesIsProduct(n + 1, p);
    }
  }

  lemma TimesAdd(m: int, n: int, p: real)
    ensures Times(m + n, p) == Times(m, p) + Times(n, p)
  {
    TimesIsProduct(m, p);
    TimesIsProduct(n, p);
    TimesIsProduct(m + n, p);
  }

  lemma TimesSum(n: int, p: real, q: real)
    ensures Times(n, p + q) == Times(n, p) + Times(n, q)
    ensures Times(n, p - q) == Times(n, p) - Times(n, q)
  {
    TimesIsProduct(n, p);
    TimesIsProduct(n, q);
    TimesIsProduct(n, p + q);
    TimesIsProduct(n, p - q);
  }

  lemma TimesNegate(n: int, p: real)
    ensures Times(-n, p) == -Times(n, p)
  {
    TimesIsProduct(n, p);
    TimesIsProduct(-n, p);
    assert (-n) as real == -(n as real);
    assert -(n as real) * p == -(n as real * p);
  }

  lemma TimesOpposite(n: int, p: real)
    ensures Times(n, -p) == -Times(n, p)
  {
    hide Times;
    TimesSum(n, 0.0, p);
    TimesSum(n, 0.0, 0.0);
    assert 0.0 - p == -p && 0.0 - 0.0 == 0.0;
  }

  lemma {:induction false} TimesSign(n: nat, p: real)
    ensures p >= 0.0 ==> Times(n, p) >= 0.0
    ensures p <= 0.0 ==> Times(n, p) <= 0.0
  {
    if n > 0 {
      TimesSign(n - 1, p);
    }
  }

  // ---------------------------------------------------------------- flows

  /** Outflow minus inflow of `v`. */
  function NetOut(arcs: seq<Arc>, flow: seq<int>, v: Node): int
    requires |flow| == |arcs|
  {
    if |arcs| == 0 then 0
    else
      var n := |arcs| - 1;
      NetOut(arcs[..n], flow[..n], v)
      + (if arcs[n].tail == v then flow[n] else 0)
      - (if arcs[n].head == v then flow[n] else 0)
  }

  function FlowCost(arcs: seq<Arc>, flow: seq<int>): real
    requires |flow| == |arcs|
  {
    if |arcs| == 0 then 0.0
    else
      var n := |arcs| - 1;
      FlowCost(arcs[..n], flow[..n]) + Times(flow[n], arcs[n].cost)
  }

  ghost predicate WithinCapacity(arcs: seq<Arc>, flow: seq<int>) {
    && |flow| == |arcs|
    && forall k :: 0 <= k < |arcs| ==> 0 <= flow[k] <= arcs[k].cap
  }

  ghost predicate Conserved(arcs: seq<Arc>, flow: seq<int>)
    requires |flow| == |arcs|
  {
    forall v :: v != Source && v != Sink ==> NetOut(arcs, flow, v) == 0
  }

  /** A legal flow shipping `value` units from source to sink. */
  ghost predicate IsFlow(arcs: seq<Arc>, flow: seq<int>, value: int) {
    && WithinCapacity(arcs, flow)
    && Conserved(arcs, flow)
    && NetOut(arcs, flow, Source) == value
  }

  /** The cost of an arc once its ends are priced. */
  function Reduced(a: Arc, pi: Potential): real {
    a.cost + pi(a.tail) - pi(a.head)
  }

  /** Complementary slackness: no residual direction of any arc has negative reduced cost. */
  ghost predicate Slack(arcs: seq<Arc>, flow: seq<int>, pi: Potential)
    requires |flow| == |arcs|
  {
    forall k :: 0 <= k < |arcs| ==>
      && (flow[k] < arcs[k].cap ==> Reduced(arcs[k], pi) >= 0.0)
      && (flow[k] > 0 ==> Reduced(arcs[k], pi) <= 0.0)
  }

  // ---------------------------------------------------------------- telescoping

  /** The potential drop collected by the flow, arc by arc. */
  function Tension(arcs: seq<Arc>, flow: seq<int>, pi: Potential): real
    requires |flow| == |arcs|
  {
    if |arcs| == 0 then 0.0
    else
      var n := |arcs| - 1;
      Tension(arcs[..n], flow[..n], pi) + Times(flow[n], pi(arcs[n].tail) - pi(arcs[n].head))
  }

  /** The same drop collected node by node. */
  function NodeSum(vs: seq<Node>, arcs: seq<Arc>, flow: seq<int>, pi: Potential): real
    requires |flow| == |arcs|
  {
    if |vs| == 0 then 0.0
    else
      var v := vs[|vs| - 1];
      NodeSum(vs[..|vs| - 1], arcs, flow, pi) + Times(NetOut(arcs, flow, v), pi(v))
  }

  ghost predicate Distinct<T(!new)>(s: seq<T>) {
    forall i, j :: 0 <= i < j < |s| ==> s[i] != s[j]
  }

  /** The price of `units` at `t` if it is listed, else nothing. */
  function Listed(vs: seq<Node>, t: Node, units: int, pi: Potential): real {
    if |vs| == 0 then 0.0
    else Listed(vs[..|vs| - 1], t, units, pi) + (if vs[|vs| - 1] == t then Times(units, pi(t)) else 0.0)
  }

  lemma {:induction false} ListedOnce(vs: seq<Node>, t: Node, units: int, pi: Potential)
    requires Distinct(vs)
    ensures Listed(vs, t, units, pi) == if t in vs then Times(units, pi(t)) else 0.0
  {
    if |vs| == 0 {
    } else {
      var front := vs[..|vs| - 1];
      ListedOnce(front, t, units, pi);
      assert vs == front + [vs[|vs| - 1]];
    }
  }

  lemma {:induction false} NodeSumSnoc(vs: seq<Node>, arcs: seq<Arc>, flow: seq<int>, pi: Potential)
    requires |flow| == |arcs| > 0
    ensures var n := |arcs| - 1;
            NodeSum(vs, arcs, flow, pi) ==
            NodeSum(vs, arcs[..n], flow[..n], pi)
            + Listed(vs, arcs[n].tail, flow[n], pi) - Listed(vs, arcs[n].head, flow[n], pi)
  {
    if |vs| != 0 {
      var n, v := |arcs| - 1, vs[|vs| - 1];
      NodeSumSnoc(vs[..|vs| - 1], arcs, flow, pi);
      var net := NetOut(arcs[..n], flow[..n], v);
      TimesAdd(net, flow[n], pi(v));
      TimesAdd(net, -flow[n], pi(v));
      TimesNegate(flow[n], pi(v));
    }
  }

  lemma {:induction false} TensionIsNodeSum(vs: seq<Node>, arcs: seq<Arc>, flow: seq<int>, pi: Potential)
    requires |flow| == |arcs|
    requires Distinct(vs)
    requires forall k :: 0 <= k < |arcs| ==> arcs[k].tail in vs && arcs[k].head in vs
    ensures Tension(arcs, flow, pi) == NodeSum(vs, arcs, flow, pi)
  {
    if |arcs| == 0 {
      NodeSumEmpty(vs, arcs, flow, pi);
    } else {
      var n := |arcs| - 1;
      TensionIsNodeSum(vs, arcs[..n], flow[..n], pi);
      NodeSumSnoc(vs, arcs, flow, pi);
      ListedOnce(vs, arcs[n].tail, flow[n], pi);
      ListedOnce(vs, arcs[n].head, flow[n], pi);
      TimesSum(flow[n], pi(arcs[n].tail), pi(arcs[n].head));
    }
  }

  lemma {:induction false} NodeSumEmpty(vs: seq<Node>, arcs: seq<Arc>, flow: seq<int>, pi: Potential)
    requires |flow| == |arcs| == 0
    ensures NodeSum(vs, arcs, flow, pi) == 0.0
  {
    if |vs| != 0 {
      NodeSumEmpty(vs[..|vs| - 1], arcs, flow, pi);
    }
  }

  /** Source, sink and every end of an arc, each once. */
  function Cover(arcs: seq<Arc>): (vs: seq<Node>)
    ensures Distinct(vs)
    ensures |vs| >= 2 && vs[0] == Source && vs[1] == Sink
    ensures forall k :: 0 <= k < |arcs| ==> arcs[k].tail in vs && arcs[k].head in vs
  {
    if |arcs| == 0 then [Source, Sink]
    else
      var n := |arcs| - 1;
      var r0 := Cover(arcs[..n]);
      var r1 := if arcs[n].tail in r0 then r0 else r0 + [arcs[n].tail];
      if arcs[n].head in r1 then r1 else r1 + [arcs[n].head]
  }

  lemma {:induction false} NodeSumOfFlow(vs: seq<Node>, arcs: seq<Arc>, flow: seq<int>, pi: Potential)
    requires |flow| == |arcs| && Conserved(arcs, flow)
    requires Distinct(vs) && |vs| >= 2 && vs[0] == Source && vs[1] == Sink
    ensures NodeSum(vs, arcs, flow, pi) ==
            Times(NetOut(arcs, flow, Source), pi(Source)) + Times(NetOut(arcs, flow, Sink), pi(Sink))
  {
    if |vs| == 2 {
      assert vs[..1][..0] == [];
      assert NodeSum(vs[..1], arcs, flow, pi) ==
             NodeSum(vs[..1][..0], arcs, flow, pi) + Times(NetOut(arcs, flow, Source), pi(Source));
    } else {
      NodeSumOfFlow(vs[..|vs| - 1], arcs, flow, pi);
    }
  }

  lemma {:induction false} FlatTension(arcs: seq<Arc>, flow: seq<int>)
    requires |flow| == |arcs|
    ensures Tension(arcs, flow, v => 1.0) == 0.0
  {
    if |arcs| != 0 {
      FlatTension(arcs[..|arcs| - 1], flow[..|arcs| - 1]);
      TimesIsProduct(flow[|arcs| - 1], 0.0);
    }
  }

  /** What leaves the source enters the sink. */
  lemma SinkReceivesAll(arcs: seq<Arc>, flow: seq<int>)
    requires |flow| == |arcs| && Conserved(arcs, flow)
    ensures NetOut(arcs, flow, Sink) == -NetOut(arcs, flow, Source)
  {
    var vs := Cover(arcs);
    var one: Potential := v => 1.0;
    TensionIsNodeSum(vs, arcs, flow, one);
    NodeSumOfFlow(vs, arcs, flow, one);
    FlatTension(arcs, flow);
    TimesIsProduct(NetOut(arcs, flow, Source), 1.0);
    TimesIsProduct(NetOut(arcs, flow, Sink), 1.0);
  }

  /** The whole drop of a flow depends on its value alone. */
  lemma TensionOfFlow(arcs: seq<Arc>, flow: seq<int>, pi: Potential)
    requires |flow| == |arcs| && Conserved(arcs, flow)
    ensures Tension(arcs, flow, pi) == Times(NetOut(arcs, flow, Source), pi(Source) - pi(Sink))
  {
    hide Tension, NodeSum, NetOut, Times;
    var vs := Cover(arcs);
    TensionIsNodeSum(vs, arcs, flow, pi);
    NodeSumOfFlow(vs, arcs, flow, pi);
    SinkReceivesAll(arcs, flow);
    TimesNegate(NetOut(arcs, flow, Source), pi(Sink));
    TimesSum(NetOut(arcs, flow, Source), pi(Source), pi(Sink));
  }

  // ---------------------------------------------------------------- optimality

  lemma SlackTerm(cap: nat, f: int, g: int, r: real)
    requires 0 <= f <= cap && 0 <= g <= cap
    requires f < cap ==> r >= 0.0
    requires f > 0 ==> r <= 0.0
    ensures Times(f, r) <= Times(g, r)
  {
    if f < g {
      TimesSign(g - f, r);
      TimesAdd(g - f, f, r);
    } else {
      TimesSign(f - g, r);
      TimesAdd(f - g, g, r);
    }
  }

  lemma {:induction false} SlackBound(arcs: seq<Arc>, f: seq<int>, g: seq<int>, pi: Potential)
    requires WithinCapacity(arcs, f) && WithinCapacity(arcs, g)
    requires Slack(arcs, f, pi)
    ensures FlowCost(arcs, f) + Tension(arcs, f, pi) <= FlowCost(arcs, g) + Tension(arcs, g, pi)
  {
    if |arcs| != 0 {
      var n := |arcs| - 1;
      SlackBound(arcs[..n], f[..n], g[..n], pi);
      SlackTerm(arcs[n].cap, f[n], g[n], Reduced(arcs[n], pi));
      var drop := pi(arcs[n].tail) - pi(arcs[n].head);
      TimesSum(f[n], arcs[n].cost, drop);
      TimesSum(g[n], arcs[n].cost, drop);
      assert Reduced(arcs[n], pi) == arcs[n].cost + drop;
    }
  }

  /** A flow with slack potentials is cheapest among all flows of its value. */
  lemma SlackFlowIsCheapest(arcs: seq<Arc>, f: seq<int>, g: seq<int>, value: int, pi: Potential)
    requires IsFlow(arcs, f, value) && IsFlow(arcs, g, value)
    requires Slack(arcs, f, pi)
    ensures FlowCost(arcs, f) <= FlowCost(arcs, g)
  {
    SlackBound(arcs, f, g, pi);
    TensionOfFlow(arcs, f, pi);
    TensionOfFlow(arcs, g, pi);
  }

  // ---------------------------------------------------------------- maximality

  /** `f` fills every arc leaving `cut` and leaves every arc entering it empty. */
  ghost predicate Saturates(arcs: seq<Arc>, f: seq<int>, cut: set<Node>)
    requires |f| == |arcs|
  {
    forall k :: 0 <= k < |arcs| ==>
      && (arcs[k].tail in cut && arcs[k].head !in cut ==> f[k] == arcs[k].cap)
      && (arcs[k].tail !in cut && arcs[k].head in cut ==> f[k] == 0)
  }

  function Side(cut: set<Node>): Potential {
    v => if v in cut then 1.0 else 0.0
  }

  lemma {:induction false} CutBound(arcs: seq<Arc>, f: seq<int>, g: seq<int>, cut: set<Node>)
    requires WithinCapacity(arcs, f) && WithinCapacity(arcs, g)
    requires Saturates(arcs, f, cut)
    ensures Tension(arcs, g, Side(cut)) <= Tension(arcs, f, Side(cut))
  {
    if |arcs| != 0 {
      var n := |arcs| - 1;
      CutBound(arcs[..n], f[..n], g[..n], cut);
      var drop := Side(cut)(arcs[n].tail) - Side(cut)(arcs[n].head);
      TimesIsProduct(f[n], drop);
      TimesIsProduct(g[n], drop);
    }
  }

  /** A flow that saturates a cut between source and sink ships the most. */
  lemma SaturatedCutIsMaximal(arcs: seq<Arc>, f: seq<int>, g: seq<int>, value: int, other: int, cut: set<Node>)
    requires IsFlow(arcs, f, value) && IsFlow(arcs, g, other)
    requires Source in cut && Sink !in cut && Saturates(arcs, f, cut)
    ensures other <= value
  {
    CutBound(arcs, f, g, cut);
    TensionOfFlow(arcs, f, Side(cut));
    TensionOfFlow(arcs, g, Side(cut));
    TimesIsProduct(value, 1.0);
    TimesIsProduct(other, 1.0);
  }
}
