/**
  Pick plans and network flows are the same thing: a plan that gives each open game at most
  one of its permitted teams, within the weekly and team limits, is exactly a flow of the
  season network, with the same size and the same cost.
*/
module PlanFlow {
  import opened Wrappers
  import opened Flow

  /** One permitted team of an open game, its survival probability and the cost of picking it. */
  datatype Choice = Choice(team: string, survival: real, cost: real)

  datatype OpenGame = OpenGame(id: int, week: int, choices: seq<Choice>)

  /** A week with the picks it still needs; a team with the uses it has left. */
  datatype WeekNeed = WeekNeed(week: int, cap: nat)
  datatype TeamUses = TeamUses(team: string, cap: nat)

  datatype Problem = Problem(weeks: seq<WeekNeed>, teams: seq<TeamUses>, open: seq<OpenGame>)

  /** For each open game, the position of the chosen team, if any. */
  type Plan = seq<Option<nat>>

  ghost predicate FitsGames(open: seq<OpenGame>, plan: Plan) {
    && |plan| == |open|
    && forall g :: 0 <= g < |open| && plan[g].Some? ==> plan[g].value < |open[g].choices|
  }

  function ChosenTeam(g: OpenGame, p: Option<nat>): Option<string> {
    if p.Some? && p.value < |g.choices| then Some(g.choices[p.value].team) else None
  }

  function TeamLoad(open: seq<OpenGame>, plan: Plan, team: string): nat
    requires |plan| == |open|
  {
    if |open| == 0 then 0
    else
      var n := |open| - 1;
      TeamLoad(open[..n], plan[..n], team) + (if ChosenTeam(open[n], plan[n]) == Some(team) then 1 else 0)
  }

  function WeekLoad(open: seq<OpenGame>, plan: Plan, week: int): nat
    requires |plan| == |open|
  {
    if |open| == 0 then 0
    else
      var n := |open| - 1;
      WeekLoad(open[..n], plan[..n], week) + (if plan[n].Some? && open[n].week == week then 1 else 0)
  }

  function Size(plan: Plan): nat {
    if |plan| == 0 then 0
    else Size(plan[..|plan| - 1]) + (if plan[|plan| - 1].Some? then 1 else 0)
  }

  function PlanCost(open: seq<OpenGame>, plan: Plan): real
    requires FitsGames(open, plan)
  {
    if |open| == 0 then 0.0
    else
      var n := |open| - 1;
      PlanCost(open[..n], plan[..n]) + (if plan[n].Some? then open[n].choices[plan[n].value].cost else 0.0)
  }

  /** A plan that respects the games, the weeks and the teams. */
  ghost predicate Legal(p: Problem, plan: Plan) {
    && FitsGames(p.open, plan)
    && (forall w :: 0 <= w < |p.weeks| ==> WeekLoad(p.open, plan, p.weeks[w].week) <= p.weeks[w].cap)
    && (forall t :: 0 <= t < |p.teams| ==> TeamLoad(p.open, plan, p.teams[t].team) <= p.teams[t].cap)
  }

  ghost predicate WellFormed(p: Problem) {
    && (forall i, j :: 0 <= i < j < |p.weeks| ==> p.weeks[i].week != p.weeks[j].week)
    && (forall i, j :: 0 <= i < j < |p.teams| ==> p.teams[i].team != p.teams[j].team)
    && (forall i, j :: 0 <= i < j < |p.open| ==> p.open[i].id != p.open[j].id)
    && (forall g :: 0 <= g < |p.open| ==> KnownGame(p, p.open[g]))
  }

  ghost predicate KnownGame(p: Problem, g: OpenGame) {
    && (exists w :: 0 <= w < |p.weeks| && p.weeks[w].week == g.week)
    && forall j :: 0 <= j < |g.choices| ==> KnownTeam(p, g.choices[j].team)
  }

  ghost predicate KnownTeam(p: Problem, team: string) {
    exists t :: 0 <= t < |p.teams| && p.teams[t].team == team
  }

  // ---------------------------------------------------------------- the network

  function WeekArcs(weeks: seq<WeekNeed>): (arcs: seq<Arc>)
    ensures |arcs| == |weeks|
  {
    if |weeks| == 0 then []
    else
      var n := |weeks| - 1;
      WeekArcs(weeks[..n]) + [Arc(WeekNode(weeks[n].week), Sink, weeks[n].cap, 0.0)]
  }

  function TeamArcs(teams: seq<TeamUses>): (arcs: seq<Arc>)
    ensures |arcs| == |teams|
  {
    if |teams| == 0 then []
    else
      var n := |teams| - 1;
      TeamArcs(teams[..n]) + [Arc(Source, TeamNode(teams[n].team), teams[n].cap, 0.0)]
  }

  function ChoiceArcs(game: int, choices: seq<Choice>): (arcs: seq<Arc>)
    ensures |arcs| == |choices|
  {
    if |choices| == 0 then []
    else
      var n := |choices| - 1;
      ChoiceArcs(game, choices[..n]) + [Arc(TeamNode(choices[n].team), GameNode(game), 1, choices[n].cost)]
  }

  function Block(g: OpenGame): (arcs: seq<Arc>)
    ensures |arcs| == 1 + |g.choices|
  {
    [Arc(GameNode(g.id), WeekNode(g.week), 1, 0.0)] + ChoiceArcs(g.id, g.choices)
  }

  function GameArcs(open: seq<OpenGame>): seq<Arc> {
    if |open| == 0 then [] else GameArcs(open[..|open| - 1]) + Block(open[|open| - 1])
  }

  /** All arcs in the order the allocator inserts them. */
  function AllArcs(p: Problem): seq<Arc> {
    WeekArcs(p.weeks) + TeamArcs(p.teams) + GameArcs(p.open)
  }

  // ---------------------------------------------------------------- plans as flows

  function WeekFlow(weeks: seq<WeekNeed>, open: seq<OpenGame>, plan: Plan): (f: seq<int>)
    requires |plan| == |open|
    ensures |f| == |weeks| && forall w :: 0 <= w < |weeks| ==> f[w] == WeekLoad(open, plan, weeks[w].week)
  {
    seq(|weeks|, w requires 0 <= w < |weeks| => WeekLoad(open, plan, weeks[w].week))
  }

  function TeamFlow(teams: seq<TeamUses>, open: seq<OpenGame>, plan: Plan): (f: seq<int>)
    requires |plan| == |open|
    ensures |f| == |teams| && forall t :: 0 <= t < |teams| ==> f[t] == TeamLoad(open, plan, teams[t].team)
  {
    seq(|teams|, t requires 0 <= t < |teams| => TeamLoad(open, plan, teams[t].team))
  }

  /** One unit on the chosen position, none elsewhere. */
  function ChoiceFlow(n: nat, p: Option<nat>): (f: seq<int>)
    ensures |f| == n
  {
    seq(n, j => if p == Some(j) then 1 else 0)
  }

  function BlockFlow(g: OpenGame, p: Option<nat>): (f: seq<int>)
    ensures |f| == 1 + |g.choices|
  {
    [if p.Some? then 1 else 0] + ChoiceFlow(|g.choices|, p)
  }

  function GameFlow(open: seq<OpenGame>, plan: Plan): (f: seq<int>)
    requires |plan| == |open|
    ensures |f| == |GameArcs(open)|
  {
    if |open| == 0 then []
    else GameFlow(open[..|open| - 1], plan[..|open| - 1]) + BlockFlow(open[|open| - 1], plan[|open| - 1])
  }

  function FlowOf(p: Problem, plan: Plan): (f: seq<int>)
    requires |plan| == |p.open|
    ensures |f| == |AllArcs(p)|
  {
    WeekFlow(p.weeks, p.open, plan) + TeamFlow(p.teams, p.open, plan) + GameFlow(p.open, plan)
  }

  // ---------------------------------------------------------------- sums over parts

  lemma {:induction false} NetOutSplit(a: seq<Arc>, b: seq<Arc>, f: seq<int>, g: seq<int>, v: Node)
    requires |f| == |a| && |g| == |b|
    ensures NetOut(a + b, f + g, v) == NetOut(a, f, v) + NetOut(b, g, v)
  {
    if |b| == 0 {
      assert a + b == a && f + g == f;
    } else {
      var n := |b| - 1;
      NetOutSplit(a, b[..n], f, g[..n], v);
      assert (a + b)[..|a + b| - 1] == a + b[..n];
      assert (f + g)[..|a + b| - 1] == f + g[..n];
    }
  }

  lemma {:induction false} CostSplit(a: seq<Arc>, b: seq<Arc>, f: seq<int>, g: seq<int>)
    requires |f| == |a| && |g| == |b|
    ensures FlowCost(a + b, f + g) == FlowCost(a, f) + FlowCost(b, g)
  {
    if |b| == 0 {
      assert a + b == a && f + g == f;
    } else {
      var n := |b| - 1;
      CostSplit(a, b[..n], f, g[..n]);
      assert (a + b)[..|a + b| - 1] == a + b[..n];
      assert (f + g)[..|a + b| - 1] == f + g[..n];
    }
  }

  /** Net outflow along the three layers. */
  lemma NetOutLayers(p: Problem, fw: seq<int>, ft: seq<int>, fg: seq<int>, v: Node)
    requires |fw| == |p.weeks| && |ft| == |p.teams| && |fg| == |GameArcs(p.open)|
    ensures NetOut(AllArcs(p), fw + ft + fg, v) ==
            NetOut(WeekArcs(p.weeks), fw, v) + NetOut(TeamArcs(p.teams), ft, v) + NetOut(GameArcs(p.open), fg, v)
  {
    NetOutSplit(WeekArcs(p.weeks) + TeamArcs(p.teams), GameArcs(p.open), fw + ft, fg, v);
    NetOutSplit(WeekArcs(p.weeks), TeamArcs(p.teams), fw, ft, v);
  }

  lemma {:induction false} WeekLayer(weeks: seq<WeekNeed>, f: seq<int>, v: Node)
    requires |f| == |weeks|
    requires forall i, j :: 0 <= i < j < |weeks| ==> weeks[i].week != weeks[j].week
    ensures v.Source? || v.TeamNode? || v.GameNode? ==> NetOut(WeekArcs(weeks), f, v) == 0
    ensures forall w :: 0 <= w < |weeks| && v == WeekNode(weeks[w].week) ==> NetOut(WeekArcs(weeks), f, v) == f[w]
    ensures v.WeekNode? && (forall w :: 0 <= w < |weeks| ==> weeks[w].week != v.week) ==>
              NetOut(WeekArcs(weeks), f, v) == 0
  {
    if |weeks| != 0 {
      WeekLayer(weeks[..|weeks| - 1], f[..|weeks| - 1], v);
    }
  }

  function Sum(f: seq<int>): int {
    if |f| == 0 then 0 else Sum(f[..|f| - 1]) + f[|f| - 1]
  }

  lemma {:induction false} TeamLayer(teams: seq<TeamUses>, f: seq<int>, v: Node)
    requires |f| == |teams|
    requires forall i, j :: 0 <= i < j < |teams| ==> teams[i].team != teams[j].team
    ensures v.Sink? || v.WeekNode? || v.GameNode? ==> NetOut(TeamArcs(teams), f, v) == 0
    ensures v.Source? ==> NetOut(TeamArcs(teams), f, v) == Sum(f)
    ensures forall t :: 0 <= t < |teams| && v == TeamNode(teams[t].team) ==> NetOut(TeamArcs(teams), f, v) == -f[t]
    ensures v.TeamNode? && (forall t :: 0 <= t < |teams| ==> teams[t].team != v.team) ==>
              NetOut(TeamArcs(teams), f, v) == 0
  {
    if |teams| != 0 {
      TeamLayer(teams[..|teams| - 1], f[..|teams| - 1], v);
    }
  }

  /** Units on the choices of one game that come from `team`. */
  function FromTeam(choices: seq<Choice>, f: seq<int>, team: string): int
    requires |f| == |choices|
  {
    if |choices| == 0 then 0
    else
      var n := |choices| - 1;
      FromTeam(choices[..n], f[..n], team) + (if choices[n].team == team then f[n] else 0)
  }

  lemma {:induction false} ChoiceLayer(game: int, choices: seq<Choice>, f: seq<int>, v: Node)
    requires |f| == |choices|
    ensures NetOut(ChoiceArcs(game, choices), f, v) ==
            match v
            case TeamNode(t) => FromTeam(choices, f, t)
            case GameNode(g) => if g == game then -Sum(f) else 0
            case _ => 0
  {
    if |choices| != 0 {
      ChoiceLayer(game, choices[..|choices| - 1], f[..|choices| - 1], v);
    }
  }

  lemma BlockLayer(g: OpenGame, f: seq<int>, v: Node)
    requires |f| == 1 + |g.choices|
    ensures NetOut(Block(g), f, v) ==
            match v
            case TeamNode(t) => FromTeam(g.choices, f[1..], t)
            case GameNode(id) => if id == g.id then f[0] - Sum(f[1..]) else 0
            case WeekNode(w) => if w == g.week then -f[0] else 0
            case _ => 0
  {
    var first := [Arc(GameNode(g.id), WeekNode(g.week), 1, 0.0)];
    assert f == [f[0]] + f[1..];
    NetOutSplit(first, ChoiceArcs(g.id, g.choices), [f[0]], f[1..], v);
    assert first[..0] == [] && [f[0]][..0] == [];
    assert NetOut(first, [f[0]], v) ==
           (if v == GameNode(g.id) then f[0] else 0) - (if v == WeekNode(g.week) then f[0] else 0);
    ChoiceLayer(g.id, g.choices, f[1..], v);
  }

  // ---------------------------------------------------------------- a plan is a flow

  lemma {:induction false} ChoiceSums(choices: seq<Choice>, p: Option<nat>, team: string)
    ensures Sum(ChoiceFlow(|choices|, p)) == if p.Some? && p.value < |choices| then 1 else 0
    ensures FromTeam(choices, ChoiceFlow(|choices|, p), team) ==
            if p.Some? && p.value < |choices| && choices[p.value].team == team then 1 else 0
  {
    if |choices| != 0 {
      var n := |choices| - 1;
      ChoiceSums(choices[..n], p, team);
      assert ChoiceFlow(|choices|, p)[..n] == ChoiceFlow(n, p);
    }
  }

  lemma {:induction false} GameLayer(open: seq<OpenGame>, plan: Plan, v: Node)
    requires FitsGames(open, plan)
    ensures NetOut(GameArcs(open), GameFlow(open, plan), v) ==
            match v
            case TeamNode(t) => TeamLoad(open, plan, t) as int
            case WeekNode(w) => -(WeekLoad(open, plan, w) as int)
            case _ => 0
  {
    if |open| != 0 {
      var n := |open| - 1;
      GameLayer(open[..n], plan[..n], v);
      var f := BlockFlow(open[n], plan[n]);
      NetOutSplit(GameArcs(open[..n]), Block(open[n]), GameFlow(open[..n], plan[..n]), f, v);
      BlockLayer(open[n], f, v);
      assert f[1..] == ChoiceFlow(|open[n].choices|, plan[n]);
      ChoiceSums(open[n].choices, plan[n], if v.TeamNode? then v.team else "");
    }
  }

  lemma {:induction false} SumBump(f: seq<int>, g: seq<int>, k: nat)
    requires |f| == |g| && k < |f| && g == f[k := f[k] + 1]
    ensures Sum(g) == Sum(f) + 1
  {
    var n := |f| - 1;
    if k == n {
      assert g[..n] == f[..n];
    } else {
      SumBump(f[..n], g[..n], k);
    }
  }

  lemma {:induction false} NoLoad(teams: seq<TeamUses>)
    ensures Sum(TeamFlow(teams, [], [])) == 0
  {
    if |teams| != 0 {
      NoLoad(teams[..|teams| - 1]);
      assert TeamFlow(teams, [], [])[..|teams| - 1] == TeamFlow(teams[..|teams| - 1], [], []);
    }
  }

  /** Every pick uses exactly one team. */
  lemma {:induction false} TeamLoadsAddUp(p: Problem, open: seq<OpenGame>, plan: Plan)
    requires WellFormed(p) && open <= p.open && FitsGames(open, plan)
    ensures Sum(TeamFlow(p.teams, open, plan)) == Size(plan)
  {
    if |open| == 0 {
      NoLoad(p.teams);
    } else {
      var n := |open| - 1;
      assert open[..n] <= p.open;
      TeamLoadsAddUp(p, open[..n], plan[..n]);
      var before, after := TeamFlow(p.teams, open[..n], plan[..n]), TeamFlow(p.teams, open, plan);
      if plan[n].Some? {
        assert KnownGame(p, p.open[n]) && open[n] == p.open[n];
        var team := open[n].choices[plan[n].value].team;
        assert KnownTeam(p, team);
        var t :| 0 <= t < |p.teams| && p.teams[t].team == team;
        assert after == before[t := before[t] + 1];
        SumBump(before, after, t);
      } else {
        assert after == before;
      }
    }
  }

  lemma {:induction false} WeekKnown(p: Problem, open: seq<OpenGame>, plan: Plan, week: int)
    requires WellFormed(p) && open <= p.open && FitsGames(open, plan)
    requires forall w :: 0 <= w < |p.weeks| ==> p.weeks[w].week != week
    ensures WeekLoad(open, plan, week) == 0
  {
    if |open| != 0 {
      assert open[..|open| - 1] <= p.open;
      WeekKnown(p, open[..|open| - 1], plan[..|open| - 1], week);
      assert KnownGame(p, p.open[|open| - 1]);
    }
  }

  lemma {:induction false} TeamKnown(p: Problem, open: seq<OpenGame>, plan: Plan, team: string)
    requires WellFormed(p) && open <= p.open && FitsGames(open, plan)
    requires !KnownTeam(p, team)
    ensures TeamLoad(open, plan, team) == 0
  {
    if |open| != 0 {
      assert open[..|open| - 1] <= p.open;
      TeamKnown(p, open[..|open| - 1], plan[..|open| - 1], team);
      assert KnownGame(p, p.open[|open| - 1]);
    }
  }

  lemma {:induction false} UnitCapacities(open: seq<OpenGame>, plan: Plan)
    requires FitsGames(open, plan)
    ensures WithinCapacity(GameArcs(open), GameFlow(open, plan))
  {
    if |open| != 0 {
      var n := |open| - 1;
      UnitCapacities(open[..n], plan[..n]);
      ChoiceCapacities(open[n].id, open[n].choices);
    }
  }

  lemma {:induction false} ChoiceCapacities(game: int, choices: seq<Choice>)
    ensures forall k :: 0 <= k < |choices| ==> ChoiceArcs(game, choices)[k].cap == 1
  {
    if |choices| != 0 {
      ChoiceCapacities(game, choices[..|choices| - 1]);
    }
  }

  lemma {:induction false} LayerCapacities(weeks: seq<WeekNeed>, teams: seq<TeamUses>)
    ensures forall w :: 0 <= w < |weeks| ==> WeekArcs(weeks)[w].cap == weeks[w].cap
    ensures forall t :: 0 <= t < |teams| ==> TeamArcs(teams)[t].cap == teams[t].cap
    decreases |weeks| + |teams|
  {
    if |weeks| != 0 {
      LayerCapacities(weeks[..|weeks| - 1], teams);
    } else if |teams| != 0 {
      LayerCapacities(weeks, teams[..|teams| - 1]);
    }
  }

  /** The flow that ships `fw` through the weeks, `ft` through the teams and a plan through the games. */
  function Layered(p: Problem, fw: seq<int>, ft: seq<int>, plan: Plan): seq<int>
    requires |plan| == |p.open|
  {
    fw + ft + GameFlow(p.open, plan)
  }

  lemma BalanceAtWeek(p: Problem, fw: seq<int>, ft: seq<int>, plan: Plan, w: nat)
    requires WellFormed(p) && |fw| == |p.weeks| && |ft| == |p.teams| && FitsGames(p.open, plan) && w < |fw|
    ensures NetOut(AllArcs(p), Layered(p, fw, ft, plan), WeekNode(p.weeks[w].week)) ==
            fw[w] - WeekLoad(p.open, plan, p.weeks[w].week)
  {
    hide NetOut, AllArcs, WeekArcs, TeamArcs, GameArcs, GameFlow, WeekLoad, TeamLoad, Sum;
    var v := WeekNode(p.weeks[w].week);
    NetOutLayers(p, fw, ft, GameFlow(p.open, plan), v);
    WeekLayer(p.weeks, fw, v);
    TeamLayer(p.teams, ft, v);
    GameLayer(p.open, plan, v);
  }

  lemma BalanceAtTeam(p: Problem, fw: seq<int>, ft: seq<int>, plan: Plan, t: nat)
    requires WellFormed(p) && |fw| == |p.weeks| && |ft| == |p.teams| && FitsGames(p.open, plan) && t < |ft|
    ensures NetOut(AllArcs(p), Layered(p, fw, ft, plan), TeamNode(p.teams[t].team)) ==
            TeamLoad(p.open, plan, p.teams[t].team) - ft[t]
  {
    hide NetOut, AllArcs, WeekArcs, TeamArcs, GameArcs, GameFlow, WeekLoad, TeamLoad, Sum;
    var v := TeamNode(p.teams[t].team);
    NetOutLayers(p, fw, ft, GameFlow(p.open, plan), v);
    WeekLayer(p.weeks, fw, v);
    TeamLayer(p.teams, ft, v);
    GameLayer(p.open, plan, v);
  }

  lemma BalanceAtSource(p: Problem, fw: seq<int>, ft: seq<int>, plan: Plan)
    requires WellFormed(p) && |fw| == |p.weeks| && |ft| == |p.teams| && FitsGames(p.open, plan)
    ensures NetOut(AllArcs(p), Layered(p, fw, ft, plan), Source) == Sum(ft)
  {
    NetOutLayers(p, fw, ft, GameFlow(p.open, plan), Source);
    WeekLayer(p.weeks, fw, Source);
    TeamLayer(p.teams, ft, Source);
    GameLayer(p.open, plan, Source);
  }

  lemma BalanceElsewhere(p: Problem, fw: seq<int>, ft: seq<int>, plan: Plan, v: Node)
    requires WellFormed(p) && |fw| == |p.weeks| && |ft| == |p.teams| && FitsGames(p.open, plan)
    requires v.GameNode?
          || (v.WeekNode? && forall w :: 0 <= w < |p.weeks| ==> p.weeks[w].week != v.week)
          || (v.TeamNode? && !KnownTeam(p, v.team))
    ensures NetOut(AllArcs(p), Layered(p, fw, ft, plan), v) == 0
  {
    NetOutLayers(p, fw, ft, GameFlow(p.open, plan), v);
    WeekLayer(p.weeks, fw, v);
    TeamLayer(p.teams, ft, v);
    GameLayer(p.open, plan, v);
    if v.WeekNode? {
      WeekKnown(p, p.open, plan, v.week);
    } else if v.TeamNode? {
      TeamKnown(p, p.open, plan, v.team);
    }
  }

  lemma PlanConserves(p: Problem, plan: Plan, v: Node)
    requires WellFormed(p) && FitsGames(p.open, plan) && v != Source && v != Sink
    ensures NetOut(AllArcs(p), FlowOf(p, plan), v) == 0
  {
    var fw, ft := WeekFlow(p.weeks, p.open, plan), TeamFlow(p.teams, p.open, plan);
    if v.WeekNode? && exists w :: 0 <= w < |p.weeks| && p.weeks[w].week == v.week {
      var w :| 0 <= w < |p.weeks| && p.weeks[w].week == v.week;
      BalanceAtWeek(p, fw, ft, plan, w);
    } else if v.TeamNode? && KnownTeam(p, v.team) {
      var t :| 0 <= t < |p.teams| && p.teams[t].team == v.team;
      BalanceAtTeam(p, fw, ft, plan, t);
    } else {
      BalanceElsewhere(p, fw, ft, plan, v);
    }
  }

  lemma PlanWithinCapacity(p: Problem, plan: Plan)
    requires WellFormed(p) && Legal(p, plan)
    ensures WithinCapacity(AllArcs(p), FlowOf(p, plan))
  {
    LayerCapacities(p.weeks, p.teams);
    UnitCapacities(p.open, plan);
  }

  /** Soundness: a legal plan is a flow of the same size. */
  lemma PlanIsFlow(p: Problem, plan: Plan)
    requires WellFormed(p) && Legal(p, plan)
    ensures IsFlow(AllArcs(p), FlowOf(p, plan), Size(plan))
  {
    PlanWithinCapacity(p, plan);
    forall v | v != Source && v != Sink
      ensures NetOut(AllArcs(p), FlowOf(p, plan), v) == 0
    {
      PlanConserves(p, plan, v);
    }
    BalanceAtSource(p, WeekFlow(p.weeks, p.open, plan), TeamFlow(p.teams, p.open, plan), plan);
    TeamLoadsAddUp(p, p.open, plan);
  }

  // ---------------------------------------------------------------- costs

  lemma {:induction false} FreeWeeks(weeks: seq<WeekNeed>, f: seq<int>)
    requires |f| == |weeks|
    ensures FlowCost(WeekArcs(weeks), f) == 0.0
  {
    if |weeks| != 0 {
      var n := |weeks| - 1;
      FreeWeeks(weeks[..n], f[..n]);
      TimesIsProduct(f[n], 0.0);
    }
  }

  lemma {:induction false} FreeTeams(teams: seq<TeamUses>, f: seq<int>)
    requires |f| == |teams|
    ensures FlowCost(TeamArcs(teams), f) == 0.0
  {
    if |teams| != 0 {
      var n := |teams| - 1;
      FreeTeams(teams[..n], f[..n]);
      TimesIsProduct(f[n], 0.0);
    }
  }

  lemma {:induction false} ChoiceCost(game: int, choices: seq<Choice>, p: Option<nat>)
    ensures FlowCost(ChoiceArcs(game, choices), ChoiceFlow(|choices|, p)) ==
            if p.Some? && p.value < |choices| then choices[p.value].cost else 0.0
  {
    if |choices| != 0 {
      var n := |choices| - 1;
      ChoiceCost(game, choices[..n], p);
      assert ChoiceFlow(|choices|, p)[..n] == ChoiceFlow(n, p);
      TimesIsProduct(1, choices[n].cost);
      TimesIsProduct(0, choices[n].cost);
    }
  }

  lemma {:induction false} GameCost(open: seq<OpenGame>, plan: Plan)
    requires FitsGames(open, plan)
    ensures FlowCost(GameArcs(open), GameFlow(open, plan)) == PlanCost(open, plan)
  {
    if |open| != 0 {
      var n := |open| - 1;
      var g, p := open[n], plan[n];
      GameCost(open[..n], plan[..n]);
      var f := BlockFlow(g, p);
      CostSplit(GameArcs(open[..n]), Block(g), GameFlow(open[..n], plan[..n]), f);
      var first := [Arc(GameNode(g.id), WeekNode(g.week), 1, 0.0)];
      CostSplit(first, ChoiceArcs(g.id, g.choices), [f[0]], ChoiceFlow(|g.choices|, p));
      assert first[..0] == [] && [f[0]][..0] == [];
      TimesIsProduct(f[0], 0.0);
      assert FlowCost(first, [f[0]]) == FlowCost(first[..0], [f[0]][..0]) + Times(f[0], 0.0);
      ChoiceCost(g.id, g.choices, p);
    }
  }

  /** A plan costs what its flow costs. */
  lemma PlanCostIsFlowCost(p: Problem, plan: Plan)
    requires FitsGames(p.open, plan)
    ensures FlowCost(AllArcs(p), FlowOf(p, plan)) == PlanCost(p.open, plan)
  {
    var fw, ft, fg := WeekFlow(p.weeks, p.open, plan), TeamFlow(p.teams, p.open, plan), GameFlow(p.open, plan);
    CostSplit(WeekArcs(p.weeks) + TeamArcs(p.teams), GameArcs(p.open), fw + ft, fg);
    CostSplit(WeekArcs(p.weeks), TeamArcs(p.teams), fw, ft);
    FreeWeeks(p.weeks, fw);
    FreeTeams(p.teams, ft);
    GameCost(p.open, plan);
  }

  // ---------------------------------------------------------------- a flow is a plan

  /** The first position carrying a unit. */
  function FirstUnit(f: seq<int>): (p: Option<nat>)
    ensures p.Some? ==> p.value < |f| && f[p.value] == 1
    ensures p.None? ==> forall j :: 0 <= j < |f| ==> f[j] != 1
  {
    if |f| == 0 then None
    else
      var p := FirstUnit(f[..|f| - 1]);
      if p.Some? then p else if f[|f| - 1] == 1 then Some(|f| - 1) else None
  }

  function Decode(open: seq<OpenGame>, f: seq<int>): (plan: Plan)
    requires |f| == |GameArcs(open)|
    ensures FitsGames(open, plan)
  {
    if |open| == 0 then []
    else
      var n := |open| - 1;
      var cut := |GameArcs(open[..n])|;
      Decode(open[..n], f[..cut]) + [FirstUnit(f[cut + 1..])]
  }

  lemma {:induction false} NonNegativeSum(f: seq<int>)
    requires forall j :: 0 <= j < |f| ==> f[j] >= 0
    ensures Sum(f) >= 0
    ensures forall j :: 0 <= j < |f| ==> f[j] <= Sum(f)
    ensures Sum(f) == 0 ==> forall j :: 0 <= j < |f| ==> f[j] == 0
  {
    if |f| != 0 {
      NonNegativeSum(f[..|f| - 1]);
    }
  }

  /** At most one unit over positions of capacity one is an optional position. */
  lemma {:induction false} UnitVector(f: seq<int>)
    requires forall j :: 0 <= j < |f| ==> 0 <= f[j] <= 1
    requires Sum(f) <= 1
    ensures f == ChoiceFlow(|f|, FirstUnit(f))
    ensures Sum(f) == if FirstUnit(f).Some? then 1 else 0
  {
    if |f| != 0 {
      var n := |f| - 1;
      NonNegativeSum(f[..n]);
      UnitVector(f[..n]);
      assert f == f[..n] + [f[n]];
    }
  }

  lemma {:induction false} UntouchedGame(open: seq<OpenGame>, f: seq<int>, id: int)
    requires |f| == |GameArcs(open)|
    requires forall g :: 0 <= g < |open| ==> open[g].id != id
    ensures NetOut(GameArcs(open), f, GameNode(id)) == 0
  {
    if |open| != 0 {
      var n := |open| - 1;
      var cut := |GameArcs(open[..n])|;
      UntouchedGame(open[..n], f[..cut], id);
      assert f == f[..cut] + f[cut..];
      NetOutSplit(GameArcs(open[..n]), Block(open[n]), f[..cut], f[cut..], GameNode(id));
      BlockLayer(open[n], f[cut..], GameNode(id));
    }
  }

  lemma BlockDecode(g: OpenGame, f: seq<int>)
    requires WithinCapacity(Block(g), f) && NetOut(Block(g), f, GameNode(g.id)) == 0
    ensures f == BlockFlow(g, FirstUnit(f[1..]))
  {
    BlockLayer(g, f, GameNode(g.id));
    ChoiceCapacities(g.id, g.choices);
    forall j | 0 <= j < |f| ensures 0 <= f[j] <= 1 {
      assert f[j] <= Block(g)[j].cap;
    }
    UnitVector(f[1..]);
    assert f == [f[0]] + f[1..];
  }

  /** Splitting off the last game keeps conservation at every game. */
  lemma GamesSplit(open: seq<OpenGame>, f0: seq<int>, f1: seq<int>)
    requires |open| > 0 && forall i, j :: 0 <= i < j < |open| ==> open[i].id != open[j].id
    requires |f0| == |GameArcs(open[..|open| - 1])| && |f1| == |Block(open[|open| - 1])|
    requires WithinCapacity(GameArcs(open), f0 + f1)
    requires forall g :: 0 <= g < |open| ==> NetOut(GameArcs(open), f0 + f1, GameNode(open[g].id)) == 0
    ensures var front, g := open[..|open| - 1], open[|open| - 1];
            && WithinCapacity(GameArcs(front), f0) && WithinCapacity(Block(g), f1)
            && (forall i :: 0 <= i < |front| ==> NetOut(GameArcs(front), f0, GameNode(front[i].id)) == 0)
            && NetOut(Block(g), f1, GameNode(g.id)) == 0
  {
    var n := |open| - 1;
    var front, g := open[..n], open[n];
    forall i | 0 <= i < n
      ensures NetOut(GameArcs(front), f0, GameNode(front[i].id)) == 0
    {
      NetOutSplit(GameArcs(front), Block(g), f0, f1, GameNode(open[i].id));
      BlockLayer(g, f1, GameNode(open[i].id));
    }
    UntouchedGame(front, f0, g.id);
    NetOutSplit(GameArcs(front), Block(g), f0, f1, GameNode(g.id));
    forall k | 0 <= k < |f0| ensures 0 <= f0[k] <= GameArcs(front)[k].cap {
      assert (f0 + f1)[k] == f0[k] && GameArcs(open)[k] == GameArcs(front)[k];
    }
    forall k | 0 <= k < |f1| ensures 0 <= f1[k] <= Block(g)[k].cap {
      assert (f0 + f1)[|f0| + k] == f1[k] && GameArcs(open)[|f0| + k] == Block(g)[k];
    }
  }

  lemma DecodeSnoc(open: seq<OpenGame>, f: seq<int>)
    requires |open| > 0 && |f| == |GameArcs(open)|
    ensures var n := |open| - 1;
            var cut := |GameArcs(open[..n])|;
            GameFlow(open, Decode(open, f)) ==
            GameFlow(open[..n], Decode(open[..n], f[..cut])) + BlockFlow(open[n], FirstUnit(f[cut..][1..]))
  {
    var n := |open| - 1;
    var cut := |GameArcs(open[..n])|;
    assert f[cut..][1..] == f[cut + 1..];
    assert Decode(open, f)[..n] == Decode(open[..n], f[..cut]);
  }

  /** Conservation at the games makes the game layer a plan. */
  lemma {:induction false} GamesDecode(open: seq<OpenGame>, f: seq<int>)
    requires forall i, j :: 0 <= i < j < |open| ==> open[i].id != open[j].id
    requires WithinCapacity(GameArcs(open), f)
    requires forall g :: 0 <= g < |open| ==> NetOut(GameArcs(open), f, GameNode(open[g].id)) == 0
    ensures f == GameFlow(open, Decode(open, f))
  {
    if |open| != 0 {
      var n := |open| - 1;
      var cut := |GameArcs(open[..n])|;
      assert f == f[..cut] + f[cut..];
      GamesSplit(open, f[..cut], f[cut..]);
      GamesDecode(open[..n], f[..cut]);
      BlockDecode(open[n], f[cut..]);
      DecodeSnoc(open, f);
    }
  }

  lemma {:induction false} GamesOfFlow(p: Problem, fw: seq<int>, ft: seq<int>, fg: seq<int>, value: int)
    requires WellFormed(p) && |fw| == |p.weeks| && |ft| == |p.teams| && |fg| == |GameArcs(p.open)|
    requires IsFlow(AllArcs(p), fw + ft + fg, value)
    ensures fg == GameFlow(p.open, Decode(p.open, fg))
  {
    hide NetOut, Decode, GameFlow, WeekArcs, TeamArcs, GameArcs;
    forall k | 0 <= k < |fg| ensures 0 <= fg[k] <= GameArcs(p.open)[k].cap {
      var b := |fw| + |ft|;
      assert AllArcs(p)[b + k] == GameArcs(p.open)[k] && (fw + ft + fg)[b + k] == fg[k];
    }
    forall g | 0 <= g < |p.open| ensures NetOut(GameArcs(p.open), fg, GameNode(p.open[g].id)) == 0 {
      var v := GameNode(p.open[g].id);
      NetOutLayers(p, fw, ft, fg, v);
      WeekLayer(p.weeks, fw, v);
      TeamLayer(p.teams, ft, v);
    }
    GamesDecode(p.open, fg);
  }

  lemma {:induction false} LayersOfFlow(p: Problem, fw: seq<int>, ft: seq<int>, plan: Plan, value: int)
    requires WellFormed(p) && |fw| == |p.weeks| && |ft| == |p.teams| && FitsGames(p.open, plan)
    requires IsFlow(AllArcs(p), Layered(p, fw, ft, plan), value)
    ensures fw == WeekFlow(p.weeks, p.open, plan) && ft == TeamFlow(p.teams, p.open, plan)
    ensures Legal(p, plan)
  {
    var f := Layered(p, fw, ft, plan);
    LayerCapacities(p.weeks, p.teams);
    forall w | 0 <= w < |fw|
      ensures fw[w] == WeekLoad(p.open, plan, p.weeks[w].week) <= p.weeks[w].cap
    {
      BalanceAtWeek(p, fw, ft, plan, w);
      assert f[w] == fw[w] && AllArcs(p)[w] == WeekArcs(p.weeks)[w];
    }
    forall t | 0 <= t < |ft|
      ensures ft[t] == TeamLoad(p.open, plan, p.teams[t].team) <= p.teams[t].cap
    {
      BalanceAtTeam(p, fw, ft, plan, t);
      assert f[|fw| + t] == ft[t] && AllArcs(p)[|fw| + t] == TeamArcs(p.teams)[t];
    }
  }

  /** The plan carried by a flow of the season network. */
  function PlanOf(p: Problem, f: seq<int>): (plan: Plan)
    requires |f| == |AllArcs(p)|
    ensures FitsGames(p.open, plan)
  {
    Decode(p.open, f[|p.weeks| + |p.teams|..])
  }

  /** Completeness: every flow of the season network is the flow of a legal plan. */
  lemma {:induction false} FlowIsPlan(p: Problem, f: seq<int>, value: int)
    requires WellFormed(p) && IsFlow(AllArcs(p), f, value)
    ensures var plan := PlanOf(p, f);
            Legal(p, plan) && f == FlowOf(p, plan) && Size(plan) == value
  {
    hide Decode, GameFlow, Legal, WeekFlow, TeamFlow, NetOut;
    var a, b := |p.weeks|, |p.weeks| + |p.teams|;
    var fw, ft, fg := f[..a], f[a..b], f[b..];
    var plan := PlanOf(p, f);
    assert f == fw + ft + fg;
    GamesOfFlow(p, fw, ft, fg, value);
    assert f == Layered(p, fw, ft, plan);
    LayersOfFlow(p, fw, ft, plan, value);
    BalanceAtSource(p, fw, ft, plan);
    TeamLoadsAddUp(p, p.open, plan);
  }
}
