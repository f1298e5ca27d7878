/**
  The season allocator: it turns an entry, the schedule and the pool rules into a network,
  fills the network, and reads the picks off the saturated edges.
*/
module SeasonPlan {
  import opened Wrappers
  import opened Flow
  import opened PlanFlow
  import opened Sequences
  import opened PoolModel
  import opened PoolOutcomes

  const LAST_WEEK := 18

  datatype PlanItem = PlanItem(week: int, gameId: int, team: string, probability: Option<real>, saved: bool)

  datatype PlanStatus = IsInactive | IsEliminated | NeedsRepair | Complete | Partial

  datatype EntryPlan = EntryPlan(entryId: int, status: PlanStatus, picks: seq<PlanItem>, missingWeeks: seq<int>)

  type Exposure = map<(int, string), nat>

  function Exposed(exposure: Exposure, week: int, team: string): nat {
    if (week, team) in exposure then exposure[(week, team)] else 0
  }

  /** Everything one allocation reads. `negLog` is the negated logarithm. */
  datatype Setting = Setting(
    pool: Pool,
    games: seq<Game>,
    startWeek: int,
    penalty: real,
    now: int,
    negLog: real -> real,
    exposure: Exposure)

  ghost predicate ValidSetting(s: Setting) {
    && s.pool.poolType.Survivor?
    && s.penalty >= 0.0
    && (forall i, j :: 0 <= i < j < |s.games| ==> s.games[i].id != s.games[j].id)
    && NonNegativeLog(s.negLog)
  }

  /** Clamped probabilities never cost less than nothing. */
  ghost predicate NonNegativeLog(negLog: real -> real) {
    forall p: real :: 0.001 <= p <= 0.999 ==> negLog(p) >= 0.0
  }

  // ---------------------------------------------------------------- saved picks

  predicate IsFixed(p: Pick, startWeek: int) {
    startWeek <= p.week <= LAST_WEEK
  }

  /** Saved picks of the weeks to plan, in stored order. */
  function Fixed(picks: seq<Pick>, startWeek: int): seq<Pick> {
    Keep(picks, (p: Pick) => IsFixed(p, startWeek))
  }

  /** Saved uses of a team: earlier weeks and the weeks to plan. */
  function Used(picks: seq<Pick>, startWeek: int, team: string): nat {
    Count(picks, (p: Pick) => p.team == team && (p.week < startWeek || IsFixed(p, startWeek)))
  }

  function FixedCount(picks: seq<Pick>, startWeek: int, week: int): nat {
    Count(Fixed(picks, startWeek), (p: Pick) => p.week == week)
  }

  predicate NamesItsGame(games: seq<Game>, p: Pick) {
    var g := GameOf(games, p);
    g.Some? && Plays(g.value, p.team)
  }

  predicate OverLimit(s: Setting, picks: seq<Pick>) {
    || (exists p :: p in Fixed(picks, s.startWeek)
                    && FixedCount(picks, s.startWeek, p.week) > s.pool.rules.picksPerWeek)
    || (UseLimit(s.pool.rules).Some?
        && exists p :: p in picks && Used(picks, s.startWeek, p.team) > UseLimit(s.pool.rules).value)
  }

  /** The saved picks can be planned around. */
  predicate Plannable(s: Setting, entry: Entry) {
    && StandingOf(s.pool, entry, s.games, 31).Alive?
    && !HasUngraded(s.pool, entry, s.games, 31)
    && (forall p :: p in Fixed(entry.picks, s.startWeek) ==> NamesItsGame(s.games, p))
    && !OverLimit(s, entry.picks)
  }

  function SavedItem(p: Pick): PlanItem
    requires p.gameId.Some?
  {
    PlanItem(p.week, p.gameId.value, p.team, p.probability, true)
  }

  function SavedItems(fixed: seq<Pick>): seq<PlanItem>
    requires forall p :: p in fixed ==> p.gameId.Some?
  {
    if |fixed| == 0 then []
    else SavedItems(fixed[..|fixed| - 1]) + [SavedItem(fixed[|fixed| - 1])]
  }

  // ---------------------------------------------------------------- open games

  function Weeks(startWeek: int): seq<int> {
    if startWeek > LAST_WEEK then [] else seq(LAST_WEEK + 1 - startWeek, i => startWeek + i)
  }

  predicate WeekStarted(games: seq<Game>, week: int, now: int) {
    exists g :: g in games && g.week == week && g.kickoff <= now
  }

  /** A game that may still receive a new pick. */
  predicate IsOpen(s: Setting, picks: seq<Pick>, g: Game) {
    && g.week in Weeks(s.startWeek)
    && (forall p :: p in Fixed(picks, s.startWeek) ==> p.gameId != Some(g.id))
    && !g.completed
    && g.lockedAt.None?
    && g.kickoff > s.now
    && !(s.pool.rules.lockMode.WeekStart? && WeekStarted(s.games, g.week, s.now))
    && s.now - g.sourceTimestamp <= STALE_SECONDS
    && Supported(KindFor(s.pool.rules, g))
    && !(s.pool.rules.basis.AgainstSpread? && g.spreadHome.None?)
  }

  function Clamp(p: real): real {
    if p < 0.001 then 0.001 else if p > 0.999 then 0.999 else p
  }

  function PickCost(s: Setting, g: Game, team: string): real {
    s.negLog(Clamp(Survival(s.pool.rules, g, team))) + Times(Exposed(s.exposure, g.week, team), s.penalty)
  }

  function OfferOf(s: Setting, g: Game, team: string): Choice {
    Choice(team, Survival(s.pool.rules, g, team), PickCost(s, g, team))
  }

  function Offers(s: Setting, g: Game, teams: seq<string>): seq<Choice> {
    if |teams| == 0 then []
    else
      var n := |teams| - 1;
      Offers(s, g, teams[..n]) + (if Banned(s.pool.rules, teams[n]) then [] else [OfferOf(s, g, teams[n])])
  }

  function OpenGameOf(s: Setting, g: Game): OpenGame {
    OpenGame(g.id, g.week, Offers(s, g, [g.away, g.home]))
  }

  function OpenGames(s: Setting, picks: seq<Pick>, games: seq<Game>): seq<OpenGame> {
    if |games| == 0 then []
    else
      var n := |games| - 1;
      OpenGames(s, picks, games[..n]) + (if IsOpen(s, picks, games[n]) then [OpenGameOf(s, games[n])] else [])
  }

  /** Every team of the schedule once, by first appearance. */
  function TeamList(games: seq<Game>): (teams: seq<string>)
    ensures forall i, j :: 0 <= i < j < |teams| ==> teams[i] != teams[j]
  {
    if |games| == 0 then []
    else
      var g := games[|games| - 1];
      var front := TeamList(games[..|games| - 1]);
      var one := if g.away in front then front else front + [g.away];
      if g.home in one then one else one + [g.home]
  }

  lemma {:induction false} TeamListed(games: seq<Game>, g: Game, team: string)
    requires g in games && Plays(g, team)
    ensures team in TeamList(games)
  {
    if g != games[|games| - 1] {
      TeamListed(games[..|games| - 1], g, team);
    }
  }

  function Need(s: Setting, picks: seq<Pick>, week: int): nat {
    var have := FixedCount(picks, s.startWeek, week);
    if have > s.pool.rules.picksPerWeek then 0 else s.pool.rules.picksPerWeek - have
  }

  function Needs(s: Setting, picks: seq<Pick>, weeks: seq<int>): seq<WeekNeed> {
    seq(|weeks|, i requires 0 <= i < |weeks| => WeekNeed(weeks[i], Need(s, picks, weeks[i])))
  }

  function Required(needs: seq<WeekNeed>): nat {
    if |needs| == 0 then 0 else Required(needs[..|needs| - 1]) + needs[|needs| - 1].cap
  }

  function UsesLeft(s: Setting, picks: seq<Pick>, team: string, required: nat): nat {
    var limit := UseLimit(s.pool.rules);
    if limit.None? then required
    else if Used(picks, s.startWeek, team) > limit.value then 0
    else limit.value - Used(picks, s.startWeek, team)
  }

  function TeamCaps(s: Setting, picks: seq<Pick>, teams: seq<string>, required: nat): seq<TeamUses> {
    seq(|teams|, i requires 0 <= i < |teams| => TeamUses(teams[i], UsesLeft(s, picks, teams[i], required)))
  }

  /** The allocation problem the network encodes. */
  function ProblemOf(s: Setting, picks: seq<Pick>): Problem {
    var needs := Needs(s, picks, Weeks(s.startWeek));
    Problem(needs,
            TeamCaps(s, picks, TeamList(s.games), Required(needs)),
            OpenGames(s, picks, s.games))
  }

  // ---------------------------------------------------------------- well-formedness

  lemma {:induction false} OfferTeams(s: Setting, g: Game, teams: seq<string>)
    ensures forall c :: c in Offers(s, g, teams) ==>
              c.team in teams && !Banned(s.pool.rules, c.team) && c == OfferOf(s, g, c.team)
  {
    if |teams| != 0 {
      OfferTeams(s, g, teams[..|teams| - 1]);
    }
  }

  /** The scheduled game behind an open game. */
  lemma {:induction false} OpenGameOrigin(s: Setting, picks: seq<Pick>, games: seq<Game>, i: nat)
    returns (g: Game)
    requires i < |OpenGames(s, picks, games)|
    ensures g in games && IsOpen(s, picks, g) && OpenGames(s, picks, games)[i] == OpenGameOf(s, g)
  {
    var n := |games| - 1;
    if i < |OpenGames(s, picks, games[..n])| {
      g := OpenGameOrigin(s, picks, games[..n], i);
    } else {
      g := games[n];
    }
  }

  lemma {:induction false} OpenGamesDistinct(s: Setting, picks: seq<Pick>, games: seq<Game>, i: nat, j: nat)
    requires forall a, b :: 0 <= a < b < |games| ==> games[a].id != games[b].id
    requires i < j < |OpenGames(s, picks, games)|
    ensures OpenGames(s, picks, games)[i].id != OpenGames(s, picks, games)[j].id
  {
    var n := |games| - 1;
    var front := OpenGames(s, picks, games[..n]);
    if j < |front| {
      OpenGamesDistinct(s, picks, games[..n], i, j);
    } else {
      var g := OpenGameOrigin(s, picks, games[..n], i);
    }
  }

  lemma OpenGameIsKnown(s: Setting, picks: seq<Pick>, i: nat)
    requires i < |OpenGames(s, picks, s.games)|
    ensures KnownGame(ProblemOf(s, picks), OpenGames(s, picks, s.games)[i])
  {
    var p := ProblemOf(s, picks);
    var g := OpenGameOrigin(s, picks, s.games, i);
    var w :| 0 <= w < |Weeks(s.startWeek)| && Weeks(s.startWeek)[w] == g.week;
    assert p.weeks[w].week == g.week;
    OfferTeams(s, g, [g.away, g.home]);
    forall j | 0 <= j < |p.open[i].choices|
      ensures KnownTeam(p, p.open[i].choices[j].team)
    {
      assert p.open[i].choices[j] in Offers(s, g, [g.away, g.home]);
      TeamIsKnown(s, picks, g, p.open[i].choices[j].team);
    }
  }

  lemma TeamIsKnown(s: Setting, picks: seq<Pick>, g: Game, team: string)
    requires g in s.games && Plays(g, team)
    ensures KnownTeam(ProblemOf(s, picks), team)
  {
    TeamListed(s.games, g, team);
    var t :| 0 <= t < |TeamList(s.games)| && TeamList(s.games)[t] == team;
    assert ProblemOf(s, picks).teams[t].team == team;
  }

  lemma ProblemIsWellFormed(s: Setting, picks: seq<Pick>)
    requires ValidSetting(s)
    ensures WellFormed(ProblemOf(s, picks))
  {
    var p := ProblemOf(s, picks);
    forall i | 0 <= i < |p.open| ensures KnownGame(p, p.open[i]) {
      OpenGameIsKnown(s, picks, i);
    }
    forall i, j | 0 <= i < j < |p.open| ensures p.open[i].id != p.open[j].id {
      OpenGamesDistinct(s, picks, s.games, i, j);
    }
  }

  // ---------------------------------------------------------------- reading the plan

  /** The new picks of a plan, in the order of the open games. */
  function NewItems(open: seq<OpenGame>, plan: Plan): seq<PlanItem>
    requires FitsGames(open, plan)
  {
    if |open| == 0 then []
    else
      var n := |open| - 1;
      NewItems(open[..n], plan[..n])
      + (if plan[n].Some? then [ItemOf(open[n], open[n].choices[plan[n].value])] else [])
  }

  function ItemOf(g: OpenGame, c: Choice): PlanItem {
    PlanItem(g.week, g.id, c.team, Some(c.survival), false)
  }

  function BlockItems(g: OpenGame, choices: seq<Choice>): (items: seq<PlanItem>)
    ensures |items| == |choices|
  {
    seq(|choices|, j requires 0 <= j < |choices| => ItemOf(g, choices[j]))
  }

  /** All candidate picks, in insertion order, and the position of each one's arc when `base` arcs come first. */
  function Candidates(open: seq<OpenGame>): seq<PlanItem> {
    if |open| == 0 then []
    else Candidates(open[..|open| - 1]) + BlockItems(open[|open| - 1], open[|open| - 1].choices)
  }

  function Offsets(n: nat, start: nat): (ks: seq<nat>)
    ensures |ks| == n && forall j :: 0 <= j < n ==> ks[j] == start + j
  {
    seq(n, j requires 0 <= j => start + j)
  }

  function CandidateArcs(open: seq<OpenGame>, base: nat): (ks: seq<nat>)
    ensures |ks| == |Candidates(open)|
    ensures forall c :: 0 <= c < |ks| ==> base <= ks[c] < base + |GameArcs(open)|
  {
    if |open| == 0 then []
    else
      var n := |open| - 1;
      CandidateArcs(open[..n], base) + Offsets(|open[n].choices|, base + |GameArcs(open[..n])| + 1)
  }

  /** The items whose arc carries a unit. */
  function Picked(items: seq<PlanItem>, units: seq<int>): seq<PlanItem>
    requires |items| == |units|
  {
    if |items| == 0 then []
    else
      var n := |items| - 1;
      Picked(items[..n], units[..n]) + (if units[n] == 1 then [items[n]] else [])
  }

  lemma {:induction false} PickedConcat(a: seq<PlanItem>, b: seq<PlanItem>, f: seq<int>, g: seq<int>)
    requires |a| == |f| && |b| == |g|
    ensures Picked(a + b, f + g) == Picked(a, f) + Picked(b, g)
  {
    if |b| == 0 {
      assert a + b == a && f + g == f;
    } else {
      var n := |b| - 1;
      PickedConcat(a, b[..n], f, g[..n]);
      assert (a + b)[..|a + b| - 1] == a + b[..n];
      assert (f + g)[..|a + b| - 1] == f + g[..n];
    }
  }

  lemma {:induction false} PickedUnit(items: seq<PlanItem>, p: Option<nat>)
    ensures Picked(items, ChoiceFlow(|items|, p)) ==
            if p.Some? && p.value < |items| then [items[p.value]] else []
  {
    if |items| != 0 {
      var n := |items| - 1;
      PickedUnit(items[..n], p);
      assert ChoiceFlow(|items|, p)[..n] == ChoiceFlow(n, p);
    }
  }

  lemma PickedBlock(g: OpenGame, choices: seq<Choice>, p: Option<nat>)
    ensures Picked(BlockItems(g, choices), ChoiceFlow(|choices|, p)) ==
            if p.Some? && p.value < |choices| then [ItemOf(g, choices[p.value])] else []
  {
    PickedUnit(BlockItems(g, choices), p);
  }

  /** `units` are the entries of `f` at the positions `ks`. */
  ghost predicate Reads(f: seq<int>, ks: seq<nat>, units: seq<int>) {
    && |units| == |ks|
    && forall c :: 0 <= c < |ks| ==> ks[c] < |f| && units[c] == f[ks[c]]
  }

  lemma ReadsSplit(f: seq<int>, ks: seq<nat>, ls: seq<nat>, units: seq<int>)
    requires Reads(f, ks + ls, units)
    ensures Reads(f, ks, units[..|ks|]) && Reads(f, ls, units[|ks|..])
  {
    forall c | 0 <= c < |ks| ensures ks[c] < |f| && units[..|ks|][c] == f[ks[c]] {
      assert (ks + ls)[c] == ks[c];
    }
    forall c | 0 <= c < |ls| ensures ls[c] < |f| && units[|ks|..][c] == f[ls[c]] {
      assert (ks + ls)[|ks| + c] == ls[c];
    }
  }

  lemma ReadsOffsets(f: seq<int>, n: nat, start: nat, units: seq<int>)
    requires Reads(f, Offsets(n, start), units) && start + n <= |f|
    ensures units == f[start..start + n]
  {
    forall j | 0 <= j < n ensures units[j] == f[start + j] {
      assert Offsets(n, start)[j] == start + j;
    }
  }

  lemma FlowSplit(open: seq<OpenGame>, plan: Plan, base: nat, f: seq<int>)
    requires |open| > 0 && FitsGames(open, plan) && |f| >= base + |GameArcs(open)|
    requires f[base..base + |GameArcs(open)|] == GameFlow(open, plan)
    ensures var n := |open| - 1;
            var start := base + |GameArcs(open[..n])|;
            && |f| >= start + 1 + |open[n].choices|
            && f[base..start] == GameFlow(open[..n], plan[..n])
            && f[start + 1..start + 1 + |open[n].choices|] == ChoiceFlow(|open[n].choices|, plan[n])
  {
    var n := |open| - 1;
    var a, b := GameFlow(open[..n], plan[..n]), BlockFlow(open[n], plan[n]);
    var start := base + |a|;
    var g := f[base..base + |GameArcs(open)|];
    assert g == a + b;
    assert f[base..start] == g[..|a|];
    assert f[start + 1..start + 1 + |open[n].choices|] == g[|a|..][1..];
    assert b[1..] == ChoiceFlow(|open[n].choices|, plan[n]);
  }

  lemma {:induction false} CandidateArcsSnoc(open: seq<OpenGame>, base: nat)
    requires |open| > 0
    ensures var n := |open| - 1;
            CandidateArcs(open, base)
            == CandidateArcs(open[..n], base) + Offsets(|open[n].choices|, base + |GameArcs(open[..n])| + 1)
  {
    hide GameArcs, Offsets, Candidates;
  }

  lemma ReadsLength(f: seq<int>, ks: seq<nat>, units: seq<int>)
    requires Reads(f, ks, units)
    ensures |units| == |ks|
  {
  }

  lemma {:induction false} UnitsOfLastGame(open: seq<OpenGame>, plan: Plan, base: nat, f: seq<int>, units: seq<int>)
    requires |open| > 0 && FitsGames(open, plan) && Reads(f, CandidateArcs(open, base), units)
    requires |f| >= base + |GameArcs(open)| && f[base..base + |GameArcs(open)|] == GameFlow(open, plan)
    ensures var n := |open| - 1;
            var m := |Candidates(open[..n])|;
            && m <= |units|
            && Reads(f, CandidateArcs(open[..n], base), units[..m])
            && units[m..] == ChoiceFlow(|open[n].choices|, plan[n])
  {
    hide GameArcs, GameFlow, ChoiceFlow, FitsGames, CandidateArcs, Candidates, Reads, Offsets;
    var n := |open| - 1;
    var front, choices := open[..n], open[n].choices;
    var start := base + |GameArcs(front)|;
    CandidateArcsSnoc(open, base);
    ReadsLength(f, CandidateArcs(open, base), units);
    var ks, ls := CandidateArcs(front, base), Offsets(|choices|, start + 1);
    FlowSplit(open, plan, base, f);
    ReadsSplit(f, ks, ls, units);
    ReadsOffsets(f, |choices|, start + 1, units[|ks|..]);
  }

  /** Filtering the candidates by their units gives exactly the new picks of the plan. */
  lemma {:induction false} PickedIsPlan(open: seq<OpenGame>, plan: Plan, base: nat, f: seq<int>, units: seq<int>)
    requires FitsGames(open, plan) && Reads(f, CandidateArcs(open, base), units)
    requires |f| >= base + |GameArcs(open)| && f[base..base + |GameArcs(open)|] == GameFlow(open, plan)
    ensures Picked(Candidates(open), units) == NewItems(open, plan)
  {
    if |open| != 0 {
      hide GameArcs, GameFlow, CandidateArcs, ChoiceFlow, Reads, Picked, BlockItems;
      var n := |open| - 1;
      ReadsLength(f, CandidateArcs(open, base), units);
      var m, items := |Candidates(open[..n])|, BlockItems(open[n], open[n].choices);
      UnitsOfLastGame(open, plan, base, f, units);
      FlowSplit(open, plan, base, f);
      PickedIsPlan(open[..n], plan[..n], base, f, units[..m]);
      assert units == units[..m] + units[m..];
      PickedConcat(Candidates(open[..n]), items, units[..m], units[m..]);
      PickedBlock(open[n], open[n].choices, plan[n]);
    }
  }
}
