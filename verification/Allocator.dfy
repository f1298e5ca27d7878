/**
  The allocator object. It carries the exposure counter from one entry to the next, builds
  the network of an entry edge by edge, fills it and reads off the picks.
*/
module Allocator {
  import opened Wrappers
  import opened Flow
  import opened Residual
  import opened SeasonNetwork
  import opened PlanFlow
  import opened PoolModel
  import opened PoolOutcomes
  import opened SeasonPlan

  /** A candidate pick and where its forward edge lies. */
  datatype Candidate = Candidate(node: Node, index: nat, item: PlanItem)

  /** A candidate names the forward edge of arc `k`. */
  ghost predicate PlacedAt(book: Ledger, c: Candidate, item: PlanItem, k: nat) {
    && k < |book.arcs| == |book.slots|
    && c == Candidate(book.arcs[k].tail, book.slots[k].out, item)
  }

  ghost predicate Placed(book: Ledger, candidates: seq<Candidate>, items: seq<PlanItem>, ks: seq<nat>) {
    && |candidates| == |items| == |ks|
    && forall c :: 0 <= c < |candidates| ==> PlacedAt(book, candidates[c], items[c], ks[c])
  }

  ghost predicate Unshipped(book: Ledger) {
    && |book.flow| == |book.arcs|
    && forall k :: 0 <= k < |book.flow| ==> book.flow[k] == 0 && book.arcs[k].cost >= 0.0
  }

  /** The plan of least cost among the largest legal plans of at most `required` picks. */
  ghost predicate BestPlan(p: Problem, plan: Plan, required: nat) {
    && Legal(p, plan)
    && Size(plan) <= required
    && (Size(plan) < required ==> forall q :: Legal(p, q) ==> Size(q) <= Size(plan))
    && (forall q :: Legal(p, q) && Size(q) == Size(plan) ==> PlanCost(p.open, plan) <= PlanCost(p.open, q))
  }

  /** A priced flow that is full or maximal decodes to the best plan. */
  lemma FlowIsBest(p: Problem, f: seq<int>, value: nat, required: nat, pi: Potential)
    requires WellFormed(p) && IsFlow(AllArcs(p), f, value) && value <= required
    requires Slack(AllArcs(p), f, pi)
    requires value < required ==> IsMaximal(AllArcs(p), value)
    ensures BestPlan(p, PlanOf(p, f), required) && Size(PlanOf(p, f)) == value
  {
    var plan := PlanOf(p, f);
    FlowIsPlan(p, f, value);
    PlanCostIsFlowCost(p, plan);
    forall q | Legal(p, q)
      ensures value < required ==> Size(q) <= value
      ensures Size(q) == value ==> PlanCost(p.open, plan) <= PlanCost(p.open, q)
    {
      PlanIsFlow(p, q);
      PlanCostIsFlowCost(p, q);
      if Size(q) == value {
        SlackFlowIsCheapest(AllArcs(p), f, FlowOf(p, q), value, pi);
      }
    }
  }

  lemma OfferCostsNothingLess(s: Setting, g: Game, team: string)
    requires ValidSetting(s)
    ensures PickCost(s, g, team) >= 0.0
  {
    TimesSign(Exposed(s.exposure, g.week, team), s.penalty);
    var p := Clamp(Survival(s.pool.rules, g, team));
    assert s.negLog(p) >= 0.0;
  }

  function AddExposure(exposure: Exposure, items: seq<PlanItem>): Exposure {
    if |items| == 0 then exposure
    else
      var n := |items| - 1;
      var before := AddExposure(exposure, items[..n]);
      before[(items[n].week, items[n].team) := Exposed(before, items[n].week, items[n].team) + 1]
  }

  /** The verdict on an entry that cannot be planned. */
  function Refusal(s: Setting, entry: Entry): PlanStatus {
    match StandingOf(s.pool, entry, s.games, 31)
    case Inactive => IsInactive
    case Eliminated => IsEliminated
    case Alive => NeedsRepair
  }

  lemma PlacedExtends(before: Ledger, after: Ledger, candidates: seq<Candidate>, items: seq<PlanItem>, ks: seq<nat>)
    requires Placed(before, candidates, items, ks) && Extends(after, before)
    ensures Placed(after, candidates, items, ks)
  {
    forall c | 0 <= c < |candidates|
      ensures PlacedAt(after, candidates[c], items[c], ks[c])
    {
      assert PlacedAt(before, candidates[c], items[c], ks[c]);
    }
  }

  /** The arcs of the weeks, then of the teams. */
  method BuildLimits(weeks: seq<WeekNeed>, teams: seq<TeamUses>) returns (net: Network)
    ensures fresh(net) && net.Valid() && Unshipped(net.book)
    ensures net.book.arcs == WeekArcs(weeks) + TeamArcs(teams)
  {
    hide Shape;
    net := new Network();
    for w := 0 to |weeks|
      invariant fresh(net) && net.Valid() && Unshipped(net.book)
      invariant net.book.arcs == WeekArcs(weeks[..w])
    {
      var index := net.AddEdge(WeekNode(weeks[w].week), Sink, weeks[w].cap, 0.0);
      assert weeks[..w + 1][..w] == weeks[..w];
    }
    assert weeks[..|weeks|] == weeks;
    for t := 0 to |teams|
      invariant fresh(net) && net.Valid() && Unshipped(net.book)
      invariant net.book.arcs == WeekArcs(weeks) + TeamArcs(teams[..t])
    {
      var index := net.AddEdge(Source, TeamNode(teams[t].team), teams[t].cap, 0.0);
      assert teams[..t + 1][..t] == teams[..t];
    }
    assert teams[..|teams|] == teams;
  }

  /** The arc of one permitted team of game `g`. */
  method AddOffer(net: Network, s: Setting, g: Game, team: string) returns (c: Candidate)
    requires net.Valid() && Unshipped(net.book) && ValidSetting(s)
    modifies net
    ensures net.Valid() && Unshipped(net.book) && Extends(net.book, old(net.book))
    ensures net.book.arcs == old(net.book.arcs) + [Arc(TeamNode(team), GameNode(g.id), 1, PickCost(s, g, team))]
    ensures PlacedAt(net.book, c, ItemOf(OpenGameOf(s, g), OfferOf(s, g, team)), |old(net.book.arcs)|)
  {
    hide Shape, PickCost;
    OfferCostsNothingLess(s, g, team);
    var index := net.AddEdge(TeamNode(team), GameNode(g.id), 1, PickCost(s, g, team));
    c := Candidate(TeamNode(team), index, PlanItem(g.week, g.id, team, Some(Survival(s.pool.rules, g, team)), false));
  }

  /** What has been inserted for the first teams of a game, `base` arcs earlier. */
  ghost predicate GameSoFar(book: Ledger, base: seq<Arc>, o: OpenGame, had: seq<Choice>, candidates: seq<Candidate>) {
    && book.arcs == base + ([Arc(GameNode(o.id), WeekNode(o.week), 1, 0.0)] + ChoiceArcs(o.id, had))
    && Placed(book, candidates, BlockItems(o, had), Offsets(|had|, |base| + 1))
  }

  lemma GameSoFarStarts(book: Ledger, base: seq<Arc>, o: OpenGame)
    requires book.arcs == base + [Arc(GameNode(o.id), WeekNode(o.week), 1, 0.0)]
    ensures GameSoFar(book, base, o, [], [])
  {
    assert [Arc(GameNode(o.id), WeekNode(o.week), 1, 0.0)] + ChoiceArcs(o.id, []) ==
           [Arc(GameNode(o.id), WeekNode(o.week), 1, 0.0)];
  }

  lemma OffersSnoc(s: Setting, g: Game, teams: seq<string>, k: nat)
    requires k < |teams|
    ensures Offers(s, g, teams[..k + 1]) ==
            if Banned(s.pool.rules, teams[k]) then Offers(s, g, teams[..k])
            else Offers(s, g, teams[..k]) + [OfferOf(s, g, teams[k])]
  {
    assert teams[..k + 1][..k] == teams[..k];
  }

  lemma GameSoFarSnoc(before: Ledger, after: Ledger, base: seq<Arc>, o: OpenGame, had: seq<Choice>, c: Choice,
                      candidates: seq<Candidate>, more: Candidate)
    requires GameSoFar(before, base, o, had, candidates) && Extends(after, before)
    requires after.arcs == before.arcs + [Arc(TeamNode(c.team), GameNode(o.id), 1, c.cost)]
    requires PlacedAt(after, more, ItemOf(o, c), |before.arcs|)
    ensures GameSoFar(after, base, o, had + [c], candidates + [more])
  {
    var now, n := had + [c], |had|;
    assert now[..n] == had;
    PlacedExtends(before, after, candidates, BlockItems(o, had), Offsets(n, |base| + 1));
    assert Placed(after, candidates + [more], BlockItems(o, now), Offsets(n + 1, |base| + 1)) by {
      forall i | 0 <= i < n + 1
        ensures PlacedAt(after, (candidates + [more])[i], BlockItems(o, now)[i], Offsets(n + 1, |base| + 1)[i])
      {
        if i < n {
          assert PlacedAt(after, candidates[i], BlockItems(o, had)[i], Offsets(n, |base| + 1)[i]);
        }
      }
    }
  }

  /** The arcs of one open game: to its week, then from each permitted team. */
  method AddGame(net: Network, s: Setting, g: Game) returns (candidates: seq<Candidate>)
    requires net.Valid() && Unshipped(net.book) && ValidSetting(s)
    modifies net
    ensures net.Valid() && Unshipped(net.book) && Extends(net.book, old(net.book))
    ensures GameSoFar(net.book, old(net.book.arcs), OpenGameOf(s, g), OpenGameOf(s, g).choices, candidates)
  {
    hide Shape, Banned, PickCost, Survival, GameSoFar, PlacedAt;
    ghost var o := OpenGameOf(s, g);
    ghost var base := net.book.arcs;
    var first := net.AddEdge(GameNode(g.id), WeekNode(g.week), 1, 0.0);
    var teams := [g.away, g.home];
    candidates := [];
    GameSoFarStarts(net.book, base, o);
    assert Offers(s, g, teams[..0]) == [];
    for k := 0 to |teams|
      invariant net.Valid() && Unshipped(net.book) && Extends(net.book, old(net.book))
      invariant GameSoFar(net.book, base, o, Offers(s, g, teams[..k]), candidates)
    {
      ghost var had := Offers(s, g, teams[..k]);
      OffersSnoc(s, g, teams, k);
      if !Banned(s.pool.rules, teams[k]) {
        ghost var before := net.book;
        var c := AddOffer(net, s, g, teams[k]);
        GameSoFarSnoc(before, net.book, base, o, had, OfferOf(s, g, teams[k]), candidates, c);
        candidates := candidates + [c];
      }
    }
    assert teams[..|teams|] == [g.away, g.home];
  }

  /** What has been inserted for the first games of the schedule. */
  ghost predicate GamesSoFar(book: Ledger, limits: seq<Arc>, open: seq<OpenGame>, candidates: seq<Candidate>) {
    && book.arcs == limits + GameArcs(open)
    && Placed(book, candidates, Candidates(open), CandidateArcs(open, |limits|))
  }

  lemma OneMoreGame(open: seq<OpenGame>, o: OpenGame, base: nat)
    ensures GameArcs(open + [o]) == GameArcs(open) + Block(o)
    ensures Candidates(open + [o]) == Candidates(open) + BlockItems(o, o.choices)
    ensures CandidateArcs(open + [o], base) ==
            CandidateArcs(open, base) + Offsets(|o.choices|, base + |GameArcs(open)| + 1)
  {
    assert (open + [o])[..|open|] == open;
  }

  lemma GamesSoFarSnoc(before: Ledger, after: Ledger, limits: seq<Arc>, open: seq<OpenGame>, o: OpenGame,
                       candidates: seq<Candidate>, more: seq<Candidate>)
    requires GamesSoFar(before, limits, open, candidates) && Extends(after, before)
    requires GameSoFar(after, before.arcs, o, o.choices, more)
    ensures GamesSoFar(after, limits, open + [o], candidates + more)
  {
    var ks := CandidateArcs(open, |limits|);
    PlacedExtends(before, after, candidates, Candidates(open), ks);
    var ls := Offsets(|o.choices|, |before.arcs| + 1);
    OneMoreGame(open, o, |limits|);
    assert after.arcs == limits + (GameArcs(open) + Block(o));
    PlacedConcat(after, candidates, more, Candidates(open), BlockItems(o, o.choices), ks, ls);
  }

  lemma PlacedConcat(book: Ledger, a: seq<Candidate>, b: seq<Candidate>, xs: seq<PlanItem>, ys: seq<PlanItem>,
                     ks: seq<nat>, ls: seq<nat>)
    requires Placed(book, a, xs, ks) && Placed(book, b, ys, ls)
    ensures Placed(book, a + b, xs + ys, ks + ls)
  {
    forall i | 0 <= i < |a + b|
      ensures PlacedAt(book, (a + b)[i], (xs + ys)[i], (ks + ls)[i])
    {
      if i < |a| {
        assert PlacedAt(book, a[i], xs[i], ks[i]);
      } else {
        assert PlacedAt(book, b[i - |a|], ys[i - |a|], ls[i - |a|]);
      }
    }
  }

  function OpenIf(s: Setting, picks: seq<Pick>, g: Game): seq<OpenGame> {
    if IsOpen(s, picks, g) then [OpenGameOf(s, g)] else []
  }

  /** One turn of the loop over the schedule: a game that is not open is passed over. */
  method VisitGame(net: Network, s: Setting, picks: seq<Pick>, g: Game, candidates0: seq<Candidate>,
                   ghost limits: seq<Arc>, ghost open: seq<OpenGame>)
    returns (candidates: seq<Candidate>)
    requires net.Valid() && Unshipped(net.book) && ValidSetting(s)
    requires GamesSoFar(net.book, limits, open, candidates0)
    modifies net
    ensures net.Valid() && Unshipped(net.book)
    ensures GamesSoFar(net.book, limits, open + OpenIf(s, picks, g), candidates)
  {
    hide Shape, IsOpen, Offers, GamesSoFar, GameSoFar;
    candidates := candidates0;
    if !IsOpen(s, picks, g) {
      assert open + OpenIf(s, picks, g) == open;
      return;
    }
    ghost var before := net.book;
    var more := AddGame(net, s, g);
    GamesSoFarSnoc(before, net.book, limits, open, OpenGameOf(s, g), candidates, more);
    candidates := candidates + more;
  }

  lemma OpenGamesNone(s: Setting, picks: seq<Pick>, games: seq<Game>)
    ensures OpenGames(s, picks, games[..0]) == []
  {
  }

  lemma OpenGamesSnoc(s: Setting, picks: seq<Pick>, games: seq<Game>, i: nat)
    requires i < |games|
    ensures OpenGames(s, picks, games[..i + 1]) == OpenGames(s, picks, games[..i]) + OpenIf(s, picks, games[i])
  {
    assert games[..i + 1][..i] == games[..i];
  }

  lemma GamesSoFarStarts(book: Ledger)
    ensures GamesSoFar(book, book.arcs, [], [])
  {
    assert book.arcs + GameArcs([]) == book.arcs;
  }

  lemma GamesSoFarEnds(book: Ledger, limits: seq<Arc>, open: seq<OpenGame>, candidates: seq<Candidate>)
    requires GamesSoFar(book, limits, open, candidates)
    ensures book.arcs == limits + GameArcs(open)
    ensures Placed(book, candidates, Candidates(open), CandidateArcs(open, |limits|))
  {
  }

  /** The whole network of an entry and its candidate picks. */
  method BuildNetwork(s: Setting, picks: seq<Pick>) returns (net: Network, candidates: seq<Candidate>)
    requires ValidSetting(s)
    ensures fresh(net) && net.Valid() && Unshipped(net.book)
    ensures var p := ProblemOf(s, picks);
            && net.book.arcs == AllArcs(p)
            && Placed(net.book, candidates, Candidates(p.open), CandidateArcs(p.open, |p.weeks| + |p.teams|))
  {
    hide Shape, OpenGames, GamesSoFar, Placed, Candidates, CandidateArcs, GameArcs, ValidSetting, Needs, TeamCaps;
    var needs := Needs(s, picks, Weeks(s.startWeek));
    var caps := TeamCaps(s, picks, TeamList(s.games), Required(needs));
    net := BuildLimits(needs, caps);
    ghost var limits := net.book.arcs;
    candidates := [];
    GamesSoFarStarts(net.book);
    OpenGamesNone(s, picks, s.games);
    for i := 0 to |s.games|
      invariant fresh(net) && net.Valid() && Unshipped(net.book)
      invariant GamesSoFar(net.book, limits, OpenGames(s, picks, s.games[..i]), candidates)
    {
      OpenGamesSnoc(s, picks, s.games, i);
      candidates := VisitGame(net, s, picks, s.games[i], candidates, limits, OpenGames(s, picks, s.games[..i]));
    }
    assert s.games[..|s.games|] == s.games;
    GamesSoFarEnds(net.book, limits, OpenGames(s, picks, s.games), candidates);
  }
}
