/**
  What a season plan picks, read off the games, the rules and the saved picks: every new pick is on a game that is
  still on offer, with the chance of its team, and an opponent with uses left would not have been better.
*/
module PlanChances {
  import opened Wrappers
  import opened Flow
  import opened PlanFlow
  import opened Sequences
  import opened PoolModel
  import opened SeasonPlan
  import opened Allocator
  import opened PlanLaws
  import opened Planner
  import opened ChanceLaws
  import opened GradeLaws
  import opened PoolOutcomes

  // ---------------------------------------------------------------- what is on offer

  /** The game may still receive a pick. */
  ghost predicate OnOffer(s: Setting, picks: seq<Pick>, g: Game) {
    && s.startWeek <= g.week <= 18
    && !g.completed && g.lockedAt.None? && s.now < g.kickoff
    && (s.pool.rules.lockMode == WeekStart ==> forall h :: h in s.games && h.week == g.week ==> s.now < h.kickoff)
    && s.now - g.sourceTimestamp <= 4 * 24 * 3600
    && OnEvidence(s.pool.rules, g)
    && (s.pool.rules.basis == AgainstSpread ==> g.spreadHome.Some?)
    && (forall p :: p in picks && s.startWeek <= p.week <= 18 ==> p.gameId != Some(g.id))
  }

  lemma WeekListed(startWeek: int, week: int)
    ensures week in Weeks(startWeek) <==> startWeek <= week <= 18
  {
    if startWeek <= week <= 18 {
      assert Weeks(startWeek)[week - startWeek] == week;
    }
  }

  lemma FixedAre(picks: seq<Pick>, startWeek: int, p: Pick)
    ensures p in Fixed(picks, startWeek) <==> p in picks && startWeek <= p.week <= 18
  {
  }

  lemma OpenIsOnOffer(s: Setting, picks: seq<Pick>, g: Game)
    ensures IsOpen(s, picks, g) <==> OnOffer(s, picks, g)
  {
    hide Weeks, Fixed, KindFor, Supported, OnEvidence;
    WeekListed(s.startWeek, g.week);
    forall p: Pick ensures p in Fixed(picks, s.startWeek) <==> p in picks && s.startWeek <= p.week <= 18 {
      FixedAre(picks, s.startWeek, p);
    }
    KindIsEvidence(s.pool.rules, g);
  }

  // ---------------------------------------------------------------- the items of a plan

  /** The item is for a permitted team of a game on offer, in the week of the game and with the chance of the team. */
  ghost predicate ItemIsFor(s: Setting, picks: seq<Pick>, x: PlanItem, g: Game) {
    && g in s.games && OnOffer(s, picks, g) && x.gameId == g.id && x.week == g.week
    && (x.team == g.away || x.team == g.home) && Permitted(s.pool.rules, x.team)
    && x.probability.Some? && HasChance(s.pool.rules, g, x.team, x.probability.value)
  }

  /** Every pick that was not saved before is such an item. */
  lemma NewItemIsOnOffer(s: Setting, entry: Entry, result: EntryPlan, i: nat) returns (g: Game)
    requires ValidSetting(s) && Plannable(s, entry) && IsPlanned(s, entry, result)
    requires i < |result.picks| && !result.picks[i].saved
    ensures ItemIsFor(s, entry.picks, result.picks[i], g)
  {
    hide ValidSetting, Plannable, IsPlanned, IsOpen, OnOffer, Survival, HasChance, Banned, Permitted;
    PlannedCardObeysTheRules(s, entry, result);
    var x := result.picks[i];
    assert FromOpenGame(s, entry.picks, x);
    g :| && g in s.games && IsOpen(s, entry.picks, g)
         && x.gameId == g.id && x.week == g.week && Plays(g, x.team) && !Banned(s.pool.rules, x.team)
         && x.probability == Some(Survival(s.pool.rules, g, x.team));
    OpenIsOnOffer(s, entry.picks, g);
    SurvivalIsChance(s.pool.rules, g, x.team);
    PermittedIsNotBanned(s.pool.rules, x.team);
  }

  // ---------------------------------------------------------------- taking the other team

  /** One pick of the plan goes to another choice of its game. */
  lemma {:induction false} OtherChoice(open: seq<OpenGame>, plan: Plan, k: nat, j: nat, week: int, team: string)
    requires FitsGames(open, plan) && k < |open| && plan[k].Some? && j < |open[k].choices|
    ensures
      var was, now := open[k].choices[plan[k].value], open[k].choices[j];
      var other := plan[k := Some(j)];
      && FitsGames(open, other) && Size(other) == Size(plan) && WeekLoad(open, other, week) == WeekLoad(open, plan, week)
      && TeamLoad(open, other, team) == TeamLoad(open, plan, team) - (if was.team == team then 1 else 0)
                                        + (if now.team == team then 1 else 0)
      && PlanCost(open, other) == PlanCost(open, plan) - was.cost + now.cost
  {
    var n := |open| - 1;
    var other := plan[k := Some(j)];
    if k < n {
      OtherChoice(open[..n], plan[..n], k, j, week, team);
      assert other[..n] == plan[..n][k := Some(j)];
    } else {
      assert other[..n] == plan[..n];
    }
  }

  /** The other team has a use left: it is still allowed to have one pick more. */
  ghost predicate UseIsLeft(s: Setting, picks: seq<Pick>, plan: Plan, team: string)
    requires FitsGames(OpenGames(s, picks, s.games), plan)
  {
    UseLimit(s.pool.rules).Some? ==>
      Used(picks, s.startWeek, team) + TeamLoad(OpenGames(s, picks, s.games), plan, team) < UseLimit(s.pool.rules).value
  }

  lemma OtherIsAllowed(s: Setting, picks: seq<Pick>, plan: Plan, k: nat, j: nat)
    requires RulesAllow(s, picks, plan)
    requires var open := OpenGames(s, picks, s.games); k < |open| && plan[k].Some? && j < |open[k].choices|
    requires UseIsLeft(s, picks, plan, OpenGames(s, picks, s.games)[k].choices[j].team)
    ensures RulesAllow(s, picks, plan[k := Some(j)])
  {
    hide TeamLoad, WeekLoad, Used, OpenGames, FixedCount, UseLimit, Weeks, TeamList;
    var open, other := OpenGames(s, picks, s.games), plan[k := Some(j)];
    OtherChoice(open, plan, k, j, 0, "");
    forall w | w in Weeks(s.startWeek)
      ensures FixedCount(picks, s.startWeek, w) + WeekLoad(open, other, w) <= s.pool.rules.picksPerWeek
    {
      OtherChoice(open, plan, k, j, w, "");
    }
    if UseLimit(s.pool.rules).Some? {
      forall t | t in TeamList(s.games)
        ensures Used(picks, s.startWeek, t) + TeamLoad(open, other, t) <= UseLimit(s.pool.rules).value
      {
        OtherChoice(open, plan, k, j, 0, t);
      }
    }
  }

  /** In a best plan no other choice of a game that is allowed costs less. */
  lemma OtherCostsNoLess(s: Setting, entry: Entry, plan: Plan, k: nat, j: nat)
    requires ValidSetting(s) && Plannable(s, entry)
    requires var p := ProblemOf(s, entry.picks); BestPlan(p, plan, Required(p.weeks))
    requires
      var open := OpenGames(s, entry.picks, s.games);
      |plan| == |open| && k < |open| && plan[k].Some? && j < |open[k].choices|
    requires FitsGames(OpenGames(s, entry.picks, s.games), plan)
    requires UseIsLeft(s, entry.picks, plan, OpenGames(s, entry.picks, s.games)[k].choices[j].team)
    ensures var g := OpenGames(s, entry.picks, s.games)[k]; g.choices[plan[k].value].cost <= g.choices[j].cost
  {
    hide RulesAllow, Plannable, OpenGames, Required, PlanCost, UseIsLeft, ValidSetting;
    var open := OpenGames(s, entry.picks, s.games);
    LegalIffAllowed(s, entry, plan);
    OtherIsAllowed(s, entry.picks, plan, k, j);
    LegalIffAllowed(s, entry, plan[k := Some(j)]);
    OtherChoice(open, plan, k, j, 0, "");
  }

  // ---------------------------------------------------------------- in the words of the card

  /** Kept between one and 999 in a thousand. */
  ghost predicate IsClamped(p: real, q: real) {
    && 0.001 <= q <= 0.999
    && (0.001 <= p <= 0.999 ==> q == p) && (p < 0.001 ==> q == 0.001) && (p > 0.999 ==> q == 0.999)
  }

  lemma ClampIsClamped(p: real, q: real)
    ensures IsClamped(p, q) <==> q == Clamp(p)
  {
  }

  /** How often the limit counts a team: picks of earlier weeks, and the card. */
  ghost function UsesOnCard(s: Setting, picks: seq<Pick>, card: seq<PlanItem>, team: string): nat {
    Count(picks, (p: Pick) => p.team == team && p.week < s.startWeek) + Count(card, (x: PlanItem) => x.team == team)
  }

  /** No limit, which zero means too, or a use that is left. */
  ghost predicate HasUseLeft(s: Setting, picks: seq<Pick>, card: seq<PlanItem>, team: string) {
    var limit := s.pool.rules.maxTeamUses;
    limit.Some? && limit.value > 0 ==> UsesOnCard(s, picks, card, team) < limit.value
  }

  lemma UsesOfPlan(s: Setting, picks: seq<Pick>, plan: Plan, team: string)
    requires FitsGames(OpenGames(s, picks, s.games), plan)
    requires forall p :: p in Fixed(picks, s.startWeek) ==> NamesItsGame(s.games, p)
    ensures UsesOnCard(s, picks, Card(s, picks, plan), team)
            == Used(picks, s.startWeek, team) + TeamLoad(OpenGames(s, picks, s.games), plan, team)
    ensures HasUseLeft(s, picks, Card(s, picks, plan), team) <==> UseIsLeft(s, picks, plan, team)
  {
    hide OpenGames, TeamLoad, Count, Used, Fixed;
    var fixed, open := Fixed(picks, s.startWeek), OpenGames(s, picks, s.games);
    assert forall p :: p in fixed ==> NamesItsGame(s.games, p) && p.gameId.Some?;
    CountConcat(SavedItems(fixed), NewItems(open, plan), OnTeam(team));
    SavedCounts(fixed, 0, team);
    NewCounts(open, plan, 0, team);
    UsedSplits(picks, s.startWeek, team);
    CountSame(Card(s, picks, plan), OnTeam(team), (x: PlanItem) => x.team == team);
  }

  /** What a pick costs: the chance of its team, clamped, and the penalty for each pick of the team that week so far. */
  ghost predicate Costs(s: Setting, g: Game, team: string, cost: real) {
    exists p, q :: HasChance(s.pool.rules, g, team, p) && IsClamped(p, q)
      && cost == s.negLog(q) + Times(Exposed(s.exposure, g.week, team), s.penalty)
  }

  lemma OfferCosts(s: Setting, g: Game, team: string)
    ensures Costs(s, g, team, PickCost(s, g, team))
    ensures forall c, d :: Costs(s, g, team, c) && Costs(s, g, team, d) ==> c == d
  {
    hide Times, Survival;
    SurvivalIsChance(s.pool.rules, g, team);
    ClampIsClamped(Survival(s.pool.rules, g, team), Clamp(Survival(s.pool.rules, g, team)));
  }

  // ---------------------------------------------------------------- no better opponent

  /** An unsaved item of the card is a choice of the plan. */
  lemma UnsavedChoice(s: Setting, picks: seq<Pick>, plan: Plan, i: nat) returns (k: nat)
    requires FitsGames(OpenGames(s, picks, s.games), plan)
    requires forall p :: p in Fixed(picks, s.startWeek) ==> NamesItsGame(s.games, p)
    requires i < |Card(s, picks, plan)| && !Card(s, picks, plan)[i].saved
    ensures k < |OpenGames(s, picks, s.games)| && plan[k].Some?
    ensures var g := OpenGames(s, picks, s.games)[k]; Card(s, picks, plan)[i] == ItemOf(g, g.choices[plan[k].value])
  {
    hide IsOpen, NamesItsGame, OpenGames, Fixed;
    CardAt(s, picks, plan, i);
    var fixed := Fixed(picks, s.startWeek);
    assert forall p :: p in fixed ==> NamesItsGame(s.games, p);
    NamedGames(s, fixed);
    if i < |fixed| {
      SavedAt(fixed, i);
    }
    k := NewPickIndex(OpenGames(s, picks, s.games), plan, i - |fixed|);
  }

  lemma {:induction false} OfferIndex(s: Setting, g: Game, teams: seq<string>, team: string) returns (j: nat)
    requires team in teams && !Banned(s.pool.rules, team)
    ensures j < |Offers(s, g, teams)| && Offers(s, g, teams)[j] == OfferOf(s, g, team)
  {
    var n := |teams| - 1;
    if teams[n] == team {
      j := |Offers(s, g, teams)| - 1;
    } else {
      j := OfferIndex(s, g, teams[..n], team);
    }
  }

  lemma GameOfChoice(s: Setting, picks: seq<Pick>, k: nat, g: Game)
    requires ValidSetting(s) && k < |OpenGames(s, picks, s.games)|
    requires g in s.games && OpenGames(s, picks, s.games)[k].id == g.id
    ensures OpenGames(s, picks, s.games)[k] == OpenGameOf(s, g)
  {
    hide IsOpen, Offers;
    var h := OpenGameOrigin(s, picks, s.games, k);
    var a :| 0 <= a < |s.games| && s.games[a] == g;
    var b :| 0 <= b < |s.games| && s.games[b] == h;
  }

  /** In a best plan the team picked in a game costs no more than a permitted opponent with a use left. */
  lemma ChosenCostsLeast(s: Setting, entry: Entry, plan: Plan, k: nat, g: Game, team: string)
    requires ValidSetting(s) && Plannable(s, entry)
    requires var p := ProblemOf(s, entry.picks); BestPlan(p, plan, Required(p.weeks))
    requires FitsGames(OpenGames(s, entry.picks, s.games), plan) && k < |plan| && plan[k].Some?
    requires g in s.games && OpenGames(s, entry.picks, s.games)[k].id == g.id
    requires (team == g.away || team == g.home) && !Banned(s.pool.rules, team) && UseIsLeft(s, entry.picks, plan, team)
    ensures OpenGames(s, entry.picks, s.games)[k].choices[plan[k].value].cost <= PickCost(s, g, team)
  {
    hide ValidSetting, Plannable, ProblemOf, Required, BestPlan, UseIsLeft, Offers, Banned, PickCost, OpenGames, Survival;
    GameOfChoice(s, entry.picks, k, g);
    var j := OfferIndex(s, g, [g.away, g.home], team);
    OtherCostsNoLess(s, entry, plan, k, j);
  }

  lemma ChoiceCost(s: Setting, g: Game, j: nat)
    requires j < |OpenGameOf(s, g).choices|
    ensures var c := OpenGameOf(s, g).choices[j]; c.cost == PickCost(s, g, c.team)
  {
    hide Survival, PickCost, Banned;
    OfferTeams(s, g, [g.away, g.home]);
    assert OpenGameOf(s, g).choices[j] in Offers(s, g, [g.away, g.home]);
  }

  /**
    A permitted opponent with a use left would not have cost less: cost is the chance of the team, clamped, under the
    logarithm, and the penalty for the picks that plans before this one made of the team in that week.
  */
  lemma OpponentCostsNoLess(s: Setting, entry: Entry, result: EntryPlan, i: nat, g: Game, team: string, cost: real, other: real)
    requires ValidSetting(s) && Plannable(s, entry) && IsPlanned(s, entry, result)
    requires i < |result.picks| && !result.picks[i].saved && ItemIsFor(s, entry.picks, result.picks[i], g)
    requires (team == g.away || team == g.home) && Permitted(s.pool.rules, team)
    requires HasUseLeft(s, entry.picks, result.picks, team)
    requires Costs(s, g, result.picks[i].team, cost) && Costs(s, g, team, other)
    ensures cost <= other
  {
    hide ValidSetting, Plannable, ProblemOf, Required, BestPlan, UseIsLeft, HasUseLeft, Costs, PickCost, OpenGames, OnOffer,
         HasChance, Permitted, Banned, Card, Legal, Fixed, NamesItsGame, Weeks, Missing, Size;
    var plan: Plan :| Planned(s, entry, result, plan);
    var p := ProblemOf(s, entry.picks);
    BestIsLegal(p, plan, Required(p.weeks));
    LegalFits(s, entry.picks, plan);
    PlannableNames(s, entry);
    var k := UnsavedChoice(s, entry.picks, plan, i);
    UsesOfPlan(s, entry.picks, plan, team);
    PermittedIsNotBanned(s.pool.rules, team);
    ChosenCostsLeast(s, entry, plan, k, g, team);
    GameOfChoice(s, entry.picks, k, g);
    ChoiceCost(s, g, plan[k].value);
    OfferCosts(s, g, result.picks[i].team);
    OfferCosts(s, g, team);
  }

  /** Without a penalty: the opponent's clamped chance is no better. */
  lemma OpponentIsNoLikelier(s: Setting, entry: Entry, result: EntryPlan, i: nat, g: Game, team: string,
                             p: real, p': real, q: real, q': real)
    requires ValidSetting(s) && Plannable(s, entry) && IsPlanned(s, entry, result)
    requires s.penalty == 0.0 && forall x, y :: ReversesOrder(s.negLog, x, y)
    requires i < |result.picks| && !result.picks[i].saved && ItemIsFor(s, entry.picks, result.picks[i], g)
    requires (team == g.away || team == g.home) && Permitted(s.pool.rules, team)
    requires HasUseLeft(s, entry.picks, result.picks, team)
    requires HasChance(s.pool.rules, g, result.picks[i].team, p) && IsClamped(p, p')
    requires HasChance(s.pool.rules, g, team, q) && IsClamped(q, q')
    ensures p' >= q'
  {
    hide ValidSetting, Plannable, IsPlanned, HasUseLeft, ItemIsFor, HasChance, Permitted, Times;
    var x := result.picks[i];
    TimesIsProduct(Exposed(s.exposure, g.week, x.team), s.penalty);
    TimesIsProduct(Exposed(s.exposure, g.week, team), s.penalty);
    assert Costs(s, g, x.team, s.negLog(p'));
    assert Costs(s, g, team, s.negLog(q'));
    OpponentCostsNoLess(s, entry, result, i, g, team, s.negLog(p'), s.negLog(q'));
    assert ReversesOrder(s.negLog, p', q');
  }

  // ---------------------------------------------------------------- what the penalty counts

  /** How often the plans pick a team in a week. */
  ghost function TimesPicked(plans: seq<EntryPlan>, week: int, team: string): nat {
    if |plans| == 0 then 0
    else
      TimesPicked(plans[..|plans| - 1], week, team)
      + Count(plans[|plans| - 1].picks, (x: PlanItem) => x.week == week && x.team == team)
  }

  lemma {:induction false} ExposureAdds(exposure: Exposure, items: seq<PlanItem>, week: int, team: string)
    ensures Exposed(AddExposure(exposure, items), week, team)
            == Exposed(exposure, week, team) + Count(items, (x: PlanItem) => x.week == week && x.team == team)
  {
    if |items| > 0 {
      ExposureAdds(exposure, items[..|items| - 1], week, team);
    }
  }

  /** The exposure that a plan pays for counts the picks of all plans before it, saved ones included. */
  lemma {:induction false} ExposureCounts(plans: seq<EntryPlan>, week: int, team: string)
    ensures Exposed(ExposureAfter(plans), week, team) == TimesPicked(plans, week, team)
  {
    if |plans| > 0 {
      var n := |plans| - 1;
      ExposureCounts(plans[..n], week, team);
      ExposureAdds(ExposureAfter(plans[..n]), plans[n].picks, week, team);
    }
  }

  // ---------------------------------------------------------------- the saved part of the card

  /** The card begins with the saved picks of the weeks to plan, in stored order, as they were saved. */
  lemma SavedPartOfCard(s: Setting, entry: Entry, result: EntryPlan, i: nat)
    requires ValidSetting(s) && Plannable(s, entry) && IsPlanned(s, entry, result)
    requires i < Count(entry.picks, (p: Pick) => s.startWeek <= p.week <= 18)
    ensures i < |result.picks|
    ensures
      var saved := Keep(entry.picks, (p: Pick) => s.startWeek <= p.week <= 18);
      && result.picks[i].saved && result.picks[i].week == saved[i].week && Some(result.picks[i].gameId) == saved[i].gameId
      && result.picks[i].team == saved[i].team && result.picks[i].probability == saved[i].probability
  {
    hide ValidSetting, Plannable, ProblemOf, Required, BestPlan, OpenGames, Weeks, Missing, Size, Legal, NamesItsGame;
    var plan: Plan :| Planned(s, entry, result, plan);
    BestIsLegal(ProblemOf(s, entry.picks), plan, Required(ProblemOf(s, entry.picks).weeks));
    LegalFits(s, entry.picks, plan);
    PlannableNames(s, entry);
    var fixed := Fixed(entry.picks, s.startWeek);
    NamedGames(s, fixed);
    KeepSame(entry.picks, (p: Pick) => IsFixed(p, s.startWeek), (p: Pick) => s.startWeek <= p.week <= 18);
    SavedAt(fixed, i);
  }

  // ---------------------------------------------------------------- who is planned at all

  /** A pick of one of the first thirty weeks can be graded: it is well formed, and has its line if the game is over. */
  ghost predicate IsGradable(s: Setting, picks: seq<Pick>, i: nat)
    requires i < |picks|
  {
    exists g :: OnFile(s.games, picks[i], g) && GradeLaws.WellFormed(s.pool, picks, s.games, i, g)
      && (Decided(g) && s.pool.rules.basis == AgainstSpread ==> picks[i].spreadHome.Some?)
  }

  ghost predicate NamesGame(games: seq<Game>, p: Pick) {
    exists g :: OnFile(games, p, g) && (p.team == g.away || p.team == g.home)
  }

  /** The saved picks of the weeks to plan fit the weekly limit, and those up to week 18 the limit on uses of a team. */
  ghost predicate WithinLimits(s: Setting, picks: seq<Pick>) {
    && (forall p :: p in picks && s.startWeek <= p.week <= 18 ==>
          Count(picks, (q: Pick) => q.week == p.week) <= s.pool.rules.picksPerWeek)
    && (s.pool.rules.maxTeamUses.Some? && s.pool.rules.maxTeamUses.value > 0 ==>
          forall p :: p in picks ==>
            Count(picks, (q: Pick) => q.team == p.team && (q.week < s.startWeek || q.week <= 18))
            <= s.pool.rules.maxTeamUses.value)
  }

  lemma UngradedTold(s: Setting, picks: seq<Pick>, i: nat)
    requires i < |picks| && GamesNumbered(s.games)
    ensures ResultOf(s.pool, picks, s.games, picks[i]) == Some(Ungraded) <==> !IsGradable(s, picks, i)
  {
    hide ResultOf, GradeLaws.WellFormed;
    if g :| OnFile(s.games, picks[i], g) {
      GradeLaws.FoundOnly(s.games, picks[i]);
      ResultTold(s.pool, picks, s.games, i, g);
      if Decided(g) && (s.pool.rules.basis == StraightUp || picks[i].spreadHome.Some?) {
        var line, own, other := ScoresOf(s.pool.rules, g, picks[i]);
      }
    } else {
      NotFiled(s.pool, picks, s.games, i);
    }
  }

  lemma NamesGameTold(games: seq<Game>, p: Pick)
    requires GamesNumbered(games)
    ensures NamesItsGame(games, p) <==> NamesGame(games, p)
  {
    if GameOf(games, p).Some? {
      FoundIsFiled(games, p);
    }
    if g :| OnFile(games, p, g) {
      FiledIsFound(games, p, g);
    }
  }

  lemma LimitsTold(s: Setting, picks: seq<Pick>)
    ensures OverLimit(s, picks) <==> !WithinLimits(s, picks)
  {
    hide Count, Fixed;
    forall p | p in picks && s.startWeek <= p.week <= 18
      ensures FixedCount(picks, s.startWeek, p.week) == Count(picks, (q: Pick) => q.week == p.week)
    {
      WeekCountTold(picks, s.startWeek, p.week);
    }
    forall p: Pick
      ensures Used(picks, s.startWeek, p.team)
              == Count(picks, (q: Pick) => q.team == p.team && (q.week < s.startWeek || q.week <= 18))
    {
      CountSame(picks, (q: Pick) => q.team == p.team && (q.week < s.startWeek || IsFixed(q, s.startWeek)),
                (q: Pick) => q.team == p.team && (q.week < s.startWeek || q.week <= 18));
    }
    forall p: Pick ensures p in Fixed(picks, s.startWeek) <==> p in picks && s.startWeek <= p.week <= 18 {
      FixedAre(picks, s.startWeek, p);
    }
  }

  lemma WeekCountTold(picks: seq<Pick>, startWeek: int, week: int)
    requires startWeek <= week <= 18
    ensures FixedCount(picks, startWeek, week) == Count(picks, (q: Pick) => q.week == week)
  {
    CountAmong(picks, (p: Pick) => IsFixed(p, startWeek), (p: Pick) => p.week == week, (q: Pick) => q.week == week);
  }

  /** A survivor entry is out when a well-formed pick lost on the scores. */
  ghost predicate HasLost(s: Setting, entry: Entry) {
    exists i :: 0 <= i < |entry.picks| && entry.picks[i].week < 31 && LostOnScores(s.pool, entry.picks, s.games, i)
  }

  /**
    An entry is planned exactly when it is active and not out, every pick can be graded, the picks of the weeks to
    plan name a game and one of its teams, and all stay within the limits.
  */
  lemma PlannedExactlyWhen(s: Setting, entry: Entry)
    requires ValidSetting(s)
    ensures
      Plannable(s, entry) <==>
        && entry.active && !HasLost(s, entry)
        && (forall i :: 0 <= i < |entry.picks| && entry.picks[i].week < 31 ==> IsGradable(s, entry.picks, i))
        && (forall p :: p in entry.picks && s.startWeek <= p.week <= 18 ==> NamesGame(s.games, p))
        && WithinLimits(s, entry.picks)
    ensures !Plannable(s, entry) ==>
              Refusal(s, entry) == if !entry.active then IsInactive else if HasLost(s, entry) then IsEliminated else NeedsRepair
  {
    hide StandingOf, OverLimit, WithinLimits, IsGradable, LostOnScores, ResultOf, NamesItsGame, NamesGame, Fixed;
    EliminatedExactlyWhen(s.pool, entry, s.games, 31);
    LimitsTold(s, entry.picks);
    forall i | 0 <= i < |entry.picks|
      ensures ResultOf(s.pool, entry.picks, s.games, entry.picks[i]) == Some(Ungraded) <==> !IsGradable(s, entry.picks, i)
    {
      UngradedTold(s, entry.picks, i);
    }
    forall p: Pick ensures p in Fixed(entry.picks, s.startWeek) <==> p in entry.picks && s.startWeek <= p.week <= 18 {
      FixedAre(entry.picks, s.startWeek, p);
    }
    forall p ensures NamesItsGame(s.games, p) <==> NamesGame(s.games, p) {
      NamesGameTold(s.games, p);
    }
  }

  // ---------------------------------------------------------------- weeks left open

  lemma {:induction false} MissingAre(weeks: seq<int>, items: seq<PlanItem>, perWeek: nat, w: int)
    ensures w in Missing(weeks, items, perWeek) <==> w in weeks && Count(items, (x: PlanItem) => x.week == w) < perWeek
  {
    if |weeks| > 0 {
      var n := |weeks| - 1;
      MissingAre(weeks[..n], items, perWeek, w);
      assert weeks == weeks[..n] + [weeks[n]];
      CountSame(items, InWeek(w), (x: PlanItem) => x.week == w);
    }
  }

  /** The missing weeks are those of the weeks to plan with fewer picks on the card than the pool asks for. */
  lemma MissingWeeksTold(s: Setting, entry: Entry, result: EntryPlan, w: int)
    requires Plannable(s, entry) && IsPlanned(s, entry, result)
    ensures w in result.missingWeeks <==>
            s.startWeek <= w <= 18 && Count(result.picks, (x: PlanItem) => x.week == w) < s.pool.rules.picksPerWeek
  {
    hide Plannable, ProblemOf, Required, BestPlan, Card, Weeks, Missing, Size;
    var plan: Plan :| Planned(s, entry, result, plan);
    MissingAre(Weeks(s.startWeek), result.picks, s.pool.rules.picksPerWeek, w);
    WeekListed(s.startWeek, w);
  }
}
