/**
  The third check of a pick, made when results are settled, against the checks made when the card
  was saved: exactly which saved picks it calls malformed.
*/
module CardSettlement {
  import opened Sequences
  import opened PoolModel
  import opened PoolOutcomes
  import opened WeeklyCard
  import opened CardLaws
  import opened CardAgreement

  lemma CountInWeek(picks: seq<Pick>, week: int, f: Pick -> bool, g: Pick -> bool)
    requires forall q :: g(q) <==> q.week == week && f(q)
    ensures Count(picks, g) == Count(PicksIn(picks, week), f)
  {
    CountAmong(picks, OfWeek(week), f, g);
  }

  lemma WeekSize(games: seq<Game>, week: int)
    ensures WeekGames(games, week) == |InWeek(games, week)|
  {
    CountSame(games, (g: Game) => g.week == week, (g: Game) => g.week == week);
  }

  /** The card shares nothing the settlement asks about. */
  lemma NothingShared(pool: Pool, picks: seq<Pick>, week: int, requests: seq<Request>, before: seq<Pick>,
                      games: seq<Game>, p: Pick, r: Request)
    requires PicksApart(pool, PicksIn(picks, week)) && EachFulfils(pool, PicksIn(picks, week), requests)
    requires p.week == week && Fulfils(pool, p, r) && Good(pool, before, week, games, requests, r)
    ensures !SharesGame(picks, p) && !SharesTeam(picks, p)
    ensures pool.poolType.Survivor? ==> !SharesSlot(picks, p)
    ensures p.confidence.Some? ==> !SharesWeight(picks, p) || pool.poolType.Survivor?
  {
    hide PicksIn, PicksApart, EachFulfils, Count, OffList, Blocked, UsedUp, AllowedWeight, Plays, FindGame;
    var card := PicksIn(picks, week);
    var gameId, team, slot, weight := p.gameId, p.team, p.slot, p.confidence;
    CountInWeek(picks, week, (q: Pick) => q.gameId == gameId, (q: Pick) => q.week == p.week && q.gameId == p.gameId);
    CountInWeek(picks, week, (q: Pick) => q.team == team, (q: Pick) => q.week == p.week && q.team == p.team);
    CountInWeek(picks, week, (q: Pick) => q.slot == slot, (q: Pick) => q.week == p.week && q.slot == p.slot);
    CountInWeek(picks, week, (q: Pick) => q.confidence == weight, (q: Pick) => q.week == p.week && q.confidence == p.confidence);
    GameCarries(pool, card, requests, r.gameId);
    TeamCarries(pool, card, requests, team);
    WeightCarries(pool, card, requests, weight);
    if pool.poolType.Survivor? {
      SlotCarries(pool, card, requests, slot);
    }
  }

  /** What settlement objects to in a saved pick: a list in other spelling, or a missing weight. */
  ghost predicate Ungradable(pool: Pool, p: Pick) {
    Banned(pool.rules, p.team) || (pool.poolType.Confidence? && p.confidence.None?)
  }

  lemma MalformedExactlyWhen(pool: Pool, all: seq<Game>, picks: seq<Pick>, week: int, requests: seq<Request>, before: seq<Pick>,
                             p: Pick, r: Request)
    requires GamesNumbered(all) && PicksApart(pool, PicksIn(picks, week)) && EachFulfils(pool, PicksIn(picks, week), requests)
    requires p.week == week && Fulfils(pool, p, r) && Good(pool, before, week, WeekOf(pool, all, week), requests, r)
    requires PriorUses(picks, p.team, week) == PriorUses(before, p.team, week)
    ensures Malformed(pool, picks, InSeason(all, pool.season), p) <==> Ungradable(pool, p)
  {
    hide PicksIn, PicksApart, EachFulfils, OffList, Blocked, AllowedWeight, Banned, TeamTwice, GameTwice, SlotTwice, WeightTwice,
         SharesGame, SharesTeam, SharesSlot, SharesWeight, PriorUses, InSeason, InWeek, GamesNumbered, WeekGames;
    var games := InSeason(all, pool.season);
    NothingShared(pool, picks, week, requests, before, WeekOf(pool, all, week), p, r);
    WeekNumbered(pool, all, week);
    var g := FindGame(WeekOf(pool, all, week), r.gameId).value;
    FoundIs(games, g);
    WeekSize(games, week);
  }

  /**
    Of the picks an accepted save leaves on the card, settlement calls exactly those malformed that a
    list bans in its own spelling, and the confidence picks without a weight.
  */
  lemma SavedPickIsMalformedExactlyWhen(pool: Pool, d: Desk, week: int, requests: seq<Request>, now: int, p: Pick)
    requires Accepted(pool, d, week, requests, now) && WellFormedCard(pool, d, week) && GamesNumbered(d.games)
    requires p in PicksIn(Stored(pool, d, week, requests, now).picks, week)
    ensures
      var later := Stored(pool, d, week, requests, now);
      Malformed(pool, later.picks, InSeason(later.games, pool.season), p) <==> Ungradable(pool, p)
  {
    hide WeekOf, PicksIn, Accepted, EachFulfilled, PicksApart, Good, Fulfils, Stored, WellFormedCard, GamesNumbered,
         Malformed, Ungradable;
    var later := Stored(pool, d, week, requests, now);
    var card := PicksIn(later.picks, week);
    AcceptedMeans(pool, d, week, requests, now);
    CardAfterSave(pool, d, week, requests, now);
    CardIsTheRequest(pool, d, week, requests, now);
    var i :| 0 <= i < |card| && card[i] == p;
    assert Asked(pool, card[i], requests);
    var k :| 0 <= k < |requests| && Fulfils(pool, card[i], requests[k]);
    PriorUsesStay(pool, d, week, requests, now, p.team);
    InTheWeek(later.picks, week, p);
    MalformedExactlyWhen(pool, d.games, later.picks, week, requests, d.picks, p, requests[k]);
  }

  lemma InTheWeek(picks: seq<Pick>, week: int, p: Pick)
    requires p in PicksIn(picks, week)
    ensures p.week == week
  {
  }

  /** Lists in capitals ban the same teams in both checks. */
  lemma CapitalListsAgree(rules: Rules, team: string)
    requires forall t :: t in rules.allowedTeams || t in rules.blockedTeams ==> Upper(t) == t
    ensures Banned(rules, team) <==> OffList(rules, team) || Blocked(rules, team)
  {
    hide Upper;
    if team in rules.allowedTeams {
      var i :| 0 <= i < |rules.allowedTeams| && rules.allowedTeams[i] == team;
      assert Upper(rules.allowedTeams[i]) == team;
    }
    if team in rules.blockedTeams {
      var i :| 0 <= i < |rules.blockedTeams| && rules.blockedTeams[i] == team;
      assert Upper(rules.blockedTeams[i]) == team;
    }
  }
}
