/**
  Suggestions on the weekly card: each game's likelier team, the likelier the heavier. Unlike the
  recommended card they look neither at permitted teams nor at the sign of the weights.
*/
module Suggestions {
  import opened Flow
  import opened PoolModel
  import opened Rearrangement
  import opened Sequences
  import opened Sorting
  import opened ConfidenceCard
  import opened WeeklyCard

  /** The forecast is supported, and there is a line when the pool plays against one. */
  predicate Rated(rules: Rules, g: Game) {
    && Supported(KindFor(rules, g))
    && (rules.basis.AgainstSpread? ==> g.spreadHome.Some?)
  }

  /** A team's best survival over later games with a supported forecast, at least zero. */
  function FuturePeak(rules: Rules, later: seq<Game>, team: string): (peak: real)
    ensures peak >= 0.0
  {
    if |later| == 0 then 0.0
    else
      var before, g := FuturePeak(rules, later[..|later| - 1], team), later[|later| - 1];
      if Plays(g, team) && Supported(KindFor(rules, g)) && Survival(rules, g, team) > before
      then Survival(rules, g, team) else before
  }

  function Score(rules: Rules, later: seq<Game>, futureWeight: real, g: Game, team: string): real {
    Survival(rules, g, team) - FuturePeak(rules, later, team) * futureWeight
  }

  /** The likelier team; between equals the one that scores higher, away first. */
  function TopTeam(rules: Rules, later: seq<Game>, futureWeight: real, g: Game): (c: Candidate)
    ensures c.success == Survival(rules, g, c.team) && (c.team == g.away || c.team == g.home)
    ensures Survival(rules, g, g.away) <= c.success && Survival(rules, g, g.home) <= c.success
  {
    var a, h := Survival(rules, g, g.away), Survival(rules, g, g.home);
    if a > h || (a == h && Score(rules, later, futureWeight, g, g.away) >= Score(rules, later, futureWeight, g, g.home))
    then Candidate(a, g.away) else Candidate(h, g.home)
  }

  function Tops(rules: Rules, later: seq<Game>, futureWeight: real, games: seq<Game>): (cs: seq<Chosen>)
    ensures |cs| == |games|
    ensures forall i :: 0 <= i < |games| ==>
              var c := TopTeam(rules, later, futureWeight, games[i]); cs[i] == Chosen(c.success, games[i], c.team)
  {
    seq(|games|, i requires 0 <= i < |games| =>
      var c := TopTeam(rules, later, futureWeight, games[i]); Chosen(c.success, games[i], c.team))
  }

  // ---------------------------------------------------------------- pairing

  predicate LessLikely(a: Chosen, b: Chosen) {
    a.success < b.success
  }

  /** By survival, ties in the order of the games. */
  function SortStable(s: seq<Chosen>): (r: seq<Chosen>)
    ensures |r| == |s| && multiset(r) == multiset(s)
  {
    SortBy(s, LessLikely)
  }

  lemma SortStableAscends(s: seq<Chosen>) returns (places: seq<nat>)
    ensures IsSorted(s, SortStable(s), places, LessLikely) && Ascending(Successes(SortStable(s)))
    ensures |SortStable(s)| == |s|
  {
    places := SortIsSorted(s, LessLikely);
    var r := SortStable(s);
    forall i, j | 0 <= i < j < |r| ensures r[i].success <= r[j].success {
      assert InTurn(r, places, i, j, LessLikely);
    }
  }

  /** Suggestions are made when every game is rated and the weights fit the games. */
  predicate Suggestible(pool: Pool, games: seq<Game>) {
    && pool.poolType.Confidence?
    && (forall i :: 0 <= i < |games| ==> Rated(pool.rules, games[i]))
    && |WeightsFor(pool.rules, |games|)| == |games|
    && Apart(WeightsFor(pool.rules, |games|))
  }

  function SuggestedRows(pool: Pool, games: seq<Game>, later: seq<Game>, futureWeight: real): seq<CardRow>
    requires Suggestible(pool, games)
  {
    var tops := Tops(pool.rules, later, futureWeight, games);
    SameSize(SortStable(tops), tops);
    Rows(SortStable(tops), WeightsFor(pool.rules, |games|))
  }

  /** Builds the suggestions of a week, none unless they can be made for every game. */
  method Suggest(pool: Pool, games: seq<Game>, later: seq<Game>, futureWeight: real) returns (rows: seq<CardRow>)
    ensures !Suggestible(pool, games) ==> rows == []
    ensures Suggestible(pool, games) ==> rows == SuggestedRows(pool, games, later, futureWeight)
  {
    hide WeightsFor, TopTeam, Rated, Rows, SortStable;
    rows := [];
    if !pool.poolType.Confidence? {
      return;
    }
    var choices: seq<Chosen> := [];
    for i := 0 to |games|
      invariant forall k :: 0 <= k < i ==> Rated(pool.rules, games[k])
      invariant choices == Tops(pool.rules, later, futureWeight, games[..i])
    {
      if !Rated(pool.rules, games[i]) {
        return;
      }
      var c := TopTeam(pool.rules, later, futureWeight, games[i]);
      choices := choices + [Chosen(c.success, games[i], c.team)];
    }
    assert games[..|games|] == games;
    var weights := WeightsFor(pool.rules, |games|);
    if |weights| != |games| || !Apart(weights) {
      return;
    }
    SameSize(SortStable(choices), choices);
    rows := PairUp(SortStable(choices), weights);
  }

  /** For the suggested teams no other order of the weights is worth more, whatever their signs. */
  lemma SuggestedOrderIsBest(pool: Pool, games: seq<Game>, later: seq<Game>, futureWeight: real, ws: seq<int>)
    requires Suggestible(pool, games) && multiset(ws) == multiset(WeightsFor(pool.rules, |games|)) && |ws| == |games|
    ensures
      Dot(Successes(Tops(pool.rules, later, futureWeight, games)), ws) <= ExpectedPoints(SuggestedRows(pool, games,
        later, futureWeight))
  {
    hide WeightsFor, TopTeam, Rated, Rows, SortStable, Dot, ExpectedPoints, Times;
    var cs := Tops(pool.rules, later, futureWeight, games);
    var _ := SortStableAscends(cs);
    WeightsAscend(pool.rules, |games|);
    SortedCardIsBest(cs, SortStable(cs), WeightsFor(pool.rules, |games|), Successes(cs), ws);
  }
}
