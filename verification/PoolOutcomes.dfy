/**
  Grading of saved picks. An entry whose picks are all graded or pending, none "ungraded",
  is well formed: this gate is what lets the season allocator trust the saved picks.
*/
module PoolOutcomes {
  import opened Wrappers
  import opened Sequences
  import opened PoolModel

  datatype Grade = Win | Loss | Push | Ungraded

  function GradeOf(p: Pick, game: Option<Game>, rules: Rules): Option<Grade> {
    if game.None? || !game.value.completed || game.value.homeScore.None? || game.value.awayScore.None? then None
    else
      var g := game.value;
      if !Plays(g, p.team) || p.week != g.week then Some(Ungraded)
      else if rules.basis.AgainstSpread? && p.spreadHome.None? then Some(Ungraded)
      else
        var margin := (g.homeScore.value - g.awayScore.value) as real
                      + (if rules.basis.AgainstSpread? then p.spreadHome.value else 0.0);
        if margin == 0.0 then
          Some(match rules.tieResult
               case TieSurvives => Win
               case TieEliminates => Loss
               case TiePushes => Push)
        else
          var favoured := (margin > 0.0) == (p.team == g.home);
          var won := if rules.direction.Loser? then !favoured else favoured;
          Some(if won then Win else Loss)
  }

  function WeekGames(games: seq<Game>, week: int): nat {
    Count(games, (g: Game) => g.week == week)
  }

  /** The confidence weights a week may use. */
  predicate AllowedWeight(rules: Rules, gameCount: nat, weight: int) {
    if rules.confidenceWeights != [] then weight in rules.confidenceWeights else 1 <= weight <= gameCount
  }

  predicate SharesGame(picks: seq<Pick>, p: Pick) {
    Count(picks, (q: Pick) => q.week == p.week && q.gameId == p.gameId) > 1
  }

  predicate SharesTeam(picks: seq<Pick>, p: Pick) {
    Count(picks, (q: Pick) => q.week == p.week && q.team == p.team) > 1
  }

  predicate SharesSlot(picks: seq<Pick>, p: Pick) {
    Count(picks, (q: Pick) => q.week == p.week && q.slot == p.slot) > 1
  }

  predicate SharesWeight(picks: seq<Pick>, p: Pick) {
    Count(picks, (q: Pick) => q.week == p.week && q.confidence == p.confidence) > 1
  }

  function PriorUses(picks: seq<Pick>, team: string, week: int): nat {
    Count(picks, (q: Pick) => q.team == team && q.week < week)
  }

  predicate Malformed(pool: Pool, picks: seq<Pick>, games: seq<Game>, p: Pick) {
    var game := GameOf(games, p);
    || game.None?
    || game.value.week != p.week
    || game.value.season != pool.season
    || !Plays(game.value, p.team)
    || Banned(pool.rules, p.team)
    || SharesGame(picks, p)
    || SharesTeam(picks, p)
    || match pool.poolType
       case Survivor =>
         || !(1 <= p.slot <= pool.rules.picksPerWeek)
         || SharesSlot(picks, p)
         || p.confidence.Some?
         || (UseLimit(pool.rules).Some? && PriorUses(picks, p.team, p.week) >= UseLimit(pool.rules).value)
       case Confidence =>
         || p.confidence.None?
         || !AllowedWeight(pool.rules, WeekGames(games, p.week), p.confidence.value)
         || SharesWeight(picks, p)
  }

  function ResultOf(pool: Pool, picks: seq<Pick>, games: seq<Game>, p: Pick): Option<Grade> {
    if Malformed(pool, picks, games, p) then Some(Ungraded)
    else GradeOf(p, GameOf(games, p), pool.rules)
  }

  /** The results of an entry, in the order of its picks. */
  method EntryResults(pool: Pool, entry: Entry, games: seq<Game>) returns (output: seq<Option<Grade>>)
    ensures |output| == |entry.picks|
    ensures forall i :: 0 <= i < |output| ==> output[i] == ResultOf(pool, entry.picks, games, entry.picks[i])
  {
    output := [];
    for i := 0 to |entry.picks|
      invariant |output| == i
      invariant forall k :: 0 <= k < i ==> output[k] == ResultOf(pool, entry.picks, games, entry.picks[k])
    {
      output := output + [ResultOf(pool, entry.picks, games, entry.picks[i])];
    }
  }

  // ---------------------------------------------------------------- settlement

  /** An entry of a pool with the results stored for its picks. */
  datatype Settled = Settled(pool: Pool, entry: Entry, results: seq<Option<Grade>>)

  ghost predicate Matching(x: Settled) {
    |x.results| == |x.entry.picks|
  }

  /** The result to store for a pick; what was recorded for a pick without a game of the season is kept. */
  function StoredResult(x: Settled, games: seq<Game>, i: nat): Option<Grade>
    requires |x.results| == |x.entry.picks| && i < |x.results|
  {
    if GameOf(games, x.entry.picks[i]).None? then x.results[i]
    else ResultOf(x.pool, x.entry.picks, games, x.entry.picks[i])
  }

  /** An entry of the season is graded against its games, any other is left alone. */
  function SettledOnce(x: Settled, all: seq<Game>, season: int): (y: Settled)
    requires |x.results| == |x.entry.picks|
    ensures Matching(y) && y.pool == x.pool && y.entry == x.entry
  {
    if x.pool.season != season then x
    else
      var games := InSeason(all, season);
      x.(results := seq(|x.results|, i requires 0 <= i < |x.results| => StoredResult(x, games, i)))
  }

  ghost predicate AllMatching(xs: seq<Settled>) {
    forall i :: 0 <= i < |xs| ==> Matching(xs[i])
  }

  ghost predicate AllSettled(before: seq<Settled>, after: seq<Settled>, all: seq<Game>, season: int) {
    && |after| == |before| && AllMatching(before)
    && forall i :: 0 <= i < |before| ==> after[i] == SettledOnce(before[i], all, season)
  }

  method SettleEntry(x: Settled, all: seq<Game>, season: int) returns (y: Settled)
    requires Matching(x)
    ensures y == SettledOnce(x, all, season)
  {
    hide ResultOf, GameOf, InSeason;
    if x.pool.season != season {
      return x;
    }
    var games := InSeason(all, season);
    var graded := EntryResults(x.pool, x.entry, games);
    var results: seq<Option<Grade>> := [];
    for i := 0 to |graded|
      invariant |results| == i
      invariant forall k :: 0 <= k < i ==> results[k] == StoredResult(x, games, k)
    {
      results := results + [if GameOf(games, x.entry.picks[i]).None? then x.results[i] else graded[i]];
    }
    y := x.(results := results);
  }

  /** Every entry of every pool of the season. */
  method SettleSeason(xs: seq<Settled>, all: seq<Game>, season: int) returns (ys: seq<Settled>)
    requires AllMatching(xs)
    ensures AllSettled(xs, ys, all, season)
  {
    hide SettledOnce;
    ys := [];
    for i := 0 to |xs|
      invariant |ys| == i
      invariant forall k :: 0 <= k < i ==> ys[k] == SettledOnce(xs[k], all, season)
    {
      var y := SettleEntry(xs[i], all, season);
      ys := ys + [y];
    }
  }

  /** Settling again changes nothing. */
  lemma SettlingTwiceIsOnce(x: Settled, all: seq<Game>, season: int)
    requires Matching(x)
    ensures SettledOnce(SettledOnce(x, all, season), all, season) == SettledOnce(x, all, season)
  {
    hide ResultOf, GameOf, InSeason;
  }

  datatype Standing = Inactive | Eliminated | Alive

  predicate Lost(pool: Pool, picks: seq<Pick>, games: seq<Game>, p: Pick, beforeWeek: int) {
    p.week < beforeWeek && ResultOf(pool, picks, games, p) == Some(Loss)
  }

  /** A survivor entry is out once a pick before the given week is a loss. Weeks start at one. */
  function StandingOf(pool: Pool, entry: Entry, games: seq<Game>, beforeWeek: int): Standing {
    if !entry.active then Inactive
    else if pool.poolType.Survivor?
            && exists i :: 0 <= i < |entry.picks| && Lost(pool, entry.picks, games, entry.picks[i], beforeWeek)
    then Eliminated
    else Alive
  }

  predicate HasUngraded(pool: Pool, entry: Entry, games: seq<Game>, beforeWeek: int) {
    exists i :: 0 <= i < |entry.picks| && entry.picks[i].week < beforeWeek
                && ResultOf(pool, entry.picks, games, entry.picks[i]) == Some(Ungraded)
  }

  /** Two graded picks of one week share neither game, team nor slot. */
  lemma GradedPicksDiffer(pool: Pool, entry: Entry, games: seq<Game>, beforeWeek: int, i: nat, j: nat)
    requires pool.poolType.Survivor? && !HasUngraded(pool, entry, games, beforeWeek)
    requires i < j < |entry.picks|
    requires entry.picks[i].week == entry.picks[j].week < beforeWeek
    ensures entry.picks[i].gameId != entry.picks[j].gameId
    ensures entry.picks[i].team != entry.picks[j].team
    ensures entry.picks[i].slot != entry.picks[j].slot
  {
    var picks := entry.picks;
    var p, q := picks[i], picks[j];
    assert !Malformed(pool, picks, games, p);
    if p.gameId == q.gameId {
      CountTwice(picks, (x: Pick) => x.week == p.week && x.gameId == p.gameId, i, j);
      assert SharesGame(picks, p);
    }
    if p.team == q.team {
      CountTwice(picks, (x: Pick) => x.week == p.week && x.team == p.team, i, j);
      assert SharesTeam(picks, p);
    }
    if p.slot == q.slot {
      CountTwice(picks, (x: Pick) => x.week == p.week && x.slot == p.slot, i, j);
      assert SharesSlot(picks, p);
    }
  }

  /** A graded pick names a game of its own week that its team plays in. */
  lemma GradedPickHasGame(pool: Pool, entry: Entry, games: seq<Game>, beforeWeek: int, p: Pick)
    requires !HasUngraded(pool, entry, games, beforeWeek)
    requires p in entry.picks && p.week < beforeWeek
    ensures GameOf(games, p).Some?
    ensures var g := GameOf(games, p).value;
            g in games && g.week == p.week && p.gameId == Some(g.id) && Plays(g, p.team)
  {
    var i :| 0 <= i < |entry.picks| && entry.picks[i] == p;
    assert !Malformed(pool, entry.picks, games, p);
  }
}
