/**
  What a result means, told on scores: which picks are graded at all, who wins and who loses, and which survivor
  entries are out.
*/
module GradeLaws {
  import opened Wrappers
  import opened Sequences
  import opened PoolModel
  import opened PoolOutcomes
  import opened ChanceLaws

  // ---------------------------------------------------------------- the game of a pick

  /** The only game on file that the pick names. */
  ghost predicate OnFile(games: seq<Game>, p: Pick, g: Game) {
    g in games && p.gameId == Some(g.id) && forall h :: h in games && h.id == g.id ==> h == g
  }

  lemma FiledIsFound(games: seq<Game>, p: Pick, g: Game)
    requires OnFile(games, p, g)
    ensures GameOf(games, p) == Some(g)
  {
  }

  // ---------------------------------------------------------------- well-formed picks

  /** No other pick of the week has the game, or the team. */
  ghost predicate AloneInWeek(picks: seq<Pick>, i: nat)
    requires i < |picks|
  {
    forall j :: 0 <= j < |picks| && j != i && picks[j].week == picks[i].week ==>
      picks[j].gameId != picks[i].gameId && picks[j].team != picks[i].team
  }

  ghost predicate SlotIsFree(picks: seq<Pick>, i: nat)
    requires i < |picks|
  {
    forall j :: 0 <= j < |picks| && j != i && picks[j].week == picks[i].week ==> picks[j].slot != picks[i].slot
  }

  ghost predicate WeightIsFree(picks: seq<Pick>, i: nat)
    requires i < |picks|
  {
    forall j :: 0 <= j < |picks| && j != i && picks[j].week == picks[i].week ==> picks[j].confidence != picks[i].confidence
  }

  /** A pick of its own game, week and season, alone there, within the limits of the pool. */
  ghost predicate WellFormed(pool: Pool, picks: seq<Pick>, games: seq<Game>, i: nat, g: Game)
    requires i < |picks|
  {
    var p, rules := picks[i], pool.rules;
    && g.week == p.week && g.season == pool.season && (p.team == g.away || p.team == g.home)
    && Permitted(rules, p.team) && AloneInWeek(picks, i)
    && (pool.poolType == Survivor ==>
          && 1 <= p.slot <= rules.picksPerWeek && SlotIsFree(picks, i) && p.confidence.None?
          && (rules.maxTeamUses.None? || rules.maxTeamUses.value == 0
              || Count(picks, (q: Pick) => q.team == p.team && q.week < p.week) < rules.maxTeamUses.value))
    && (pool.poolType == Confidence ==>
          && p.confidence.Some? && WeightIsFree(picks, i)
          && (if rules.confidenceWeights == [] then 1 <= p.confidence.value <= Count(games, (h: Game) => h.week == p.week)
              else p.confidence.value in rules.confidenceWeights))
  }

  lemma SharedMeans(picks: seq<Pick>, i: nat)
    requires i < |picks|
    ensures AloneInWeek(picks, i) <==> !SharesGame(picks, picks[i]) && !SharesTeam(picks, picks[i])
    ensures SlotIsFree(picks, i) <==> !SharesSlot(picks, picks[i])
    ensures WeightIsFree(picks, i) <==> !SharesWeight(picks, picks[i])
  {
    hide Count;
    var p := picks[i];
    CountsAnother(picks, (q: Pick) => q.week == p.week && q.gameId == p.gameId, i);
    CountsAnother(picks, (q: Pick) => q.week == p.week && q.team == p.team, i);
    CountsAnother(picks, (q: Pick) => q.week == p.week && q.slot == p.slot, i);
    CountsAnother(picks, (q: Pick) => q.week == p.week && q.confidence == p.confidence, i);
  }

  /** Settlement takes a pick exactly when it is well formed. */
  lemma MalformedTold(pool: Pool, picks: seq<Pick>, games: seq<Game>, i: nat, g: Game)
    requires i < |picks| && OnFile(games, picks[i], g)
    ensures Malformed(pool, picks, games, picks[i]) <==> !WellFormed(pool, picks, games, i, g)
  {
    hide Count, Banned, Permitted, AloneInWeek, SlotIsFree, WeightIsFree, SharesGame, SharesTeam, SharesSlot, SharesWeight,
         GameOf;
    FiledIsFound(games, picks[i], g);
    PermittedIsNotBanned(pool.rules, picks[i].team);
    SharedMeans(picks, i);
    var p := picks[i];
    CountSame(picks, (q: Pick) => q.team == p.team && q.week < p.week, (q: Pick) => q.team == p.team && q.week < p.week);
    CountSame(games, (h: Game) => h.week == p.week, (h: Game) => h.week == p.week);
  }

  // ---------------------------------------------------------------- grades

  /** The game is over and both scores are known. */
  ghost predicate Decided(g: Game) {
    g.completed && g.homeScore.Some? && g.awayScore.Some?
  }

  /** The line the pick was accepted at counts for the home side; without a spread there is none. */
  ghost predicate HasLine(rules: Rules, p: Pick, line: real) {
    if rules.basis == StraightUp then line == 0.0 else p.spreadHome == Some(line)
  }

  /** What the team of the pick scored under the line, and what the other one did. */
  ghost predicate Scored(g: Game, p: Pick, line: real, own: real, other: real)
    requires Decided(g)
  {
    var home, away := g.homeScore.value as real + line, g.awayScore.value as real;
    if p.team == g.home then own == home && other == away else own == away && other == home
  }

  /** The grade of a well-formed pick. */
  ghost predicate IsGrade(rules: Rules, g: Game, p: Pick, r: Option<Grade>) {
    if !Decided(g) then r == None
    else if rules.basis == AgainstSpread && p.spreadHome == None then r == Some(Ungraded)
    else
      forall line, own, other :: HasLine(rules, p, line) && Scored(g, p, line, own, other) ==>
        match rules.direction
        case Winner => (own > other ==> r == Some(Win)) && (own < other ==> r == Some(Loss))
                       && (own == other ==> LevelGrade(rules, r))
        case Loser => (own < other ==> r == Some(Win)) && (own > other ==> r == Some(Loss))
                      && (own == other ==> LevelGrade(rules, r))
  }

  /** What the pool makes of a level game. */
  ghost predicate LevelGrade(rules: Rules, r: Option<Grade>) {
    match rules.tieResult
    case TieSurvives => r == Some(Win)
    case TieEliminates => r == Some(Loss)
    case TiePushes => r == Some(Push)
  }

  /** A line and the two scores under it. */
  lemma ScoresOf(rules: Rules, g: Game, p: Pick) returns (line: real, own: real, other: real)
    requires Decided(g) && (rules.basis == StraightUp || p.spreadHome.Some?)
    ensures HasLine(rules, p, line) && Scored(g, p, line, own, other)
  {
    line := if rules.basis == StraightUp then 0.0 else p.spreadHome.value;
    var home, away := g.homeScore.value as real + line, g.awayScore.value as real;
    own, other := if p.team == g.home then home else away, if p.team == g.home then away else home;
  }

  lemma GradeTold(rules: Rules, g: Game, p: Pick)
    ensures p.week == g.week && (p.team == g.away || p.team == g.home) ==> IsGrade(rules, g, p, GradeOf(p, Some(g), rules))
    ensures Decided(g) && (p.week != g.week || (p.team != g.away && p.team != g.home)) ==>
              GradeOf(p, Some(g), rules) == Some(Ungraded)
  {
  }

  /** A pick is graded on the scores when it is well formed, and ungraded when it is not. */
  ghost predicate IsResult(pool: Pool, picks: seq<Pick>, games: seq<Game>, i: nat, g: Game, r: Option<Grade>)
    requires i < |picks|
  {
    if WellFormed(pool, picks, games, i, g) then IsGrade(pool.rules, g, picks[i], r) else r == Some(Ungraded)
  }

  lemma ResultTold(pool: Pool, picks: seq<Pick>, games: seq<Game>, i: nat, g: Game)
    requires i < |picks| && OnFile(games, picks[i], g)
    ensures IsResult(pool, picks, games, i, g, ResultOf(pool, picks, games, picks[i]))
  {
    hide Malformed, GradeOf, IsGrade, Permitted, AloneInWeek, SlotIsFree, WeightIsFree, GameOf, Count;
    MalformedTold(pool, picks, games, i, g);
    FiledIsFound(games, picks[i], g);
    if WellFormed(pool, picks, games, i, g) {
      GradeTold(pool.rules, g, picks[i]);
    }
  }

  /** The two teams of one game under one line do not both win and do not both lose unless it is level. */
  lemma OppositeGrades(rules: Rules, g: Game, p: Pick, q: Pick, r: Option<Grade>, s: Option<Grade>)
    requires Decided(g) && g.home != g.away && p.team == g.home && q.team == g.away
    requires rules.basis == StraightUp || (p.spreadHome.Some? && q.spreadHome == p.spreadHome)
    requires IsGrade(rules, g, p, r) && IsGrade(rules, g, q, s)
    ensures || (r == Some(Win) && s == Some(Loss)) || (r == Some(Loss) && s == Some(Win))
            || (r == s && LevelGrade(rules, r)
                && exists line :: HasLine(rules, p, line) && g.homeScore.value as real + line == g.awayScore.value as real)
  {
    var line, own, other := ScoresOf(rules, g, p);
    assert HasLine(rules, q, line) && Scored(g, q, line, other, own);
  }

  // ---------------------------------------------------------------- settlement and standings

  lemma SeasonFile(all: seq<Game>, season: int, p: Pick, g: Game)
    requires OnFile(all, p, g) && g.season == season
    ensures OnFile(InSeason(all, season), p, g)
  {
  }

  /**
    What settlement stores. Entries of other seasons are left alone; a pick whose game is of the season has the
    result its scores give it; what was stored for a pick without such a game stays.
  */
  lemma SettledTold(x: Settled, all: seq<Game>, season: int, i: nat, g: Game)
    requires |x.results| == |x.entry.picks| && i < |x.results|
    ensures
      var y, p := SettledOnce(x, all, season), x.entry.picks[i];
      && y.pool == x.pool && y.entry == x.entry && |y.results| == |x.results|
      && (x.pool.season != season ==> y == x)
      && (x.pool.season == season && OnFile(all, p, g) && g.season == season ==>
            IsResult(x.pool, x.entry.picks, InSeason(all, season), i, g, y.results[i]))
      && (x.pool.season == season && (forall h :: h in all && h.season == season ==> p.gameId != Some(h.id)) ==>
            y.results[i] == x.results[i])
  {
    hide ResultOf, IsResult, InSeason;
    if x.pool.season == season && OnFile(all, x.entry.picks[i], g) && g.season == season {
      SeasonFile(all, season, x.entry.picks[i], g);
      FiledIsFound(InSeason(all, season), x.entry.picks[i], g);
      ResultTold(x.pool, x.entry.picks, InSeason(all, season), i, g);
    }
  }

  /** The pick is well formed and its team lost, or won where losers are picked; or the game was level and that is out. */
  ghost predicate LostOnScores(pool: Pool, picks: seq<Pick>, games: seq<Game>, i: nat)
    requires i < |picks|
  {
    exists g :: OnFile(games, picks[i], g) && WellFormed(pool, picks, games, i, g) && Decided(g)
      && LosesIn(pool.rules, g, picks[i])
  }

  ghost predicate LosesIn(rules: Rules, g: Game, p: Pick)
    requires Decided(g)
  {
    exists line, own, other :: HasLine(rules, p, line) && Scored(g, p, line, own, other)
      && ((own < other && rules.direction == Winner) || (own > other && rules.direction == Loser)
          || (own == other && rules.tieResult == TieEliminates))
  }

  lemma LossTold(rules: Rules, g: Game, p: Pick, r: Option<Grade>)
    requires IsGrade(rules, g, p, r)
    ensures r == Some(Loss) <==> Decided(g) && LosesIn(rules, g, p)
  {
    if Decided(g) && (rules.basis == StraightUp || p.spreadHome.Some?) {
      var line, own, other := ScoresOf(rules, g, p);
    }
  }

  lemma LostTold(pool: Pool, picks: seq<Pick>, games: seq<Game>, i: nat)
    requires i < |picks| && GamesNumbered(games)
    ensures ResultOf(pool, picks, games, picks[i]) == Some(Loss) <==> LostOnScores(pool, picks, games, i)
  {
    hide ResultOf, WellFormed, LosesIn, IsGrade;
    if g :| OnFile(games, picks[i], g) {
      FoundOnly(games, picks[i]);
      ResultTold(pool, picks, games, i, g);
      if WellFormed(pool, picks, games, i, g) {
        LossTold(pool.rules, g, picks[i], ResultOf(pool, picks, games, picks[i]));
      }
    } else {
      NotFiled(pool, picks, games, i);
    }
  }

  lemma FoundOnly(games: seq<Game>, p: Pick)
    ensures forall g, h :: OnFile(games, p, g) && OnFile(games, p, h) ==> g == h
  {
  }

  /** A pick without a game on file is ungraded. */
  lemma NotFiled(pool: Pool, picks: seq<Pick>, games: seq<Game>, i: nat)
    requires i < |picks| && GamesNumbered(games) && forall g :: !OnFile(games, picks[i], g)
    ensures ResultOf(pool, picks, games, picks[i]) == Some(Ungraded)
  {
    hide Count, OnFile, GameOf;
    if GameOf(games, picks[i]).Some? {
      FoundIsFiled(games, picks[i]);
    }
  }

  lemma FoundIsFiled(games: seq<Game>, p: Pick)
    requires GamesNumbered(games) && GameOf(games, p).Some?
    ensures OnFile(games, p, GameOf(games, p).value)
  {
  }

  /** A survivor entry is out exactly when a well-formed pick before the week lost on the scores. */
  lemma EliminatedExactlyWhen(pool: Pool, entry: Entry, games: seq<Game>, beforeWeek: int)
    requires GamesNumbered(games)
    ensures
      StandingOf(pool, entry, games, beforeWeek) == Eliminated <==>
        && entry.active && pool.poolType == Survivor
        && exists i :: 0 <= i < |entry.picks| && entry.picks[i].week < beforeWeek && LostOnScores(pool, entry.picks, games, i)
    ensures StandingOf(pool, entry, games, beforeWeek) == Inactive <==> !entry.active
  {
    hide ResultOf, LostOnScores;
    var picks := entry.picks;
    forall i | 0 <= i < |picks|
      ensures Lost(pool, picks, games, picks[i], beforeWeek) <==>
              picks[i].week < beforeWeek && LostOnScores(pool, picks, games, i)
    {
      LostTold(pool, picks, games, i);
    }
  }
}
