/** Rows and rules of survivor and confidence pools. Times are seconds, teams are stored spellings. */
module PoolModel {
  import opened Wrappers
  import opened Sequences

  /** Forecasts older than this are stale. */
  const STALE_SECONDS := 96 * 3600

  datatype PoolType = Survivor | Confidence
  datatype Direction = Winner | Loser
  datatype Basis = StraightUp | AgainstSpread
  datatype TieResult = TieSurvives | TieEliminates | TiePushes
  datatype LockMode = GameStart | WeekStart
  datatype ProbabilityKind = Market | Manual | Model | Unavailable | LegacyUnknown

  datatype Rules = Rules(
    direction: Direction,
    basis: Basis,
    picksPerWeek: nat,
    maxTeamUses: Option<nat>,
    allowedTeams: seq<string>,
    blockedTeams: seq<string>,
    tieResult: TieResult,
    lockMode: LockMode,
    confidenceWeights: seq<int>)

  datatype KeyKind = Gsis | GameId

  /** How the feed names a game. */
  datatype Identity = Identity(kind: KeyKind, key: string)

  datatype Game = Game(
    id: int,
    season: int,
    week: int,
    away: string,
    home: string,
    kickoff: int,
    lockedAt: Option<int>,
    homeWin: real,
    homeCover: real,
    winKind: ProbabilityKind,
    coverKind: ProbabilityKind,
    spreadHome: Option<real>,
    homeScore: Option<int>,
    awayScore: Option<int>,
    completed: bool,
    sourceTimestamp: int,
    fromFeed: bool,
    identity: Option<Identity>)

  datatype Pick = Pick(
    id: nat,
    week: int,
    slot: int,
    gameId: Option<int>,
    team: string,
    confidence: Option<int>,
    spreadHome: Option<real>,
    probability: Option<real>,
    kind: Option<ProbabilityKind>)

  datatype Pool = Pool(poolType: PoolType, season: int, rules: Rules)

  datatype Entry = Entry(id: int, active: bool, picks: seq<Pick>)

  /** A game is locked once it is stamped or its kickoff has come. */
  predicate GameLocked(g: Game, now: int) {
    g.lockedAt.Some? || g.kickoff <= now
  }

  predicate Plays(g: Game, team: string) {
    team == g.away || team == g.home
  }

  /** Outside the allow list, when there is one, or on the block list, in the spelling the lists have. */
  predicate Banned(rules: Rules, team: string) {
    || (rules.allowedTeams != [] && team !in rules.allowedTeams)
    || team in rules.blockedTeams
  }

  function UpperChar(c: char): char {
    if 'a' <= c <= 'z' then (c as int - 32) as char else c
  }

  function Upper(s: string): string {
    if |s| == 0 then "" else Upper(s[..|s| - 1]) + [UpperChar(s[|s| - 1])]
  }

  function UpperAll(teams: seq<string>): set<string> {
    set i | 0 <= i < |teams| :: Upper(teams[i])
  }

  /** Outside the allow list once its spellings are raised to capitals. */
  predicate OffList(rules: Rules, team: string) {
    rules.allowedTeams != [] && team !in UpperAll(rules.allowedTeams)
  }

  /** On the block list once its spellings are raised to capitals. */
  predicate Blocked(rules: Rules, team: string) {
    team in UpperAll(rules.blockedTeams)
  }

  predicate Supported(kind: ProbabilityKind) {
    kind == Market || kind == Manual || kind == Model
  }

  // ---------------------------------------------------------------- chances

  /** The home team's chance on the basis the pool is played on. */
  function HomeProbability(rules: Rules, g: Game): real {
    if rules.basis.AgainstSpread? then g.homeCover else g.homeWin
  }

  /** Where that chance comes from. */
  function KindFor(rules: Rules, g: Game): ProbabilityKind {
    if rules.basis.AgainstSpread? then g.coverKind else g.winKind
  }

  /** The chance that a pick of the team counts: that it wins, or that it loses in a loser pool. */
  function Success(rules: Rules, g: Game, home: real, team: string): real {
    var p := if team == g.home then home else 1.0 - home;
    if rules.direction.Loser? then 1.0 - p else p
  }

  function Survival(rules: Rules, g: Game, team: string): real {
    Success(rules, g, HomeProbability(rules, g), team)
  }

  /** The limit on uses of a team; zero and absent both mean no limit. */
  function UseLimit(rules: Rules): Option<nat> {
    if rules.maxTeamUses.Some? && rules.maxTeamUses.value > 0 then rules.maxTeamUses else None
  }

  function FindGame(games: seq<Game>, id: int): (r: Option<Game>)
    ensures r.Some? ==> r.value in games && r.value.id == id
    ensures r.None? <==> forall g :: g in games ==> g.id != id
  {
    if |games| == 0 then None
    else if games[|games| - 1].id == id then Some(games[|games| - 1])
    else FindGame(games[..|games| - 1], id)
  }

  function GameOf(games: seq<Game>, p: Pick): Option<Game> {
    if p.gameId.Some? then FindGame(games, p.gameId.value) else None
  }

  /** Games have their own numbers. */
  ghost predicate GamesNumbered(games: seq<Game>) {
    forall i, j :: 0 <= i < j < |games| ==> games[i].id != games[j].id
  }

  /** The games of one season. */
  function InSeason(games: seq<Game>, season: int): (r: seq<Game>)
    ensures forall g :: g in r <==> g in games && g.season == season
  {
    Keep(games, (g: Game) => g.season == season)
  }
}
