/**
  The weekly pool card as values: which requests are refused, what an accepted save stores, and
  what a stored card is judged to be.
*/
module WeeklyCard {
  import opened Wrappers
  import opened Sequences
  import opened PoolModel
  import opened PoolOutcomes

  // ---------------------------------------------------------------- the week

  function InWeek(games: seq<Game>, week: int): seq<Game> {
    Keep(games, (g: Game) => g.week == week)
  }

  /** The games of a week of the pool's season. */
  function WeekOf(pool: Pool, all: seq<Game>, week: int): (r: seq<Game>)
    ensures forall g :: g in r <==> g in all && g.season == pool.season && g.week == week
  {
    InWeek(InSeason(all, pool.season), week)
  }

  function Stamped(g: Game, season: int, now: int): Game {
    if g.season == season && g.lockedAt.None? && g.kickoff <= now then g.(lockedAt := Some(now)) else g
  }

  /** Every due game of the season gets its lock. */
  function StampDueGames(all: seq<Game>, season: int, now: int): (r: seq<Game>)
    ensures |r| == |all| && forall i :: 0 <= i < |r| ==> r[i] == Stamped(all[i], season, now)
  {
    if |all| == 0 then []
    else StampDueGames(all[..|all| - 1], season, now) + [Stamped(all[|all| - 1], season, now)]
  }

  function OfWeek(week: int): Pick -> bool {
    (p: Pick) => p.week == week
  }

  function PicksIn(picks: seq<Pick>, week: int): (r: seq<Pick>)
    ensures forall p :: p in r <==> p in picks && p.week == week
  {
    Keep(picks, OfWeek(week))
  }

  // ---------------------------------------------------------------- teams and weights

  predicate UsedUp(pool: Pool, picks: seq<Pick>, team: string, week: int) {
    && pool.poolType.Survivor? && pool.rules.maxTeamUses.Some?
    && PriorUses(picks, team, week) >= pool.rules.maxTeamUses.value
  }

  predicate Apart(s: seq<int>) {
    forall i, j :: 0 <= i < j < |s| ==> s[i] != s[j]
  }

  /** Configured weights that do not fit the games of the week. */
  predicate WeightsMisfit(pool: Pool, gameCount: nat) {
    var w := pool.rules.confidenceWeights;
    pool.poolType.Confidence? && w != [] && (|w| != gameCount || !Apart(w))
  }

  predicate WeightsPositive(rules: Rules) {
    forall i :: 0 <= i < |rules.confidenceWeights| ==> rules.confidenceWeights[i] > 0
  }

  datatype Code =
    | LegacyPick | ForeignGame | MovedOutOfWeek | ForeignTeam | NotAllowed | BlockedTeam | TeamUsed
    | DuplicateTeam | DuplicateGame | InvalidSlot | InvalidWeight | DuplicateWeight

  datatype Finding = WeightCountMismatch | PickFinding(index: nat, code: Code)

  function When(c: bool, code: Code): seq<Code> {
    if c then [code] else []
  }

  function Tagged(index: nat, codes: seq<Code>): (r: seq<Finding>)
    ensures |r| == |codes|
  {
    if |codes| == 0 then [] else Tagged(index, codes[..|codes| - 1]) + [PickFinding(index, codes[|codes| - 1])]
  }

  // ---------------------------------------------------------------- judging a request

  datatype Request = Request(slot: Option<int>, gameId: int, team: string, confidence: Option<int>)

  predicate TeamTwice(all: seq<Request>, team: string) {
    Count(all, (x: Request) => x.team == team) > 1
  }

  predicate GameTwice(all: seq<Request>, gameId: int) {
    Count(all, (x: Request) => x.gameId == gameId) > 1
  }

  predicate SlotTwice(all: seq<Request>, slot: Option<int>) {
    Count(all, (x: Request) => x.slot == slot) > 1
  }

  predicate WeightTwice(all: seq<Request>, confidence: Option<int>) {
    Count(all, (x: Request) => x.confidence == confidence) > 1
  }

  function TypeCodes(pool: Pool, gameCount: nat, all: seq<Request>, r: Request): seq<Code> {
    match pool.poolType
    case Survivor =>
      When(GameTwice(all, r.gameId), DuplicateGame)
      + When(r.slot.None? || !(1 <= r.slot.value <= pool.rules.picksPerWeek) || SlotTwice(all, r.slot), InvalidSlot)
      + When(r.confidence.Some?, InvalidWeight)
    case Confidence =>
      When(GameTwice(all, r.gameId), DuplicateGame)
      + (if r.confidence.None? then []
         else if !AllowedWeight(pool.rules, gameCount, r.confidence.value) then [InvalidWeight]
         else When(WeightTwice(all, r.confidence), DuplicateWeight))
  }

  /** What is wrong with one requested pick. */
  function RequestCodes(pool: Pool, picks: seq<Pick>, week: int, games: seq<Game>, all: seq<Request>, r: Request): seq<Code> {
    var game := FindGame(games, r.gameId);
    if game.None? then [ForeignGame]
    else
      When(!Plays(game.value, r.team), ForeignTeam)
      + When(OffList(pool.rules, r.team), NotAllowed)
      + When(Blocked(pool.rules, r.team), BlockedTeam)
      + When(UsedUp(pool, picks, r.team, week), TeamUsed)
      + When(TeamTwice(all, r.team), DuplicateTeam)
      + TypeCodes(pool, |games|, all, r)
  }

  function RequestFindings(pool: Pool, picks: seq<Pick>, week: int, games: seq<Game>, all: seq<Request>, n: nat): seq<Finding>
    requires n <= |all|
  {
    if n == 0 then (if WeightsMisfit(pool, |games|) then [WeightCountMismatch] else [])
    else
      RequestFindings(pool, picks, week, games, all, n - 1)
      + Tagged(n - 1, RequestCodes(pool, picks, week, games, all, all[n - 1]))
  }

  // ---------------------------------------------------------------- locks

  predicate AnyLocked(games: seq<Game>, now: int) {
    exists i :: 0 <= i < |games| && GameLocked(games[i], now)
  }

  predicate WeekLocked(rules: Rules, games: seq<Game>, now: int) {
    rules.lockMode.WeekStart? && AnyLocked(games, now)
  }

  /** `games` are the week's games, `all` every stored game. */
  predicate PickLocked(rules: Rules, games: seq<Game>, all: seq<Game>, p: Pick, now: int) {
    match rules.lockMode
    case WeekStart => AnyLocked(games, now)
    case GameStart => GameOf(all, p).Some? && GameLocked(GameOf(all, p).value, now)
  }

  /** Survivor picks are known by slot, confidence picks by game. */
  function CardIdentity(pool: Pool, p: Pick): Option<int> {
    if pool.poolType.Survivor? then Some(p.slot) else p.gameId
  }

  function RequestIdentity(pool: Pool, r: Request): Option<int> {
    if pool.poolType.Survivor? then r.slot else Some(r.gameId)
  }

  predicate Matches(p: Pick, r: Request) {
    p.gameId == Some(r.gameId) && p.team == r.team && p.confidence == r.confidence
  }

  /** The last request of an identity. */
  function FindRequest(pool: Pool, all: seq<Request>, identity: Option<int>): (r: Option<Request>)
    ensures r.Some? ==> r.value in all && identity.Some? && RequestIdentity(pool, r.value) == identity
    ensures r.None? && identity.Some? ==> forall x :: x in all ==> RequestIdentity(pool, x) != identity
  {
    if |all| == 0 || identity.None? then None
    else if RequestIdentity(pool, all[|all| - 1]) == identity then Some(all[|all| - 1])
    else FindRequest(pool, all[..|all| - 1], identity)
  }

  /** The last stored pick of an identity. */
  function FindPick(pool: Pool, existing: seq<Pick>, identity: Option<int>): (p: Option<Pick>)
    ensures p.Some? ==> p.value in existing && CardIdentity(pool, p.value) == identity
    ensures p.None? ==> forall x :: x in existing ==> CardIdentity(pool, x) != identity
  {
    if |existing| == 0 then None
    else if CardIdentity(pool, existing[|existing| - 1]) == identity then Some(existing[|existing| - 1])
    else FindPick(pool, existing[..|existing| - 1], identity)
  }

  datatype Conflict = LostPick(identity: Option<int>) | LateRequest(index: nat)

  /** A locked pick that the request drops or changes. */
  predicate Loses(pool: Pool, games: seq<Game>, all: seq<Game>, requests: seq<Request>, p: Pick, now: int) {
    && PickLocked(pool.rules, games, all, p, now)
    && var r := FindRequest(pool, requests, CardIdentity(pool, p)); r.None? || !Matches(p, r.value)
  }

  function PickConflicts(pool: Pool, games: seq<Game>, all: seq<Game>, requests: seq<Request>, existing: seq<Pick>,
                         n: nat, now: int): seq<Conflict>
    requires n <= |existing|
  {
    if n == 0 then []
    else
      PickConflicts(pool, games, all, requests, existing, n - 1, now)
      + (if Loses(pool, games, all, requests, existing[n - 1], now) then [LostPick(CardIdentity(pool, existing[n - 1]))] else [])
  }

  /** A request that changes something although its game is locked. */
  predicate TooLate(pool: Pool, games: seq<Game>, existing: seq<Pick>, r: Request, now: int) {
    var prior := FindPick(pool, existing, RequestIdentity(pool, r));
    var game := FindGame(games, r.gameId);
    && !(prior.Some? && Matches(prior.value, r))
    && game.Some? && (WeekLocked(pool.rules, games, now) || GameLocked(game.value, now))
  }

  function LateConflicts(pool: Pool, games: seq<Game>, existing: seq<Pick>, requests: seq<Request>, n: nat,
                         now: int): seq<Conflict>
    requires n <= |requests|
  {
    if n == 0 then []
    else
      LateConflicts(pool, games, existing, requests, n - 1, now)
      + (if TooLate(pool, games, existing, requests[n - 1], now) then [LateRequest(n - 1)] else [])
  }

  // ---------------------------------------------------------------- saving

  /** The lowest slot from `from` on that is free. */
  function FreeFrom(used: set<int>, from: int): (slot: int)
    ensures slot >= from && slot !in used && forall k :: from <= k < slot ==> k in used
    decreases |set x | x in used && x >= from|
  {
    if from in used then
      FewerAbove(used, from);
      FreeFrom(used, from + 1)
    else from
  }

  lemma FewerAbove(used: set<int>, from: int)
    requires from in used
    ensures |set x | x in used && x >= from + 1| < |set x | x in used && x >= from|
  {
    var above, all := set x | x in used && x >= from + 1, set x | x in used && x >= from;
    assert all == above + {from};
  }

  /** The slot the game had before, zero if none. */
  function OldSlot(existing: seq<Pick>, gameId: int): int {
    if |existing| == 0 then 0
    else if existing[|existing| - 1].gameId == Some(gameId) then existing[|existing| - 1].slot
    else OldSlot(existing[..|existing| - 1], gameId)
  }

  function SlotFor(pool: Pool, existing: seq<Pick>, used: set<int>, r: Request): int {
    if pool.poolType.Survivor? then
      if r.slot.Some? && r.slot.value != 0 then r.slot.value else 1
    else
      var slot := OldSlot(existing, r.gameId);
      if slot <= 0 || slot in used then FreeFrom(used, 1) else slot
  }

  /** The stored pick of a request, with the line and probability of the moment. */
  function NewPick(pool: Pool, week: int, g: Game, r: Request, slot: int, id: nat): Pick {
    var kind := KindFor(pool.rules, g);
    Pick(id, week, slot, Some(r.gameId), r.team, r.confidence, g.spreadHome,
         if Supported(kind) then Some(Survival(pool.rules, g, r.team)) else None, Some(kind))
  }

  datatype Adding = Adding(picks: seq<Pick>, used: set<int>)

  /** The requests whose identity no locked pick holds, in order. */
  function AddPicks(pool: Pool, week: int, games: seq<Game>, existing: seq<Pick>, held: set<Option<int>>, used: set<int>,
                    requests: seq<Request>, id: nat): Adding
  {
    if |requests| == 0 then Adding([], used)
    else
      var before := AddPicks(pool, week, games, existing, held, used, requests[..|requests| - 1], id);
      var r := requests[|requests| - 1];
      var game := FindGame(games, r.gameId);
      if RequestIdentity(pool, r) in held || game.None? then before
      else
        var slot := SlotFor(pool, existing, before.used, r);
        Adding(before.picks + [NewPick(pool, week, game.value, r, slot, id + |before.picks|)],
               if pool.poolType.Survivor? then before.used else before.used + {slot})
  }

  datatype Desk = Desk(games: seq<Game>, picks: seq<Pick>, versions: map<int, nat>, nextPick: nat)

  function VersionOf(d: Desk, week: int): nat {
    if week in d.versions then d.versions[week] else 0
  }

  function Stays(pool: Pool, games: seq<Game>, all: seq<Game>, week: int, now: int): Pick -> bool {
    (p: Pick) => p.week != week || PickLocked(pool.rules, games, all, p, now)
  }

  /** Locked picks of the week, and all picks of other weeks. */
  function KeptPicks(pool: Pool, games: seq<Game>, all: seq<Game>, picks: seq<Pick>, week: int, now: int): (r: seq<Pick>)
    ensures forall p :: p in r <==> p in picks && (p.week != week || PickLocked(pool.rules, games, all, p, now))
  {
    Keep(picks, Stays(pool, games, all, week, now))
  }

  function LockedPicks(pool: Pool, games: seq<Game>, all: seq<Game>, picks: seq<Pick>, week: int, now: int): (r: seq<Pick>)
    ensures forall p :: p in r <==> p in picks && p.week == week && PickLocked(pool.rules, games, all, p, now)
  {
    PicksIn(KeptPicks(pool, games, all, picks, week, now), week)
  }

  function HeldIdentities(pool: Pool, picks: seq<Pick>): set<Option<int>> {
    set i | 0 <= i < |picks| :: CardIdentity(pool, picks[i])
  }

  function Slots(picks: seq<Pick>): set<int> {
    set i | 0 <= i < |picks| :: picks[i].slot
  }

  /** The card as a multiset of its entries; survivor cards include the slot. */
  datatype CardLine = CardLine(slot: Option<int>, gameId: Option<int>, team: string, confidence: Option<int>)

  function LineOf(pool: Pool, p: Pick): CardLine {
    CardLine(if pool.poolType.Survivor? then Some(p.slot) else None, p.gameId, p.team, p.confidence)
  }

  function LineOfRequest(pool: Pool, r: Request): CardLine {
    CardLine(if pool.poolType.Survivor? then Some(if r.slot.Some? then r.slot.value else 0) else None,
             Some(r.gameId), r.team, r.confidence)
  }

  function CardLines(pool: Pool, picks: seq<Pick>): multiset<CardLine> {
    if |picks| == 0 then multiset{} else CardLines(pool, picks[..|picks| - 1]) + multiset{LineOf(pool, picks[|picks| - 1])}
  }

  function RequestLines(pool: Pool, all: seq<Request>): multiset<CardLine> {
    if |all| == 0 then multiset{} else RequestLines(pool, all[..|all| - 1]) + multiset{LineOfRequest(pool, all[|all| - 1])}
  }

  datatype CardError = EntryInactive | CardConflict | EntryEliminated | InvalidCard

  /** A declined save may still have stamped games. */
  datatype SaveOutcome =
    | Saved(desk: Desk)
    | Unchanged(desk: Desk)
    | Declined(error: CardError, desk: Desk)

  function StampDesk(pool: Pool, d: Desk, now: int): Desk {
    d.(games := StampDueGames(d.games, pool.season, now))
  }

  function HasConflict(pool: Pool, d: Desk, week: int, requests: seq<Request>, now: int): bool {
    var games, existing := WeekOf(pool, d.games, week), PicksIn(d.picks, week);
    PickConflicts(pool, games, d.games, requests, existing, |existing|, now)
      + LateConflicts(pool, games, existing, requests, |requests|, now) != []
  }

  function HasFinding(pool: Pool, d: Desk, week: int, requests: seq<Request>): bool {
    RequestFindings(pool, d.picks, week, WeekOf(pool, d.games, week), requests, |requests|) != []
  }

  /** The desk after the picks of a card are replaced. */
  function Stored(pool: Pool, d: Desk, week: int, requests: seq<Request>, now: int): Desk {
    var games, existing := WeekOf(pool, d.games, week), PicksIn(d.picks, week);
    var held := LockedPicks(pool, games, d.games, d.picks, week, now);
    var added := AddPicks(pool, week, games, existing, HeldIdentities(pool, held), Slots(held), requests, d.nextPick).picks;
    Desk(d.games, KeptPicks(pool, games, d.games, d.picks, week, now) + added,
         d.versions[week := VersionOf(d, week) + 1], d.nextPick + |added|)
  }

  function SaveCard(pool: Pool, active: bool, d: Desk, week: int, version: nat, requests: seq<Request>, now: int): SaveOutcome {
    var stamped := StampDesk(pool, d, now);
    if !active then Declined(EntryInactive, d)
    else if VersionOf(d, week) != version then
      if RequestLines(pool, requests) == CardLines(pool, PicksIn(d.picks, week)) then Unchanged(stamped)
      else Declined(CardConflict, stamped)
    else if StandingOf(pool, Entry(0, true, d.picks), InSeason(d.games, pool.season), week + 1).Eliminated? then
      Declined(EntryEliminated, d)
    else if HasConflict(pool, stamped, week, requests, now) then Declined(CardConflict, stamped)
    else if HasFinding(pool, stamped, week, requests) then Declined(InvalidCard, stamped)
    else Saved(Stored(pool, stamped, week, requests, now))
  }

  // ---------------------------------------------------------------- judging a stored card

  predicate StoredTeamTwice(card: seq<Pick>, team: string) {
    Count(card, (x: Pick) => x.team == team) > 1
  }

  predicate StoredGameTwice(card: seq<Pick>, gameId: Option<int>) {
    Count(card, (x: Pick) => x.gameId == gameId) > 1
  }

  predicate StoredSlotTwice(card: seq<Pick>, slot: int) {
    Count(card, (x: Pick) => x.slot == slot) > 1
  }

  predicate StoredWeightTwice(card: seq<Pick>, confidence: Option<int>) {
    Count(card, (x: Pick) => x.confidence == confidence) > 1
  }

  function GameCodes(pool: Pool, all: seq<Game>, week: int, games: seq<Game>, p: Pick): seq<Code> {
    var game := GameOf(all, p);
    if game.None? then [LegacyPick]
    else if game.value.season != pool.season then [ForeignGame]
    else if game.value.week != week || FindGame(games, game.value.id).None? then [MovedOutOfWeek]
    else When(!Plays(game.value, p.team), ForeignTeam)
  }

  function StoredTypeCodes(pool: Pool, gameCount: nat, card: seq<Pick>, p: Pick): seq<Code> {
    match pool.poolType
    case Survivor =>
      When(!(1 <= p.slot <= pool.rules.picksPerWeek) || StoredSlotTwice(card, p.slot), InvalidSlot)
    case Confidence =>
      When(p.gameId.Some? && StoredGameTwice(card, p.gameId), DuplicateGame)
      + (if p.confidence.None? then []
         else if !AllowedWeight(pool.rules, gameCount, p.confidence.value) then [InvalidWeight]
         else When(StoredWeightTwice(card, p.confidence), DuplicateWeight))
  }

  /** What is wrong with one stored pick. */
  function StoredCodes(pool: Pool, all: seq<Game>, picks: seq<Pick>, week: int, card: seq<Pick>, p: Pick): seq<Code> {
    var games := WeekOf(pool, all, week);
    GameCodes(pool, all, week, games, p)
    + When(OffList(pool.rules, p.team), NotAllowed)
    + When(Blocked(pool.rules, p.team), BlockedTeam)
    + When(UsedUp(pool, picks, p.team, week), TeamUsed)
    + When(StoredTeamTwice(card, p.team), DuplicateTeam)
    + StoredTypeCodes(pool, |games|, card, p)
  }

  /** What is wrong with the pool's rules for a week of `gameCount` games; kept apart from the findings of the card. */
  function ConfigurationErrors(pool: Pool, gameCount: nat): seq<Finding> {
    if WeightsMisfit(pool, gameCount) || (pool.poolType.Confidence? && !WeightsPositive(pool.rules))
    then [WeightCountMismatch] else []
  }

  function CardFindings(pool: Pool, all: seq<Game>, picks: seq<Pick>, week: int, n: nat): seq<Finding>
    requires n <= |PicksIn(picks, week)|
  {
    var card := PicksIn(picks, week);
    if n == 0 then []
    else CardFindings(pool, all, picks, week, n - 1) + Tagged(n - 1, StoredCodes(pool, all, picks, week, card, card[n - 1]))
  }

  /** The picks of the card without a code. */
  function ValidPicks(pool: Pool, all: seq<Game>, picks: seq<Pick>, week: int, n: nat): seq<Pick>
    requires n <= |PicksIn(picks, week)|
  {
    var card := PicksIn(picks, week);
    if n == 0 then []
    else
      ValidPicks(pool, all, picks, week, n - 1)
      + (if StoredCodes(pool, all, picks, week, card, card[n - 1]) == [] then [card[n - 1]] else [])
  }

  function SelectedGames(valid: seq<Pick>, games: seq<Game>): set<int> {
    set i | 0 <= i < |valid| && valid[i].gameId.Some? && FindGame(games, valid[i].gameId.value).Some? :: valid[i].gameId.value
  }

  function SelectedWeights(pool: Pool, gameCount: nat, valid: seq<Pick>): set<int> {
    set i | 0 <= i < |valid| && valid[i].confidence.Some? && AllowedWeight(pool.rules, gameCount, valid[i].confidence.value)
      :: valid[i].confidence.value
  }

  predicate AllLocked(games: seq<Game>, now: int) {
    forall i :: 0 <= i < |games| ==> GameLocked(games[i], now)
  }

  predicate AllPicksLocked(rules: Rules, games: seq<Game>, all: seq<Game>, valid: seq<Pick>, now: int) {
    forall i :: 0 <= i < |valid| ==> PickLocked(rules, games, all, valid[i], now)
  }

  predicate LockedAndUnpicked(games: seq<Game>, valid: seq<Pick>, now: int) {
    exists i :: 0 <= i < |games| && GameLocked(games[i],
      now) && forall k :: 0 <= k < |valid| ==> valid[k].gameId != Some(games[i].id)
  }

  datatype CardState = NeedsRepair | LockedIncomplete | LockedComplete | CardComplete | CardDraft

  datatype Progress = Progress(missing: int, allLocked: bool, cannotFinish: bool)

  function ProgressOf(pool: Pool, all: seq<Game>, week: int, valid: seq<Pick>, now: int): Progress {
    var games := WeekOf(pool, all, week);
    var weekLocked := WeekLocked(pool.rules, games, now);
    match pool.poolType
    case Survivor =>
      var selected := |Slots(valid)|;
      var missing := if pool.rules.picksPerWeek > selected then pool.rules.picksPerWeek - selected else 0;
      Progress(missing,
               selected == pool.rules.picksPerWeek && AllPicksLocked(pool.rules, games, all, valid, now),
               missing > 0 && (weekLocked || (games != [] && AllLocked(games, now))))
    case Confidence =>
      var selected, weighted := |SelectedGames(valid, games)|, |SelectedWeights(pool, |games|, valid)|;
      var missing := if selected < weighted then |games| - selected else |games| - weighted;
      Progress(missing, selected == |games| && AllLocked(games, now),
               LockedAndUnpicked(games, valid, now) || (weekLocked && missing > 0))
  }

  /** `faulty` says that there are findings or configuration errors. */
  function StateFrom(faulty: bool, p: Progress): CardState {
    if faulty then NeedsRepair
    else if p.missing != 0 && p.cannotFinish then LockedIncomplete
    else if p.missing == 0 && p.allLocked then LockedComplete
    else if p.missing == 0 then CardComplete
    else CardDraft
  }

  function StateOf(pool: Pool, all: seq<Game>, picks: seq<Pick>, week: int, now: int): CardState {
    var n := |PicksIn(picks, week)|;
    StateFrom(CardFindings(pool, all, picks, week, n) != [] || ConfigurationErrors(pool, |WeekOf(pool, all, week)|) != [],
              ProgressOf(pool, all, week, ValidPicks(pool, all, picks, week, n), now))
  }
}
