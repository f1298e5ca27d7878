/**
  What a stored card is judged to be, when a save is accepted and when a pick counts as locked, told on games, picks
  and requests.
*/
module StateLaws {
  import opened Wrappers
  import opened Sets
  import opened Sequences
  import opened PoolModel
  import opened PoolOutcomes
  import opened WeeklyCard
  import opened CardAgreement
  import opened CodeLaws
  import opened GradeLaws

  // ---------------------------------------------------------------- locks

  /** The game carries a lock, or its kickoff has come. */
  ghost predicate Begun(g: Game, now: int) {
    g.lockedAt != None || g.kickoff <= now
  }

  ghost predicate AnyBegun(games: seq<Game>, now: int) {
    exists g :: g in games && Begun(g, now)
  }

  ghost predicate AllBegun(games: seq<Game>, now: int) {
    forall g :: g in games ==> Begun(g, now)
  }

  /** The pick cannot be changed: its game has begun, or with locks at the start of the week any game of it. */
  ghost predicate IsLocked(rules: Rules, games: seq<Game>, all: seq<Game>, p: Pick, now: int) {
    match rules.lockMode
    case GameStart => exists g :: g in all && p.gameId == Some(g.id) && Begun(g, now)
    case WeekStart => AnyBegun(games, now)
  }

  lemma AnyLockedTold(games: seq<Game>, now: int)
    ensures AnyLocked(games, now) <==> AnyBegun(games, now)
    ensures AllLocked(games, now) <==> AllBegun(games, now)
  {
    if g :| g in games && Begun(g, now) {
      var i :| 0 <= i < |games| && games[i] == g;
      assert GameLocked(games[i], now);
    }
    if i :| 0 <= i < |games| && GameLocked(games[i], now) {
      assert Begun(games[i], now);
    }
    if g :| g in games && !Begun(g, now) {
      var i :| 0 <= i < |games| && games[i] == g;
      assert !GameLocked(games[i], now);
    }
    if i :| 0 <= i < |games| && !GameLocked(games[i], now) {
      assert !Begun(games[i], now);
    }
  }

  lemma LockedTold(rules: Rules, games: seq<Game>, all: seq<Game>, p: Pick, now: int)
    requires GamesNumbered(all)
    ensures PickLocked(rules, games, all, p, now) <==> IsLocked(rules, games, all, p, now)
  {
    AnyLockedTold(games, now);
    if rules.lockMode == GameStart && GameOf(all, p).Some? {
      var g := GameOf(all, p).value;
      forall h | h in all && p.gameId == Some(h.id) ensures h == g {
      }
    }
  }

  // ---------------------------------------------------------------- states of a card

  ghost predicate TakesSlot(card: seq<Pick>, slot: int) {
    exists p :: p in card && p.slot == slot
  }

  /** Every slot of the week is taken. */
  ghost predicate AllSlotsTaken(rules: Rules, card: seq<Pick>) {
    forall slot :: 1 <= slot <= rules.picksPerWeek ==> TakesSlot(card, slot)
  }

  lemma SlotsHave(card: seq<Pick>, slot: int)
    ensures slot in Slots(card) <==> TakesSlot(card, slot)
  {
    if p :| p in card && p.slot == slot {
      var i :| 0 <= i < |card| && card[i] == p;
      assert card[i].slot == slot;
    }
  }

  lemma SlotsFill(rules: Rules, card: seq<Pick>)
    requires forall i :: 0 <= i < |card| ==> 1 <= card[i].slot <= rules.picksPerWeek
    ensures |Slots(card)| <= rules.picksPerWeek
    ensures |Slots(card)| == rules.picksPerWeek <==> AllSlotsTaken(rules, card)
  {
    hide Slots, TakesSlot;
    var all, taken := OneTo(rules.picksPerWeek), Slots(card);
    forall slot ensures slot in taken <==> TakesSlot(card, slot) {
      SlotsHave(card, slot);
    }
    forall slot | slot in taken ensures slot in all {
      SlotInRange(rules, card, slot);
    }
    SubsetSize(taken, all);
    if AllSlotsTaken(rules, card) {
      assert taken == all;
    }
  }

  lemma SlotInRange(rules: Rules, card: seq<Pick>, slot: int)
    requires forall i :: 0 <= i < |card| ==> 1 <= card[i].slot <= rules.picksPerWeek
    requires TakesSlot(card, slot)
    ensures 1 <= slot <= rules.picksPerWeek
  {
  }

  /** The card has neither a finding nor a configuration error. */
  ghost predicate Sound(pool: Pool, all: seq<Game>, picks: seq<Pick>, week: int) {
    && CardFindings(pool, all, picks, week, |PicksIn(picks, week)|) == []
    && ConfigurationErrors(pool, |WeekOf(pool, all, week)|) == []
  }

  /** The week can no longer be finished: its games have begun, all of them, or one with locks at the start of the week. */
  ghost predicate WeekIsOver(rules: Rules, games: seq<Game>, now: int) {
    || (games != [] && AllBegun(games, now))
    || (rules.lockMode == WeekStart && AnyBegun(games, now))
  }

  lemma SurvivorIsValid(pool: Pool, all: seq<Game>, picks: seq<Pick>, week: int)
    requires pool.poolType == Survivor && CardFindings(pool, all, picks, week, |PicksIn(picks, week)|) == []
    ensures ValidPicks(pool, all, picks, week, |PicksIn(picks, week)|) == PicksIn(picks, week)
    ensures forall i :: 0 <= i < |PicksIn(picks, week)| ==> 1 <= PicksIn(picks, week)[i].slot <= pool.rules.picksPerWeek
  {
    hide PicksIn, CardFindings, ValidPicks, StoredCodes;
    var card := PicksIn(picks, week);
    CardFindingsAre(pool, all, picks, week, |card|);
    AllValid(pool, all, picks, week, |card|);
    assert card[..|card|] == card;
    forall i | 0 <= i < |card| ensures 1 <= card[i].slot <= pool.rules.picksPerWeek {
      SlotIsValid(pool, all, picks, week, card, card[i]);
    }
  }

  lemma SlotIsValid(pool: Pool, all: seq<Game>, picks: seq<Pick>, week: int, card: seq<Pick>, p: Pick)
    requires pool.poolType == Survivor && StoredCodes(pool, all, picks, week, card, p) == []
    ensures 1 <= p.slot <= pool.rules.picksPerWeek
  {
    hide GameCodes, OffList, Blocked, UsedUp, StoredTeamTwice, StoredSlotTwice;
  }

  lemma AllPicksLockedTold(rules: Rules, games: seq<Game>, all: seq<Game>, card: seq<Pick>, now: int)
    requires GamesNumbered(all)
    ensures AllPicksLocked(rules, games, all, card, now) <==> forall p :: p in card ==> IsLocked(rules, games, all, p, now)
  {
    hide IsLocked, PickLocked, GamesNumbered;
    forall p ensures PickLocked(rules, games, all, p, now) <==> IsLocked(rules, games, all, p, now) {
      LockedTold(rules, games, all, p, now);
    }
  }

  /** The state of a survivor card. */
  lemma SurvivorStateTold(pool: Pool, all: seq<Game>, picks: seq<Pick>, week: int, now: int)
    requires pool.poolType == Survivor && GamesNumbered(all)
    ensures
      var games, card := WeekOf(pool, all, week), PicksIn(picks, week);
      var full := AllSlotsTaken(pool.rules, card);
      var locked := forall p :: p in card ==> IsLocked(pool.rules, games, all, p, now);
      match StateOf(pool, all, picks, week, now)
      case NeedsRepair => !Sound(pool, all, picks, week)
      case LockedIncomplete => Sound(pool, all, picks, week) && !full && WeekIsOver(pool.rules, games, now)
      case CardDraft => Sound(pool, all, picks, week) && !full && !WeekIsOver(pool.rules, games, now)
      case LockedComplete => Sound(pool, all, picks, week) && full && locked
      case CardComplete => Sound(pool, all, picks, week) && full && !locked
  {
    hide PicksIn, WeekOf, CardFindings, ValidPicks, ConfigurationErrors, IsLocked, AllSlotsTaken, AnyBegun, AllBegun,
         GamesNumbered, Slots, AllPicksLocked, AnyLocked, AllLocked;
    var games, card := WeekOf(pool, all, week), PicksIn(picks, week);
    AnyLockedTold(games, now);
    AllPicksLockedTold(pool.rules, games, all, card, now);
    if Sound(pool, all, picks, week) {
      SurvivorIsValid(pool, all, picks, week);
      SlotsFill(pool.rules, card);
    }
  }

  // ---------------------------------------------------------------- confidence cards

  /** A game without a pick has begun, or with locks at the start of the week any game. */
  ghost predicate CannotFinish(rules: Rules, games: seq<Game>, card: seq<Pick>, now: int) {
    || (exists g :: g in games && Begun(g, now) && !PicksGame(card, g.id))
    || (rules.lockMode == WeekStart && AnyBegun(games, now))
  }

  lemma UnpickedTold(games: seq<Game>, card: seq<Pick>, now: int)
    ensures LockedAndUnpicked(games, card, now) <==> exists g :: g in games && Begun(g, now) && !PicksGame(card, g.id)
  {
    if i :| 0 <= i < |games| && GameLocked(games[i], now) && forall k :: 0 <= k < |card| ==> card[k].gameId != Some(games[i].id) {
      assert games[i] in games && Begun(games[i], now) && !PicksGame(card, games[i].id);
    }
    if g :| g in games && Begun(g, now) && !PicksGame(card, g.id) {
      var i :| 0 <= i < |games| && games[i] == g;
      assert GameLocked(games[i], now);
    }
  }

  lemma NoErrorMeansFit(pool: Pool, gameCount: nat)
    requires ConfigurationErrors(pool, gameCount) == []
    ensures !WeightsMisfit(pool, gameCount)
  {
  }

  /** The state of a confidence card. */
  lemma ConfidenceStateTold(pool: Pool, all: seq<Game>, picks: seq<Pick>, week: int, now: int)
    requires pool.poolType == Confidence && GamesNumbered(all)
    ensures
      var games, card := WeekOf(pool, all, week), PicksIn(picks, week);
      var full := PairsAll(pool, games, card);
      match StateOf(pool, all, picks, week, now)
      case NeedsRepair => !Sound(pool, all, picks, week)
      case LockedIncomplete => Sound(pool, all, picks, week) && !full && CannotFinish(pool.rules, games, card, now)
      case CardDraft => Sound(pool, all, picks, week) && !full && !CannotFinish(pool.rules, games, card, now)
      case LockedComplete => Sound(pool, all, picks, week) && full && AllBegun(games, now)
      case CardComplete => Sound(pool, all, picks, week) && full && !AllBegun(games, now)
  {
    hide PicksIn, WeekOf, CardFindings, ValidPicks, ConfigurationErrors, AnyBegun, AllBegun, PairsAll, CardSound,
         GamesNumbered, SelectedGames, SelectedWeights, AnyLocked, AllLocked, LockedAndUnpicked, WeightsMisfit, WeightsPositive;
    var games, card := WeekOf(pool, all, week), PicksIn(picks, week);
    AnyLockedTold(games, now);
    UnpickedTold(games, card, now);
    if Sound(pool, all, picks, week) {
      NoFindingsMeansSound(pool, all, picks, week);
      WeekNumbered(pool, all, week);
      NoErrorMeansFit(pool, |games|);
      NothingMissingIsPaired(pool, games, card);
    }
  }

  // ---------------------------------------------------------------- conflicts

  /** Of the requests for the slot or the game of the pick, the last one asks for the same pick. */
  ghost predicate AsksAgain(pool: Pool, all: seq<Request>, p: Pick) {
    exists k :: 0 <= k < |all| && IsSame(pool, p, all[k]) && forall j :: k < j < |all| ==> !Competes(pool, p, all[j])
  }

  /** The request is for the slot of the pick, or on a confidence card for its game. */
  ghost predicate Competes(pool: Pool, p: Pick, r: Request) {
    match pool.poolType
    case Survivor => r.slot == Some(p.slot)
    case Confidence => p.gameId == Some(r.gameId)
  }

  ghost predicate IsSame(pool: Pool, p: Pick, r: Request) {
    && Competes(pool, p, r)
    && p.gameId == Some(r.gameId) && p.team == r.team && p.confidence == r.confidence
  }

  lemma {:induction false} LastRequest(pool: Pool, all: seq<Request>, identity: Option<int>) returns (k: nat)
    requires FindRequest(pool, all, identity).Some?
    ensures k < |all| && FindRequest(pool, all, identity) == Some(all[k]) && RequestIdentity(pool, all[k]) == identity
    ensures forall j :: k < j < |all| ==> RequestIdentity(pool, all[j]) != identity
  {
    k := |all| - 1;
    if RequestIdentity(pool, all[k]) != identity {
      k := LastRequest(pool, all[..k], identity);
    }
  }

  lemma CompetesTold(pool: Pool, p: Pick, r: Request)
    ensures Competes(pool, p, r) <==> CardIdentity(pool, p).Some? && RequestIdentity(pool, r) == CardIdentity(pool, p)
    ensures IsSame(pool, p, r) <==> Competes(pool, p, r) && Matches(p, r)
  {
  }

  lemma LastRequestTold(pool: Pool, all: seq<Request>, p: Pick)
    ensures
      var r := FindRequest(pool, all, CardIdentity(pool, p));
      (r.Some? && Matches(p, r.value)) <==> AsksAgain(pool, all, p)
  {
    hide FindRequest, Competes, IsSame, Matches, CardIdentity, RequestIdentity;
    forall r: Request
      ensures Competes(pool, p, r) <==> CardIdentity(pool, p).Some? && RequestIdentity(pool, r) == CardIdentity(pool, p)
      ensures IsSame(pool, p, r) <==> Competes(pool, p, r) && Matches(p, r)
    {
      CompetesTold(pool, p, r);
    }
    if FindRequest(pool, all, CardIdentity(pool, p)).Some? {
      var k := LastRequest(pool, all, CardIdentity(pool, p));
      if AsksAgain(pool, all, p) {
        var m :| 0 <= m < |all| && IsSame(pool, p, all[m]) && forall j :: m < j < |all| ==> !Competes(pool, p, all[j]);
        assert m == k;
      }
    }
  }

  /** The request changes what its game has on the card: no pick for its slot or game, the last one if more, is the same. */
  ghost predicate Changes(pool: Pool, existing: seq<Pick>, r: Request) {
    forall i :: 0 <= i < |existing| && IsSame(pool, existing[i], r) ==>
      exists j :: i < j < |existing| && Competes(pool, existing[j], r)
  }

  /** The game of the request has begun, or with locks at the start of the week some game of the week has. */
  ghost predicate OnLockedGame(rules: Rules, games: seq<Game>, r: Request, now: int) {
    exists g :: g in games && g.id == r.gameId && (Begun(g, now) || (rules.lockMode == WeekStart && AnyBegun(games, now)))
  }

  lemma LosesTold(pool: Pool, games: seq<Game>, all: seq<Game>, requests: seq<Request>, p: Pick, now: int)
    requires GamesNumbered(all)
    ensures Loses(pool, games, all, requests, p, now) <==>
            IsLocked(pool.rules, games, all, p, now) && !AsksAgain(pool, requests, p)
  {
    hide PickLocked, IsLocked, AsksAgain, FindRequest;
    LockedTold(pool.rules, games, all, p, now);
    LastRequestTold(pool, requests, p);
  }

  lemma TooLateTold(pool: Pool, d: Desk, week: int, games: seq<Game>, card: seq<Pick>, r: Request, now: int)
    requires GamesNumbered(d.games) && games == WeekOf(pool, d.games, week)
    ensures TooLate(pool, games, card, r, now) <==>
            Changes(pool, card, r) && OnLockedGame(pool.rules, games, r, now)
  {
    hide WeekOf, Changes, FindPick, AnyBegun, AnyLocked;
    WeekNumbered(pool, d.games, week);
    ChangesTold(pool, card, r);
    AnyLockedTold(games, now);
    if FindGame(games, r.gameId).Some? {
      var g := FindGame(games, r.gameId).value;
      FoundOnly(games, g);
    }
  }

  lemma FoundOnly(games: seq<Game>, g: Game)
    requires GamesNumbered(games) && g in games
    ensures forall h :: h in games && h.id == g.id ==> h == g
  {
  }

  lemma {:induction false} PickConflictsTold(pool: Pool, games: seq<Game>, all: seq<Game>, requests: seq<Request>,
                                             existing: seq<Pick>, n: nat, now: int)
    requires n <= |existing|
    ensures PickConflicts(pool, games, all, requests, existing, n, now) != [] <==>
            exists p :: p in existing[..n] && Loses(pool, games, all, requests, p, now)
  {
    hide Loses;
    if n > 0 {
      PickConflictsTold(pool, games, all, requests, existing, n - 1, now);
      assert existing[..n] == existing[..n - 1] + [existing[n - 1]];
    }
  }

  lemma {:induction false} LateConflictsTold(pool: Pool, games: seq<Game>, existing: seq<Pick>, requests: seq<Request>, n: nat,
                                             now: int)
    requires n <= |requests|
    ensures LateConflicts(pool, games, existing, requests, n, now) != [] <==>
            exists r :: r in requests[..n] && TooLate(pool, games, existing, r, now)
  {
    hide TooLate;
    if n > 0 {
      LateConflictsTold(pool, games, existing, requests, n - 1, now);
      assert requests[..n] == requests[..n - 1] + [requests[n - 1]];
    }
  }

  lemma {:induction false} LastPick(pool: Pool, existing: seq<Pick>, identity: Option<int>) returns (k: nat)
    requires FindPick(pool, existing, identity).Some?
    ensures k < |existing| && FindPick(pool, existing, identity) == Some(existing[k])
    ensures CardIdentity(pool, existing[k]) == identity
    ensures forall j :: k < j < |existing| ==> CardIdentity(pool, existing[j]) != identity
  {
    k := |existing| - 1;
    if CardIdentity(pool, existing[k]) != identity {
      k := LastPick(pool, existing[..k], identity);
    }
  }

  /** A request without a slot competes with no pick. */
  lemma IdentityIsThere(pool: Pool, r: Request)
    ensures RequestIdentity(pool, r).None? ==> forall p :: CardIdentity(pool, p) != RequestIdentity(pool, r)
  {
  }

  lemma ChangesTold(pool: Pool, existing: seq<Pick>, r: Request)
    ensures
      var prior := FindPick(pool, existing, RequestIdentity(pool, r));
      (prior.Some? && Matches(prior.value, r)) <==> !Changes(pool, existing, r)
  {
    hide FindPick, Competes, IsSame, Matches, CardIdentity, RequestIdentity;
    forall p: Pick
      ensures Competes(pool, p, r) <==> CardIdentity(pool, p).Some? && RequestIdentity(pool, r) == CardIdentity(pool, p)
      ensures IsSame(pool, p, r) <==> Competes(pool, p, r) && Matches(p, r)
    {
      CompetesTold(pool, p, r);
    }
    IdentityIsThere(pool, r);
    if FindPick(pool, existing, RequestIdentity(pool, r)).Some? {
      var k := LastPick(pool, existing, RequestIdentity(pool, r));
    }
  }

  /**
    A save conflicts exactly when a locked pick of the week is not asked for again as it is, or a request changes
    the card on a game that has begun, or once locks at the start of the week hold.
  */
  lemma ConflictExactlyWhen(pool: Pool, d: Desk, week: int, requests: seq<Request>, now: int)
    requires GamesNumbered(d.games)
    ensures
      var games, card := WeekOf(pool, d.games, week), PicksIn(d.picks, week);
      HasConflict(pool, d, week, requests, now) <==>
        || (exists p :: p in card && IsLocked(pool.rules, games, d.games, p, now) && !AsksAgain(pool, requests, p))
        || (exists r :: r in requests && Changes(pool, card, r) && OnLockedGame(pool.rules, games, r, now))
  {
    hide WeekOf, PicksIn, GamesNumbered, IsLocked, PickLocked, AsksAgain, Changes, OnLockedGame, FindRequest, FindPick, Matches,
         Loses, TooLate;
    var games, card := WeekOf(pool, d.games, week), PicksIn(d.picks, week);
    forall p ensures Loses(pool, games, d.games, requests, p, now) <==>
                     IsLocked(pool.rules, games, d.games, p, now) && !AsksAgain(pool, requests, p) {
      LosesTold(pool, games, d.games, requests, p, now);
    }
    forall r | r in requests ensures TooLate(pool, games, card, r, now) <==>
                                     Changes(pool, card, r) && OnLockedGame(pool.rules, games, r, now) {
      TooLateTold(pool, d, week, games, card, r, now);
    }
    PickConflictsTold(pool, games, d.games, requests, card, |card|, now);
    LateConflictsTold(pool, games, card, requests, |requests|, now);
  }

  // ---------------------------------------------------------------- accepted saves

  /** A game of the season that had begun without a lock gets one; nothing else changes. */
  lemma StampsTold(pool: Pool, d: Desk, now: int, i: nat)
    requires i < |d.games|
    ensures
      var was, g := d.games[i], StampDesk(pool, d, now).games[i];
      && g == was.(lockedAt := g.lockedAt)
      && (was.lockedAt.Some? || was.season != pool.season || was.kickoff > now ==> g.lockedAt == was.lockedAt)
      && (was.lockedAt.None? && was.season == pool.season && was.kickoff <= now ==> g.lockedAt == Some(now))
  {
  }

  /** The entry is out before the week after: a survivor entry with a lost pick up to this week. */
  ghost predicate IsOut(pool: Pool, d: Desk, week: int) {
    && pool.poolType == Survivor
    && exists i :: 0 <= i < |d.picks| && d.picks[i].week <= week
         && LostOnScores(pool, d.picks, InSeason(d.games, pool.season), i)
  }

  /** The request has an objection, or the weights misfit. */
  ghost predicate IsFaulty(pool: Pool, d: Desk, week: int, requests: seq<Request>) {
    var games := WeekOf(pool, d.games, week);
    || Misfits(pool, |games|)
    || exists i, c :: 0 <= i < |requests| && Objects(pool, d.picks, week, games, requests, i, c)
  }

  lemma FaultyTold(pool: Pool, d: Desk, week: int, requests: seq<Request>)
    requires GamesNumbered(d.games)
    ensures HasFinding(pool, d, week, requests) <==> IsFaulty(pool, d, week, requests)
  {
    hide WeekOf, RequestFindings, Objects, Misfits, GamesNumbered;
    var games := WeekOf(pool, d.games, week);
    var findings := RequestFindings(pool, d.picks, week, games, requests, |requests|);
    WeekNumbered(pool, d.games, week);
    if findings != [] {
      RequestFindingsTold(pool, d.picks, week, games, requests, |requests|, findings[0]);
    }
    if Misfits(pool, |games|) {
      RequestFindingsTold(pool, d.picks, week, games, requests, |requests|, WeightCountMismatch);
    }
    if i, c :| 0 <= i < |requests| && Objects(pool, d.picks, week, games, requests, i, c) {
      RequestFindingsTold(pool, d.picks, week, games, requests, |requests|, PickFinding(i, c));
    }
  }

  lemma OutTold(pool: Pool, d: Desk, week: int)
    requires GamesNumbered(d.games)
    ensures StandingOf(pool, Entry(0, true, d.picks), InSeason(d.games, pool.season), week + 1) == Eliminated <==>
            IsOut(pool, d, week)
  {
    hide StandingOf, LostOnScores, InSeason, GamesNumbered;
    WeekNumbered(pool, d.games, week);
    EliminatedExactlyWhen(pool, Entry(0, true, d.picks), InSeason(d.games, pool.season), week + 1);
  }

  /**
    A save is accepted exactly when the entry is active and not out, the version is the stored one, nothing locked is
    changed and no request has an objection.
  */
  lemma SavedExactlyWhen(pool: Pool, active: bool, d: Desk, week: int, version: nat, requests: seq<Request>, now: int)
    requires GamesNumbered(d.games)
    ensures
      var stamped := StampDesk(pool, d, now);
      SaveCard(pool, active, d, week, version, requests, now).Saved? <==>
        && active && version == (if week in d.versions then d.versions[week] else 0) && !IsOut(pool, d, week)
        && !HasConflict(pool, stamped, week, requests, now) && !IsFaulty(pool, stamped, week, requests)
  {
    hide HasConflict, HasFinding, IsFaulty, IsOut, StandingOf, Stored, CardLines, RequestLines, StampDueGames;
    OutTold(pool, d, week);
    StampNumbered(pool, d, now);
    FaultyTold(pool, StampDesk(pool, d, now), week, requests);
  }

  /** The request asks for just this pick; on a survivor card for its slot too, where no slot means slot zero. */
  ghost predicate AsksFor(pool: Pool, r: Request, p: Pick) {
    && p.gameId == Some(r.gameId) && p.team == r.team && p.confidence == r.confidence
    && (pool.poolType == Survivor ==> r.slot == Some(p.slot) || (r.slot == None && p.slot == 0))
  }

  /** The requests ask for the picks of the card, each for one of its own. */
  ghost predicate AsksForCard(pool: Pool, requests: seq<Request>, card: seq<Pick>, places: seq<nat>) {
    && |places| == |requests| == |card|
    && (forall i :: 0 <= i < |places| ==> places[i] < |card| && AsksFor(pool, requests[i], card[places[i]]))
    && forall i, j :: 0 <= i < j < |places| ==> places[i] != places[j]
  }

  lemma {:induction false} RequestLinesAre(pool: Pool, requests: seq<Request>)
    ensures RequestLines(pool, requests) == multiset(Mapped(requests, (r: Request) => LineOfRequest(pool, r)))
  {
    hide LineOfRequest;
    if |requests| > 0 {
      var n := |requests| - 1;
      RequestLinesAre(pool, requests[..n]);
      assert Mapped(requests, (r: Request) => LineOfRequest(pool, r))
             == Mapped(requests[..n], (r: Request) => LineOfRequest(pool, r)) + [LineOfRequest(pool, requests[n])];
    }
  }

  lemma {:induction false} CardLinesAre(pool: Pool, card: seq<Pick>)
    ensures CardLines(pool, card) == multiset(Mapped(card, (p: Pick) => LineOf(pool, p)))
  {
    hide LineOf;
    if |card| > 0 {
      var n := |card| - 1;
      CardLinesAre(pool, card[..n]);
      assert Mapped(card, (p: Pick) => LineOf(pool, p))
             == Mapped(card[..n], (p: Pick) => LineOf(pool, p)) + [LineOf(pool, card[n])];
    }
  }

  lemma LineTold(pool: Pool, r: Request, p: Pick)
    ensures LineOfRequest(pool, r) == LineOf(pool, p) <==> AsksFor(pool, r, p)
  {
  }

  lemma SameLinesTold(pool: Pool, requests: seq<Request>, card: seq<Pick>)
    ensures RequestLines(pool, requests) == CardLines(pool, card) <==>
            exists places :: AsksForCard(pool, requests, card, places)
  {
    hide LineOfRequest, LineOf, AsksFor, RequestLines, CardLines;
    RequestLinesAre(pool, requests);
    CardLinesAre(pool, card);
    var wanted := Mapped(requests, (r: Request) => LineOfRequest(pool, r));
    var stored := Mapped(card, (p: Pick) => LineOf(pool, p));
    forall r, p ensures LineOfRequest(pool, r) == LineOf(pool, p) <==> AsksFor(pool, r, p) {
      LineTold(pool, r, p);
    }
    if multiset(wanted) == multiset(stored) {
      var places := MatchUp(wanted, stored);
      assert AsksForCard(pool, requests, card, places);
    }
    if places :| AsksForCard(pool, requests, card, places) {
      assert MatchedUp(wanted, stored, places);
      MatchedElements(wanted, stored, places);
    }
  }

  /** With another version than the stored one the same card is answered as unchanged, and any other is refused. */
  lemma UnchangedExactlyWhen(pool: Pool, active: bool, d: Desk, week: int, version: nat, requests: seq<Request>, now: int)
    ensures
      SaveCard(pool, active, d, week, version, requests, now).Unchanged? <==>
        && active && version != (if week in d.versions then d.versions[week] else 0)
        && exists places :: AsksForCard(pool, requests, PicksIn(d.picks, week), places)
  {
    hide HasConflict, HasFinding, StandingOf, Stored, CardLines, RequestLines, StampDueGames, PicksIn, AsksForCard;
    SameLinesTold(pool, requests, PicksIn(d.picks, week));
  }

  lemma StampNumbered(pool: Pool, d: Desk, now: int)
    requires GamesNumbered(d.games)
    ensures GamesNumbered(StampDesk(pool, d, now).games)
  {
  }
}
