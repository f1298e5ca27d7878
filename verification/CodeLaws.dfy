/**
  What the two checks of a card object to, code by code, and what they call a conflict, told on the fields of
  requests, picks and games.
*/
module CodeLaws {
  import opened Wrappers
  import opened Sequences
  import opened PoolModel
  import opened PoolOutcomes
  import opened WeeklyCard
  import opened ChanceLaws

  // ---------------------------------------------------------------- a requested pick

  /** A weight of the configured ones, or of one up to the number of games. */
  ghost predicate MayWeigh(rules: Rules, gameCount: nat, w: int) {
    if rules.confidenceWeights == [] then 1 <= w <= gameCount else w in rules.confidenceWeights
  }

  /** The check of a request objects with this code. */
  ghost predicate Objects(pool: Pool, picks: seq<Pick>, week: int, games: seq<Game>, all: seq<Request>, i: nat, c: Code)
    requires i < |all|
  {
    var r, rules := all[i], pool.rules;
    if forall g :: g in games ==> g.id != r.gameId then c == ForeignGame
    else
      match c
      case ForeignTeam => forall g :: g in games && g.id == r.gameId ==> r.team != g.away && r.team != g.home
      case NotAllowed => rules.allowedTeams != [] && !OnList(rules.allowedTeams, r.team)
      case BlockedTeam => OnList(rules.blockedTeams, r.team)
      case TeamUsed =>
        && pool.poolType == Survivor && rules.maxTeamUses.Some?
        && Count(picks, (q: Pick) => q.team == r.team && q.week < week) >= rules.maxTeamUses.value
      case DuplicateTeam => exists j :: 0 <= j < |all| && j != i && all[j].team == r.team
      case DuplicateGame => exists j :: 0 <= j < |all| && j != i && all[j].gameId == r.gameId
      case InvalidSlot =>
        && pool.poolType == Survivor
        && (r.slot.None? || r.slot.value < 1 || r.slot.value > rules.picksPerWeek
            || exists j :: 0 <= j < |all| && j != i && all[j].slot == r.slot)
      case InvalidWeight =>
        r.confidence.Some? && (pool.poolType == Confidence ==> !MayWeigh(rules, |games|, r.confidence.value))
      case DuplicateWeight =>
        && pool.poolType == Confidence && r.confidence.Some? && MayWeigh(rules, |games|, r.confidence.value)
        && exists j :: 0 <= j < |all| && j != i && all[j].confidence == r.confidence
      case _ => false
  }

  lemma TwiceTold(all: seq<Request>, i: nat)
    requires i < |all|
    ensures TeamTwice(all, all[i].team) <==> exists j :: 0 <= j < |all| && j != i && all[j].team == all[i].team
    ensures GameTwice(all, all[i].gameId) <==> exists j :: 0 <= j < |all| && j != i && all[j].gameId == all[i].gameId
    ensures SlotTwice(all, all[i].slot) <==> exists j :: 0 <= j < |all| && j != i && all[j].slot == all[i].slot
    ensures WeightTwice(all, all[i].confidence) <==>
            exists j :: 0 <= j < |all| && j != i && all[j].confidence == all[i].confidence
  {
    hide Count;
    var team, gameId, slot, weight := all[i].team, all[i].gameId, all[i].slot, all[i].confidence;
    CountsAnother(all, (x: Request) => x.team == team, i);
    CountsAnother(all, (x: Request) => x.gameId == gameId, i);
    CountsAnother(all, (x: Request) => x.slot == slot, i);
    CountsAnother(all, (x: Request) => x.confidence == weight, i);
  }

  lemma WhenHas(b: bool, code: Code, c: Code)
    ensures c in When(b, code) <==> b && c == code
  {
  }

  lemma TypeCodesAre(pool: Pool, gameCount: nat, all: seq<Request>, r: Request, c: Code)
    ensures c in TypeCodes(pool, gameCount, all, r) <==>
            match c
            case DuplicateGame => GameTwice(all, r.gameId)
            case InvalidSlot =>
              pool.poolType == Survivor
              && (r.slot.None? || !(1 <= r.slot.value <= pool.rules.picksPerWeek) || SlotTwice(all, r.slot))
            case InvalidWeight =>
              r.confidence.Some? && (pool.poolType == Confidence ==> !AllowedWeight(pool.rules, gameCount, r.confidence.value))
            case DuplicateWeight =>
              pool.poolType == Confidence && r.confidence.Some?
              && AllowedWeight(pool.rules, gameCount, r.confidence.value) && WeightTwice(all, r.confidence)
            case _ => false
  {
    hide GameTwice, SlotTwice, WeightTwice, AllowedWeight;
  }

  lemma RequestCodesAre(pool: Pool, picks: seq<Pick>, week: int, games: seq<Game>, all: seq<Request>, r: Request, c: Code)
    requires FindGame(games, r.gameId).Some?
    ensures c in RequestCodes(pool, picks, week, games, all, r) <==>
            match c
            case ForeignTeam => !Plays(FindGame(games, r.gameId).value, r.team)
            case NotAllowed => OffList(pool.rules, r.team)
            case BlockedTeam => Blocked(pool.rules, r.team)
            case TeamUsed => UsedUp(pool, picks, r.team, week)
            case DuplicateTeam => TeamTwice(all, r.team)
            case _ => c in TypeCodes(pool, |games|, all, r)
  {
    hide OffList, Blocked, TeamTwice, GameTwice, SlotTwice, WeightTwice, TypeCodes, UsedUp, Plays, When, FindGame;
    TypeCodesAre(pool, |games|, all, r, c);
    WhenHas(!Plays(FindGame(games, r.gameId).value, r.team), ForeignTeam, c);
    WhenHas(OffList(pool.rules, r.team), NotAllowed, c);
    WhenHas(Blocked(pool.rules, r.team), BlockedTeam, c);
    WhenHas(UsedUp(pool, picks, r.team, week), TeamUsed, c);
    WhenHas(TeamTwice(all, r.team), DuplicateTeam, c);
  }

  /** The codes of a request are those of the objections to it. */
  lemma RequestCodesTold(pool: Pool, picks: seq<Pick>, week: int, games: seq<Game>, all: seq<Request>, i: nat, c: Code)
    requires i < |all| && GamesNumbered(games)
    ensures c in RequestCodes(pool, picks, week, games, all, all[i]) <==> Objects(pool, picks, week, games, all, i, c)
  {
    hide OnList, OffList, Blocked, TeamTwice, GameTwice, SlotTwice, WeightTwice, TypeCodes, UsedUp, Plays, When, Count, FindGame,
         GamesNumbered;
    var r := all[i];
    if FindGame(games, r.gameId).Some? {
      hide RequestCodes;
      TwiceTold(all, i);
      ListChecks(pool.rules, r.team);
      UsedUpTold(pool, picks, r.team, week);
      RequestCodesAre(pool, picks, week, games, all, r, c);
      TypeCodesAre(pool, |games|, all, r, c);
      PlaysTold(games, r.gameId, r.team);
    }
  }

  lemma UsedUpTold(pool: Pool, picks: seq<Pick>, team: string, week: int)
    ensures UsedUp(pool, picks, team, week) <==>
            && pool.poolType == Survivor && pool.rules.maxTeamUses.Some?
            && Count(picks, (q: Pick) => q.team == team && q.week < week) >= pool.rules.maxTeamUses.value
  {
    CountSame(picks, (q: Pick) => q.team == team && q.week < week, (q: Pick) => q.team == team && q.week < week);
  }

  lemma PlaysTold(games: seq<Game>, id: int, team: string)
    requires GamesNumbered(games) && FindGame(games, id).Some?
    ensures !Plays(FindGame(games, id).value, team) <==>
            forall g :: g in games && g.id == id ==> team != g.away && team != g.home
  {
  }

  lemma ListChecks(rules: Rules, team: string)
    ensures OffList(rules, team) <==> rules.allowedTeams != [] && !OnList(rules.allowedTeams, team)
    ensures Blocked(rules, team) <==> OnList(rules.blockedTeams, team)
  {
    hide OnList, Upper;
    ListInCapitals(rules.allowedTeams, team);
    ListInCapitals(rules.blockedTeams, team);
  }

  lemma {:induction false} TaggedHas(index: nat, codes: seq<Code>, f: Finding)
    ensures f in Tagged(index, codes) <==> f.PickFinding? && f.index == index && f.code in codes
  {
    if |codes| > 0 {
      TaggedHas(index, codes[..|codes| - 1], f);
      assert codes == codes[..|codes| - 1] + [codes[|codes| - 1]];
    }
  }

  /** The configured weights are not as many as the games, or one of them comes twice. */
  ghost predicate Misfits(pool: Pool, gameCount: nat) {
    var ws := pool.rules.confidenceWeights;
    && pool.poolType == Confidence && ws != []
    && (|ws| != gameCount || exists i, j :: 0 <= i < |ws| && 0 <= j < |ws| && i != j && ws[i] == ws[j])
  }

  lemma MisfitTold(pool: Pool, gameCount: nat)
    ensures WeightsMisfit(pool, gameCount) <==> Misfits(pool, gameCount)
  {
    var ws := pool.rules.confidenceWeights;
    if i, j :| 0 <= i < |ws| && 0 <= j < |ws| && i != j && ws[i] == ws[j] {
      assert !Apart(ws) by {
        assert if i < j then ws[i] == ws[j] else ws[j] == ws[i];
      }
    }
  }

  /** The findings of a request: the misfit of the weights, and for each pick its objections. */
  lemma {:induction false} RequestFindingsTold(pool: Pool, picks: seq<Pick>, week: int, games: seq<Game>, all: seq<Request>,
                                               n: nat, f: Finding)
    requires n <= |all| && GamesNumbered(games)
    ensures f in RequestFindings(pool, picks, week, games, all, n) <==>
            match f
            case WeightCountMismatch => Misfits(pool, |games|)
            case PickFinding(i, c) => i < n && Objects(pool, picks, week, games, all, i, c)
  {
    hide RequestCodes, Objects, WeightsMisfit, Misfits, Tagged, GamesNumbered;
    if n == 0 {
      MisfitTold(pool, |games|);
    } else {
      RequestFindingsTold(pool, picks, week, games, all, n - 1, f);
      TaggedHas(n - 1, RequestCodes(pool, picks, week, games, all, all[n - 1]), f);
      if f.PickFinding? {
        RequestCodesTold(pool, picks, week, games, all, n - 1, f.code);
      }
    }
  }

  // ---------------------------------------------------------------- a stored pick

  ghost predicate IsOn(all: seq<Game>, p: Pick, g: Game) {
    g in all && p.gameId == Some(g.id)
  }

  /** The check of a stored card objects to its pick at `i` with this code. */
  ghost predicate ObjectsStored(pool: Pool, all: seq<Game>, picks: seq<Pick>, week: int, card: seq<Pick>, i: nat, c: Code)
    requires i < |card|
  {
    var p, rules := card[i], pool.rules;
    match c
    case LegacyPick => forall g :: !IsOn(all, p, g)
    case ForeignGame => exists g :: IsOn(all, p, g) && g.season != pool.season
    case MovedOutOfWeek => exists g :: IsOn(all, p, g) && g.season == pool.season && g.week != week
    case ForeignTeam =>
      exists g :: IsOn(all, p, g) && g.season == pool.season && g.week == week && p.team != g.away && p.team != g.home
    case NotAllowed => rules.allowedTeams != [] && !OnList(rules.allowedTeams, p.team)
    case BlockedTeam => OnList(rules.blockedTeams, p.team)
    case TeamUsed =>
      && pool.poolType == Survivor && rules.maxTeamUses.Some?
      && Count(picks, (q: Pick) => q.team == p.team && q.week < week) >= rules.maxTeamUses.value
    case DuplicateTeam => exists j :: 0 <= j < |card| && j != i && card[j].team == p.team
    case DuplicateGame =>
      pool.poolType == Confidence && p.gameId.Some? && exists j :: 0 <= j < |card| && j != i && card[j].gameId == p.gameId
    case InvalidSlot =>
      && pool.poolType == Survivor
      && (p.slot < 1 || p.slot > rules.picksPerWeek || exists j :: 0 <= j < |card| && j != i && card[j].slot == p.slot)
    case InvalidWeight =>
      pool.poolType == Confidence && p.confidence.Some? && !MayWeigh(rules, |WeekOf(pool, all, week)|, p.confidence.value)
    case DuplicateWeight =>
      && pool.poolType == Confidence && p.confidence.Some? && MayWeigh(rules, |WeekOf(pool, all, week)|, p.confidence.value)
      && exists j :: 0 <= j < |card| && j != i && card[j].confidence == p.confidence
  }

  lemma StoredTwiceTold(card: seq<Pick>, i: nat)
    requires i < |card|
    ensures StoredTeamTwice(card, card[i].team) <==> exists j :: 0 <= j < |card| && j != i && card[j].team == card[i].team
    ensures StoredGameTwice(card, card[i].gameId) <==> exists j :: 0 <= j < |card| && j != i && card[j].gameId == card[i].gameId
    ensures StoredSlotTwice(card, card[i].slot) <==> exists j :: 0 <= j < |card| && j != i && card[j].slot == card[i].slot
    ensures StoredWeightTwice(card, card[i].confidence) <==>
            exists j :: 0 <= j < |card| && j != i && card[j].confidence == card[i].confidence
  {
    hide Count;
    var team, gameId, slot, weight := card[i].team, card[i].gameId, card[i].slot, card[i].confidence;
    CountsAnother(card, (x: Pick) => x.team == team, i);
    CountsAnother(card, (x: Pick) => x.gameId == gameId, i);
    CountsAnother(card, (x: Pick) => x.slot == slot, i);
    CountsAnother(card, (x: Pick) => x.confidence == weight, i);
  }

  lemma GameCodesAre(pool: Pool, all: seq<Game>, week: int, p: Pick, c: Code)
    requires GamesNumbered(all)
    ensures c in GameCodes(pool, all, week, WeekOf(pool, all, week), p) <==>
            match c
            case LegacyPick => forall g :: !IsOn(all, p, g)
            case ForeignGame => exists g :: IsOn(all, p, g) && g.season != pool.season
            case MovedOutOfWeek => exists g :: IsOn(all, p, g) && g.season == pool.season && g.week != week
            case ForeignTeam =>
              exists g :: IsOn(all, p, g) && g.season == pool.season && g.week == week && p.team != g.away && p.team != g.home
            case _ => false
  {
    hide WeekOf, When;
    var game := GameOf(all, p);
    if game.Some? {
      var g := game.value;
      OnlyGame(all, p, g);
      WhenHas(!Plays(g, p.team), ForeignTeam, c);
      assert IsOn(all, p, g);
      assert g.season == pool.season && g.week == week ==> g in WeekOf(pool, all, week);
    } else {
      assert forall g :: !IsOn(all, p, g);
    }
  }

  lemma OnlyGame(all: seq<Game>, p: Pick, g: Game)
    requires GamesNumbered(all) && IsOn(all, p, g)
    ensures forall h :: IsOn(all, p, h) ==> h == g
  {
  }

  lemma StoredTypeCodesAre(pool: Pool, gameCount: nat, card: seq<Pick>, p: Pick, c: Code)
    ensures c in StoredTypeCodes(pool, gameCount, card, p) <==>
            match c
            case DuplicateGame => pool.poolType == Confidence && p.gameId.Some? && StoredGameTwice(card, p.gameId)
            case InvalidSlot =>
              pool.poolType == Survivor && (!(1 <= p.slot <= pool.rules.picksPerWeek) || StoredSlotTwice(card, p.slot))
            case InvalidWeight =>
              pool.poolType == Confidence && p.confidence.Some? && !AllowedWeight(pool.rules, gameCount, p.confidence.value)
            case DuplicateWeight =>
              pool.poolType == Confidence && p.confidence.Some?
              && AllowedWeight(pool.rules, gameCount, p.confidence.value) && StoredWeightTwice(card, p.confidence)
            case _ => false
  {
    hide StoredGameTwice, StoredSlotTwice, StoredWeightTwice, AllowedWeight;
  }

  /** The codes of a stored pick are those of the objections to it. */
  lemma StoredCodesTold(pool: Pool, all: seq<Game>, picks: seq<Pick>, week: int, card: seq<Pick>, i: nat, c: Code)
    requires i < |card| && GamesNumbered(all)
    ensures c in StoredCodes(pool, all, picks, week, card, card[i]) <==> ObjectsStored(pool, all, picks, week, card, i, c)
  {
    hide OnList, OffList, Blocked, StoredTeamTwice, StoredGameTwice, StoredSlotTwice, StoredWeightTwice, StoredTypeCodes,
         GameCodes, UsedUp, When, WeekOf, IsOn;
    var p := card[i];
    StoredTwiceTold(card, i);
    ListChecks(pool.rules, p.team);
    UsedUpTold(pool, picks, p.team, week);
    GameCodesAre(pool, all, week, p, c);
    StoredTypeCodesAre(pool, |WeekOf(pool, all, week)|, card, p, c);
    WhenHas(OffList(pool.rules, p.team), NotAllowed, c);
    WhenHas(Blocked(pool.rules, p.team), BlockedTeam, c);
    WhenHas(UsedUp(pool, picks, p.team, week), TeamUsed, c);
    WhenHas(StoredTeamTwice(card, p.team), DuplicateTeam, c);
  }

  /** The findings of a stored card are the objections to its picks. */
  lemma {:induction false} CardFindingsTold(pool: Pool, all: seq<Game>, picks: seq<Pick>, week: int, n: nat, f: Finding)
    requires n <= |PicksIn(picks, week)| && GamesNumbered(all)
    ensures f in CardFindings(pool, all, picks, week, n) <==>
            f.PickFinding? && f.index < n && ObjectsStored(pool, all, picks, week, PicksIn(picks, week), f.index, f.code)
  {
    hide StoredCodes, ObjectsStored, Tagged, GamesNumbered, PicksIn;
    if n > 0 {
      var card := PicksIn(picks, week);
      CardFindingsTold(pool, all, picks, week, n - 1, f);
      TaggedHas(n - 1, StoredCodes(pool, all, picks, week, card, card[n - 1]), f);
      if f.PickFinding? {
        StoredCodesTold(pool, all, picks, week, card, n - 1, f.code);
      }
    }
  }

  /** The configuration is at fault when the weights misfit or one of them is not above zero. */
  lemma ConfigurationErrorsTold(pool: Pool, gameCount: nat)
    ensures ConfigurationErrors(pool, gameCount) != [] <==>
            Misfits(pool, gameCount)
            || (pool.poolType == Confidence
                && exists i :: 0 <= i < |pool.rules.confidenceWeights| && pool.rules.confidenceWeights[i] <= 0)
    ensures forall f :: f in ConfigurationErrors(pool, gameCount) ==> f == WeightCountMismatch
  {
    hide WeightsMisfit, Misfits;
    MisfitTold(pool, gameCount);
  }
}
