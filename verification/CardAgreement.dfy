/**
  The two validators against each other: when a card that was accepted is also judged to be free
  of findings, and what a confidence card that is judged complete looks like.
*/
module CardAgreement {
  import opened Wrappers
  import opened Sets
  import opened Sequences
  import opened PoolModel
  import opened PoolOutcomes
  import opened WeeklyCard
  import opened CardLaws

  // ---------------------------------------------------------------- counting

  lemma {:induction false} TwoOf<T>(s: seq<T>, f: T -> bool) returns (i: nat, j: nat)
    requires Count(s, f) > 1
    ensures i < j < |s| && f(s[i]) && f(s[j])
  {
    var n := |s| - 1;
    if Count(s[..n], f) > 1 {
      i, j := TwoOf(s[..n], f);
    } else {
      i := OneOf(s[..n], f);
      j := n;
    }
  }

  lemma {:induction false} OneOf<T>(s: seq<T>, f: T -> bool) returns (i: nat)
    requires Count(s, f) > 0
    ensures i < |s| && f(s[i])
  {
    var n := |s| - 1;
    if f(s[n]) {
      i := n;
    } else {
      i := OneOf(s[..n], f);
    }
  }

  /** What two stored picks share, two requests share. */
  lemma TwiceCarries(pool: Pool, card: seq<Pick>, requests: seq<Request>, f: Pick -> bool, g: Request -> bool)
    requires PicksApart(pool, card) && EachFulfils(pool, card, requests)
    requires forall p, r :: Fulfils(pool, p, r) && f(p) ==> g(r)
    requires Count(card, f) > 1
    ensures Count(requests, g) > 1
  {
    hide Fulfils, Count;
    var i, j := TwoOf(card, f);
    assert Asked(pool, card[i], requests) && Asked(pool, card[j], requests);
    var k :| 0 <= k < |requests| && Fulfils(pool, card[i], requests[k]);
    var m :| 0 <= m < |requests| && Fulfils(pool, card[j], requests[m]);
    FulfilsIdentity(pool, card[i], requests[k]);
    FulfilsIdentity(pool, card[j], requests[m]);
    assert k != m;
    if k < m {
      CountTwice(requests, g, k, m);
    } else {
      CountTwice(requests, g, m, k);
    }
  }

  lemma TeamCarries(pool: Pool, card: seq<Pick>, requests: seq<Request>, team: string)
    requires PicksApart(pool, card) && EachFulfils(pool, card, requests)
    ensures StoredTeamTwice(card, team) ==> TeamTwice(requests, team)
  {
    if StoredTeamTwice(card, team) {
      TwiceCarries(pool, card, requests, (x: Pick) => x.team == team, (x: Request) => x.team == team);
    }
  }

  lemma GameCarries(pool: Pool, card: seq<Pick>, requests: seq<Request>, gameId: int)
    requires PicksApart(pool, card) && EachFulfils(pool, card, requests)
    ensures StoredGameTwice(card, Some(gameId)) ==> GameTwice(requests, gameId)
  {
    if StoredGameTwice(card, Some(gameId)) {
      TwiceCarries(pool, card, requests, (x: Pick) => x.gameId == Some(gameId), (x: Request) => x.gameId == gameId);
    }
  }

  lemma SlotCarries(pool: Pool, card: seq<Pick>, requests: seq<Request>, slot: int)
    requires PicksApart(pool, card) && EachFulfils(pool, card, requests) && pool.poolType.Survivor?
    ensures StoredSlotTwice(card, slot) ==> SlotTwice(requests, Some(slot))
  {
    if StoredSlotTwice(card, slot) {
      TwiceCarries(pool, card, requests, (x: Pick) => x.slot == slot, (x: Request) => x.slot == Some(slot));
    }
  }

  lemma WeightCarries(pool: Pool, card: seq<Pick>, requests: seq<Request>, weight: Option<int>)
    requires PicksApart(pool, card) && EachFulfils(pool, card, requests)
    ensures StoredWeightTwice(card, weight) ==> WeightTwice(requests, weight)
  {
    if StoredWeightTwice(card, weight) {
      TwiceCarries(pool, card, requests, (x: Pick) => x.confidence == weight, (x: Request) => x.confidence == weight);
    }
  }

  lemma CountKept(pool: Pool, games: seq<Game>, all: seq<Game>, picks: seq<Pick>, week: int, now: int, f: Pick -> bool)
    requires forall p :: f(p) ==> p.week != week
    ensures Count(KeptPicks(pool, games, all, picks, week, now), f) == Count(picks, f)
  {
    hide PickLocked, Count;
    CountAmong(picks, Stays(pool, games, all, week, now), f, f);
  }

  /** A save does not change how often a team was used in earlier weeks. */
  lemma PriorUsesStay(pool: Pool, d: Desk, week: int, requests: seq<Request>, now: int, team: string)
    ensures PriorUses(Stored(pool, d, week, requests, now).picks, team, week) == PriorUses(d.picks, team, week)
  {
    hide WeekOf, PickLocked, KeptPicks, AddPicks, Count;
    var games := WeekOf(pool, d.games, week);
    var kept := KeptPicks(pool, games, d.games, d.picks, week, now);
    var added := AddedPicks(pool, d, week, requests, now);
    var f := (q: Pick) => q.team == team && q.week < week;
    CountKept(pool, games, d.games, d.picks, week, now, f);
    AddedOrigin(pool, d, week, requests, now);
    CountConcat(kept, added, f);
    CountNone(added, f);
  }

  // ---------------------------------------------------------------- accepted and judged

  lemma FoundIs(games: seq<Game>, g: Game)
    requires GamesNumbered(games) && g in games
    ensures FindGame(games, g.id) == Some(g)
  {
    var h := FindGame(games, g.id).value;
    var i :| 0 <= i < |games| && games[i] == g;
    var j :| 0 <= j < |games| && games[j] == h;
  }

  /** A stored pick that fulfils a good request has a game of the week. */
  lemma GoodGame(pool: Pool, all: seq<Game>, picks: seq<Pick>, week: int, requests: seq<Request>, p: Pick, r: Request)
    requires GamesNumbered(all) && Fulfils(pool, p, r)
    requires Good(pool, picks, week, WeekOf(pool, all, week), requests, r)
    ensures GameCodes(pool, all, week, WeekOf(pool, all, week), p) == []
  {
    hide OffList, Blocked, UsedUp, TeamTwice, GameTwice, SlotTwice, WeightTwice, AllowedWeight;
    var g := FindGame(WeekOf(pool, all, week), r.gameId).value;
    FoundIs(all, g);
  }

  /** Pick by pick the second validator agrees with the first. */
  lemma FulfilledHasNoCode(pool: Pool, all: seq<Game>, before: seq<Pick>, after: seq<Pick>, week: int, requests: seq<Request>,
                           card: seq<Pick>, p: Pick, r: Request)
    requires GamesNumbered(all) && Fulfils(pool, p, r)
    requires Good(pool, before, week, WeekOf(pool, all, week), requests, r)
    requires PicksApart(pool, card) && EachFulfils(pool, card, requests)
    requires PriorUses(after, p.team, week) == PriorUses(before, p.team, week)
    ensures StoredCodes(pool, all, after, week, card, p) == []
  {
    hide OffList, Blocked, TeamTwice, GameTwice, SlotTwice, WeightTwice, AllowedWeight, PicksApart, EachFulfils, WeekOf,
         StoredTeamTwice, StoredGameTwice, StoredSlotTwice, StoredWeightTwice, GameCodes, PriorUses;
    GoodGame(pool, all, before, week, requests, p, r);
    TeamCarries(pool, card, requests, p.team);
    GameCarries(pool, card, requests, r.gameId);
    WeightCarries(pool, card, requests, p.confidence);
    if pool.poolType.Survivor? {
      SlotCarries(pool, card, requests, p.slot);
    }
  }

  lemma {:induction false} CardFindingsAre(pool: Pool, all: seq<Game>, picks: seq<Pick>, week: int, n: nat)
    requires n <= |PicksIn(picks, week)|
    ensures
      var card := PicksIn(picks, week);
      CardFindings(pool, all, picks, week, n) == [] <==>
      forall i :: 0 <= i < n ==> StoredCodes(pool, all, picks, week, card, card[i]) == []
  {
    hide StoredCodes, WeekOf, PicksIn;
    if n > 0 {
      CardFindingsAre(pool, all, picks, week, n - 1);
    }
  }

  /** A card that the first validator accepts has no findings for the second. */
  lemma SavedCardHasNoFindings(pool: Pool, d: Desk, week: int, requests: seq<Request>, now: int)
    requires Accepted(pool, d, week, requests, now) && WellFormedCard(pool, d, week) && GamesNumbered(d.games)
    ensures
      var later := Stored(pool, d, week, requests, now);
      CardFindings(pool, later.games, later.picks, week, |PicksIn(later.picks, week)|) == []
  {
    hide WeekOf, PicksIn, Accepted, StoredCodes, EachFulfils, EachFulfilled, PicksApart, Fulfils, Stored, WellFormedCard,
         GamesNumbered, CardFindings;
    var later := Stored(pool, d, week, requests, now);
    var card := PicksIn(later.picks, week);
    CardFindingsAre(pool, later.games, later.picks, week, |card|);
    forall i | 0 <= i < |card| ensures StoredCodes(pool, later.games, later.picks, week, card, card[i]) == [] {
      SavedPickHasNoCode(pool, d, week, requests, now, i);
    }
  }

  ghost predicate WeightsBelowOne(pool: Pool) {
    pool.poolType.Confidence? && !WeightsPositive(pool.rules)
  }

  /**
    A card that the first validator accepts is still in need of repair exactly when a configured confidence
    weight is zero or less: the second validator counts that as a configuration error, the first does not look.
  */
  lemma ValidatorsAgreeExactlyWhen(pool: Pool, d: Desk, week: int, requests: seq<Request>, now: int, judged: int)
    requires Accepted(pool, d, week, requests, now) && WellFormedCard(pool, d, week) && GamesNumbered(d.games)
    ensures
      var later := Stored(pool, d, week, requests, now);
      && (ConfigurationErrors(pool, |WeekOf(pool, later.games, week)|) != [] <==> WeightsBelowOne(pool))
      && (StateOf(pool, later.games, later.picks, week, judged) == NeedsRepair <==> WeightsBelowOne(pool))
  {
    hide WeekOf, PicksIn, Accepted, AllGood, WeightsMisfit, WeightsPositive, Stored, WellFormedCard, GamesNumbered, CardFindings,
         ProgressOf, ValidPicks;
    AcceptedMeans(pool, d, week, requests, now);
    CardAfterSave(pool, d, week, requests, now);
    SavedCardHasNoFindings(pool, d, week, requests, now);
  }

  lemma SavedPickHasNoCode(pool: Pool, d: Desk, week: int, requests: seq<Request>, now: int, i: nat)
    requires Accepted(pool, d, week, requests, now) && WellFormedCard(pool, d, week) && GamesNumbered(d.games)
    requires i < |PicksIn(Stored(pool, d, week, requests, now).picks, week)|
    ensures
      var later := Stored(pool, d, week, requests, now);
      var card := PicksIn(later.picks, week);
      StoredCodes(pool, later.games, later.picks, week, card, card[i]) == []
  {
    hide WeekOf, PicksIn, Accepted, StoredCodes, EachFulfilled, PicksApart, Good, Fulfils, Stored, WellFormedCard, GamesNumbered;
    var later := Stored(pool, d, week, requests, now);
    var card := PicksIn(later.picks, week);
    AcceptedMeans(pool, d, week, requests, now);
    CardAfterSave(pool, d, week, requests, now);
    CardIsTheRequest(pool, d, week, requests, now);
    assert Asked(pool, card[i], requests);
    var k :| 0 <= k < |requests| && Fulfils(pool, card[i], requests[k]);
    PriorUsesStay(pool, d, week, requests, now, card[i].team);
    FulfilledHasNoCode(pool, d.games, d.picks, later.picks, week, requests, card, card[i], requests[k]);
  }

  /** A save keeps the picks of the week for different slots, or different games. */
  lemma SavedCardIsWellFormed(pool: Pool, d: Desk, week: int, requests: seq<Request>, now: int)
    requires Accepted(pool, d, week, requests, now) && WellFormedCard(pool, d, week)
    ensures WellFormedCard(pool, Stored(pool, d, week, requests, now), week)
    ensures forall other :: other != week && WellFormedCard(pool, d, other) ==>
              WellFormedCard(pool, Stored(pool, d, week, requests, now), other)
  {
    hide PicksIn, Accepted, EachFulfilled, EachFulfils, PicksApart, Stored;
    CardIsTheRequest(pool, d, week, requests, now);
    CardAfterSave(pool, d, week, requests, now);
  }

  lemma StampKeepsCards(pool: Pool, d: Desk, now: int)
    ensures StampDesk(pool, d, now).picks == d.picks && StampDesk(pool, d, now).versions == d.versions
    ensures GamesNumbered(d.games) ==> GamesNumbered(StampDesk(pool, d, now).games)
    ensures ValidDesk(d) ==> ValidDesk(StampDesk(pool, d, now)) && GamesNumbered(d.games)
    ensures forall week :: WellFormedCard(pool, d, week) <==> WellFormedCard(pool, StampDesk(pool, d, now), week)
  {
  }

  /**
    An accepted save of a well-formed card stores exactly the requested picks, keeps slots and numbers
    unique, is one version on, leaves every other week alone, and has no findings for the other validator.
  */
  lemma AcceptedSave(pool: Pool, active: bool, d: Desk, week: int, version: nat, requests: seq<Request>, now: int)
    requires SaveCard(pool, active, d, week, version, requests, now).Saved?
    requires ValidDesk(d) && WellFormedCard(pool, d, week)
    ensures
      var later := SaveCard(pool, active, d, week, version, requests, now).desk;
      var card := PicksIn(later.picks, week);
      && CardLines(pool, card) == RequestLines(pool, requests)
      && ValidDesk(later) && WellFormedCard(pool, later, week)
      && VersionOf(later, week) == version + 1
      && (forall other :: other != week ==>
            PicksIn(later.picks, other) == PicksIn(d.picks, other) && VersionOf(later, other) == VersionOf(d, other))
      && CardFindings(pool, later.games, later.picks, week, |card|) == []
      && (forall judged :: StateOf(pool, later.games, later.picks, week, judged) == NeedsRepair <==> WeightsBelowOne(pool))
  {
    hide WeekOf, PicksIn, Stored, CardLines, RequestLines, StandingOf, InSeason, HasConflict, HasFinding, StampDesk,
         ValidDesk, WellFormedCard, CardFindings, WeightsBelowOne, GamesNumbered, VersionOf, StateOf;
    var stamped := StampDesk(pool, d, now);
    StampKeepsCards(pool, d, now);
    SameVersions(d, stamped);
    CardAfterSave(pool, stamped, week, requests, now);
    SavedCardIsRequested(pool, stamped, week, requests, now);
    SavedDeskIsValid(pool, stamped, week, requests, now);
    SavedCardIsWellFormed(pool, stamped, week, requests, now);
    SavedCardHasNoFindings(pool, stamped, week, requests, now);
    forall judged
      ensures
        var later := Stored(pool, stamped, week, requests, now);
        StateOf(pool, later.games, later.picks, week, judged) == NeedsRepair <==> WeightsBelowOne(pool)
    {
      ValidatorsAgreeExactlyWhen(pool, stamped, week, requests, now, judged);
    }
  }

  lemma SameVersions(d: Desk, e: Desk)
    requires d.versions == e.versions
    ensures forall week :: VersionOf(d, week) == VersionOf(e, week)
  {
  }

  // ---------------------------------------------------------------- complete confidence cards

  /** The weights a week of `gameCount` games may use. */
  function Weights(rules: Rules, gameCount: nat): set<int> {
    if rules.confidenceWeights != [] then set w | w in rules.confidenceWeights else OneTo(gameCount)
  }

  function OneTo(n: nat): (r: set<int>)
    ensures |r| == n && forall w :: w in r <==> 1 <= w <= n
  {
    if n == 0 then {} else OneTo(n - 1) + {n}
  }

  function GameIds(games: seq<Game>): set<int> {
    set i | 0 <= i < |games| :: games[i].id
  }

  ghost predicate PicksGame(card: seq<Pick>, id: int) {
    exists i :: 0 <= i < |card| && card[i].gameId == Some(id)
  }

  ghost predicate PicksWeight(card: seq<Pick>, w: int) {
    exists i :: 0 <= i < |card| && card[i].confidence == Some(w)
  }

  /** The card pairs the games of the week with the weights, one to one. */
  ghost predicate PairsAll(pool: Pool, games: seq<Game>, card: seq<Pick>) {
    && |card| == |games| == |Weights(pool.rules, |games|)|
    && (forall id :: id in GameIds(games) ==> PicksGame(card, id))
    && (forall w :: w in Weights(pool.rules, |games|) ==> PicksWeight(card, w))
    && (forall i :: 0 <= i < |card| ==>
          && card[i].gameId.Some? && card[i].gameId.value in GameIds(games)
          && card[i].confidence.Some? && card[i].confidence.value in Weights(pool.rules, |games|))
    && (forall i, j :: 0 <= i < j < |card| ==> card[i].gameId != card[j].gameId && card[i].confidence != card[j].confidence)
  }

  /** Different elements are as many as the positions. */
  lemma {:induction false} ElementsSize(s: seq<int>)
    requires Apart(s)
    ensures |set w | w in s| == |s|
  {
    if |s| > 0 {
      var n := |s| - 1;
      var front := s[..n];
      ElementsSize(front);
      assert s == front + [s[n]];
      assert (set w | w in s) == (set w | w in front) + {s[n]};
    }
  }

  /** Weights that fit are as many as the games. */
  lemma WeightsFit(pool: Pool, gameCount: nat)
    requires pool.poolType.Confidence? && !WeightsMisfit(pool, gameCount)
    ensures |Weights(pool.rules, gameCount)| == gameCount
    ensures forall w :: w in Weights(pool.rules, gameCount) <==> AllowedWeight(pool.rules, gameCount, w)
  {
    if pool.rules.confidenceWeights != [] {
      ElementsSize(pool.rules.confidenceWeights);
    }
  }

  /** The values that are there. */
  function Values(keys: seq<Option<int>>): set<int> {
    if |keys| == 0 then {}
    else
      var k := keys[|keys| - 1];
      Values(keys[..|keys| - 1]) + (if k.Some? then {k.value} else {})
  }

  lemma {:induction false} ValuesMember(keys: seq<Option<int>>, x: int)
    ensures x in Values(keys) <==> Some(x) in keys
  {
    if |keys| > 0 {
      ValuesMember(keys[..|keys| - 1], x);
      assert keys == keys[..|keys| - 1] + [keys[|keys| - 1]];
    }
  }

  ghost predicate AllThereAndApart(keys: seq<Option<int>>) {
    && (forall i :: 0 <= i < |keys| ==> keys[i].Some?)
    && (forall i, j :: 0 <= i < j < |keys| ==> keys[i] != keys[j])
  }

  /** Values are as many as the keys exactly when every key is there and none is repeated. */
  lemma {:induction false} ValuesSize(keys: seq<Option<int>>)
    ensures |Values(keys)| <= |keys|
    ensures |Values(keys)| == |keys| <==> AllThereAndApart(keys)
  {
    if |keys| > 0 {
      hide AllThereAndApart;
      var front, k := keys[..|keys| - 1], keys[|keys| - 1];
      ValuesSize(front);
      ThereAndApartSnoc(front, k);
      assert keys == front + [k];
      if k.Some? {
        ValuesMember(front, k.value);
      }
    }
  }

  lemma ThereAndApartSnoc(front: seq<Option<int>>, k: Option<int>)
    ensures AllThereAndApart(front + [k]) <==> AllThereAndApart(front) && k.Some? && k !in front
  {
    var keys := front + [k];
    assert keys[|front|] == k;
    assert forall i :: 0 <= i < |front| ==> keys[i] == front[i];
    if k in front {
      var i :| 0 <= i < |front| && front[i] == k;
      assert keys[i] == keys[|front|];
    } else {
      forall i | 0 <= i < |front| ensures keys[i] != k {
        assert front[i] in front;
      }
    }
  }

  function GameKeys(card: seq<Pick>): (r: seq<Option<int>>)
    ensures |r| == |card| && forall i :: 0 <= i < |r| ==> r[i] == card[i].gameId
  {
    seq(|card|, i requires 0 <= i < |card| => card[i].gameId)
  }

  function WeightKeys(card: seq<Pick>): (r: seq<Option<int>>)
    ensures |r| == |card| && forall i :: 0 <= i < |r| ==> r[i] == card[i].confidence
  {
    seq(|card|, i requires 0 <= i < |card| => card[i].confidence)
  }

  lemma {:induction false} GameIdsSize(games: seq<Game>)
    requires GamesNumbered(games)
    ensures |GameIds(games)| == |games|
  {
    if |games| > 0 {
      var n := |games| - 1;
      var front := games[..n];
      assert forall i :: 0 <= i < n ==> front[i] == games[i];
      GameIdsSize(front);
      assert GameIds(games) == GameIds(front) + {games[n].id} by {
        forall x | x in GameIds(games) ensures x in GameIds(front) + {games[n].id} {
          var i :| 0 <= i < |games| && games[i].id == x;
          assert i < n ==> front[i].id == x;
        }
        forall x | x in GameIds(front) ensures x in GameIds(games) {
          var i :| 0 <= i < |front| && front[i].id == x;
          assert games[i].id == x;
        }
      }
    }
  }

  // ---------------------------------------------------------------- complete means paired

  lemma {:induction false} AllValid(pool: Pool, all: seq<Game>, picks: seq<Pick>, week: int, n: nat)
    requires n <= |PicksIn(picks, week)|
    requires forall i :: 0 <= i < n ==> StoredCodes(pool, all, picks, week, PicksIn(picks, week), PicksIn(picks, week)[i]) == []
    ensures ValidPicks(pool, all, picks, week, n) == PicksIn(picks, week)[..n]
  {
    hide StoredCodes, PicksIn;
    if n > 0 {
      AllValid(pool, all, picks, week, n - 1);
    }
  }

  /** A confidence pick without a code is for a game of the week, alone on it, with an allowed weight of its own or none. */
  lemma NoCodeMeans(pool: Pool, all: seq<Game>, picks: seq<Pick>, week: int, card: seq<Pick>, p: Pick)
    requires pool.poolType.Confidence? && GamesNumbered(all) && StoredCodes(pool, all, picks, week, card, p) == []
    ensures
      var games := WeekOf(pool, all, week);
      && p.gameId.Some? && FindGame(games, p.gameId.value).Some? && !StoredGameTwice(card, p.gameId)
      && (p.confidence.Some? ==> AllowedWeight(pool.rules, |games|, p.confidence.value) && !StoredWeightTwice(card, p.confidence))
  {
    hide OffList, Blocked, UsedUp, StoredTeamTwice, StoredGameTwice, StoredWeightTwice, AllowedWeight;
  }

  lemma FoundIsId(games: seq<Game>, id: int)
    ensures FindGame(games, id).Some? <==> id in GameIds(games)
  {
  }

  /** No code anywhere: picks are for different games of the week and their weights are allowed. */
  ghost predicate CardSound(pool: Pool, games: seq<Game>, card: seq<Pick>) {
    && (forall i :: 0 <= i < |card| ==> card[i].gameId.Some? && card[i].gameId.value in GameIds(games))
    && (forall i, j :: 0 <= i < j < |card| ==> card[i].gameId != card[j].gameId)
    && (forall i :: 0 <= i < |card| && card[i].confidence.Some? ==> AllowedWeight(pool.rules, |games|, card[i].confidence.value))
  }

  lemma NoFindingsMeansSound(pool: Pool, all: seq<Game>, picks: seq<Pick>, week: int)
    requires pool.poolType.Confidence? && GamesNumbered(all)
    requires CardFindings(pool, all, picks, week, |PicksIn(picks, week)|) == []
    ensures
      var games, card := WeekOf(pool, all, week), PicksIn(picks, week);
      && CardSound(pool, games, card)
      && ValidPicks(pool, all, picks, week, |card|) == card
  {
    hide StoredCodes, PicksIn, WeekOf, ValidPicks, CardFindings, WeightsMisfit, GameIds, AllowedWeight,
         StoredGameTwice, StoredWeightTwice;
    var games, card := WeekOf(pool, all, week), PicksIn(picks, week);
    CardFindingsAre(pool, all, picks, week, |card|);
    AllValid(pool, all, picks, week, |card|);
    assert card[..|card|] == card;
    forall i | 0 <= i < |card|
      ensures card[i].gameId.Some? && card[i].gameId.value in GameIds(games)
      ensures card[i].confidence.Some? ==> AllowedWeight(pool.rules, |games|, card[i].confidence.value)
      ensures !StoredGameTwice(card, card[i].gameId)
    {
      NoCodeMeans(pool, all, picks, week, card, card[i]);
      FoundIsId(games, card[i].gameId.value);
    }
    forall i, j | 0 <= i < j < |card| ensures card[i].gameId != card[j].gameId {
      if card[i].gameId == card[j].gameId {
        SharedGame(card, i, j);
      }
    }
  }

  lemma SharedGame(card: seq<Pick>, i: nat, j: nat)
    requires i < j < |card| && card[i].gameId == card[j].gameId
    ensures StoredGameTwice(card, card[i].gameId)
  {
    var gameId := card[i].gameId;
    CountTwice(card, (x: Pick) => x.gameId == gameId, i, j);
  }

  lemma SelectedGamesAre(pool: Pool, games: seq<Game>, card: seq<Pick>)
    requires CardSound(pool, games, card)
    ensures SelectedGames(card, games) == Values(GameKeys(card))
  {
    hide Values, AllowedWeight, GameIds;
    var keys := GameKeys(card);
    forall id ensures id in SelectedGames(card, games) <==> id in Values(keys) {
      ValuesMember(keys, id);
      if id in SelectedGames(card, games) {
        var i :| 0 <= i < |card| && card[i].gameId == Some(id);
        assert keys[i] == Some(id);
      }
      if Some(id) in keys {
        var i :| 0 <= i < |keys| && keys[i] == Some(id);
        FoundIsId(games, id);
        assert card[i].gameId == Some(id);
      }
    }
  }

  lemma SelectedWeightsAre(pool: Pool, games: seq<Game>, card: seq<Pick>)
    requires CardSound(pool, games, card)
    ensures SelectedWeights(pool, |games|, card) == Values(WeightKeys(card))
  {
    hide Values, AllowedWeight, GameIds;
    var keys := WeightKeys(card);
    forall w ensures w in SelectedWeights(pool, |games|, card) <==> w in Values(keys) {
      ValuesMember(keys, w);
      if w in SelectedWeights(pool, |games|, card) {
        var i :| 0 <= i < |card| && card[i].confidence == Some(w);
        assert keys[i] == Some(w);
      }
      if Some(w) in keys {
        var i :| 0 <= i < |keys| && keys[i] == Some(w);
        assert card[i].confidence == Some(w);
      }
    }
  }

  lemma PairedValues(pool: Pool, games: seq<Game>, card: seq<Pick>)
    requires |Weights(pool.rules, |games|)| == |games| == |GameIds(games)|
    requires Values(GameKeys(card)) <= GameIds(games) && Values(WeightKeys(card)) <= Weights(pool.rules, |games|)
    requires AllThereAndApart(GameKeys(card))
    ensures (|Values(GameKeys(card))| == |games| == |Values(WeightKeys(card))|) <==> PairsAll(pool, games, card)
  {
    hide Values, GameIds, Weights;
    var gs, ws := GameKeys(card), WeightKeys(card);
    ValuesSize(gs);
    ValuesSize(ws);
    SubsetSize(Values(gs), GameIds(games));
    SubsetSize(Values(ws), Weights(pool.rules, |games|));
    forall x ensures (x in Values(gs) <==> PicksGame(card, x)) && (x in Values(ws) <==> PicksWeight(card, x)) {
      ValuesMember(gs, x);
      ValuesMember(ws, x);
      KeysPick(card, x);
    }
    forall i | 0 <= i < |card| && card[i].gameId.Some? ensures card[i].gameId.value in GameIds(games) {
      assert PicksGame(card, card[i].gameId.value);
    }
    forall i | 0 <= i < |card| && card[i].confidence.Some? ensures card[i].confidence.value in Weights(pool.rules, |games|) {
      assert PicksWeight(card, card[i].confidence.value);
    }
    if PairsAll(pool, games, card) {
      assert AllThereAndApart(ws);
    }
  }

  lemma KeysPick(card: seq<Pick>, x: int)
    ensures Some(x) in GameKeys(card) <==> PicksGame(card, x)
    ensures Some(x) in WeightKeys(card) <==> PicksWeight(card, x)
  {
    var gs, ws := GameKeys(card), WeightKeys(card);
    if PicksGame(card, x) {
      var i :| 0 <= i < |card| && card[i].gameId == Some(x);
      assert gs[i] == Some(x);
    }
    if PicksWeight(card, x) {
      var i :| 0 <= i < |card| && card[i].confidence == Some(x);
      assert ws[i] == Some(x);
    }
  }

  /** On a sound card nothing is missing exactly when the games and the weights are paired. */
  lemma NothingMissingIsPaired(pool: Pool, games: seq<Game>, card: seq<Pick>)
    requires pool.poolType.Confidence? && GamesNumbered(games)
    requires CardSound(pool, games, card) && !WeightsMisfit(pool, |games|)
    ensures |SelectedGames(card, games)| <= |games| && |SelectedWeights(pool, |games|, card)| <= |games|
    ensures (|SelectedGames(card, games)| == |games| == |SelectedWeights(pool, |games|, card)|) <==> PairsAll(pool, games, card)
  {
    hide Values, AllowedWeight, GameIds, SelectedGames, SelectedWeights, Weights, WeightsMisfit, PairsAll;
    SelectedGamesAre(pool, games, card);
    SelectedWeightsAre(pool, games, card);
    GameIdsSize(games);
    WeightsFit(pool, |games|);
    var gs, ws := GameKeys(card), WeightKeys(card);
    forall x | x in Values(gs) ensures x in GameIds(games) {
      ValuesMember(gs, x);
      var i :| 0 <= i < |gs| && gs[i] == Some(x);
      assert card[i].gameId == Some(x);
    }
    forall w | w in Values(ws) ensures w in Weights(pool.rules, |games|) {
      ValuesMember(ws, w);
      var i :| 0 <= i < |ws| && ws[i] == Some(w);
      assert card[i].confidence == Some(w);
    }
    SubsetSize(Values(gs), GameIds(games));
    SubsetSize(Values(ws), Weights(pool.rules, |games|));
    PairedValues(pool, games, card);
  }

  /** Filtering keeps the numbers apart. */
  lemma {:induction false} KeepNumbered(games: seq<Game>, f: Game -> bool)
    requires GamesNumbered(games)
    ensures GamesNumbered(Keep(games, f))
  {
    hide Keep;
    if |games| > 0 {
      var n := |games| - 1;
      var front := games[..n];
      assert forall i :: 0 <= i < n ==> front[i] == games[i];
      KeepNumbered(front, f);
      assert front + [games[n]] == games;
      NumberedSnoc(front, Keep(front, f), games[n]);
      KeepSnoc(front, games[n], f);
    }
  }

  lemma NumberedSnoc(front: seq<Game>, filtered: seq<Game>, g: Game)
    requires GamesNumbered(front + [g]) && GamesNumbered(filtered) && forall x :: x in filtered ==> x in front
    ensures GamesNumbered(filtered + [g])
  {
    forall i | 0 <= i < |filtered| ensures filtered[i].id != g.id {
      assert filtered[i] in front;
      var k :| 0 <= k < |front| && front[k] == filtered[i];
      assert (front + [g])[k] == filtered[i] && (front + [g])[|front|] == g;
    }
  }

  lemma WeekNumbered(pool: Pool, all: seq<Game>, week: int)
    requires GamesNumbered(all)
    ensures GamesNumbered(InSeason(all, pool.season)) && GamesNumbered(WeekOf(pool, all, week))
  {
    hide Keep;
    KeepNumbered(all, (g: Game) => g.season == pool.season);
    KeepNumbered(InSeason(all, pool.season), (g: Game) => g.week == week);
  }

  /**
    A confidence card is judged complete, locked or not, exactly when it has no finding, the pool has no
    configuration error, and the card pairs the games of the week with the allowed weights one to one.
  */
  lemma CompleteExactlyWhenPaired(pool: Pool, all: seq<Game>, picks: seq<Pick>, week: int, now: int)
    requires pool.poolType.Confidence? && GamesNumbered(all)
    ensures
      var games, card := WeekOf(pool, all, week), PicksIn(picks, week);
      StateOf(pool, all, picks, week, now) in {CardComplete, LockedComplete} <==>
      && CardFindings(pool, all, picks, week, |card|) == [] && ConfigurationErrors(pool, |games|) == []
      && PairsAll(pool, games, card)
  {
    hide PicksIn, WeekOf, ValidPicks, CardFindings, PairsAll, CardSound, SelectedGames, SelectedWeights, GamesNumbered,
         WeightsMisfit, WeightsPositive, AllLocked, LockedAndUnpicked, WeekLocked;
    var games, card := WeekOf(pool, all, week), PicksIn(picks, week);
    if CardFindings(pool, all, picks, week, |card|) == [] && ConfigurationErrors(pool, |games|) == [] {
      NoFindingsMeansSound(pool, all, picks, week);
      WeekNumbered(pool, all, week);
      NothingMissingIsPaired(pool, games, card);
    }
  }
}
