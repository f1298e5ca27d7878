/**
  What an accepted card stores: exactly the requested picks, in distinct slots, one version on,
  and nothing that the other validator objects to.
*/
module CardLaws {
  import opened Wrappers
  import opened Sequences
  import opened PoolModel
  import opened PoolOutcomes
  import opened WeeklyCard

  // ---------------------------------------------------------------- what the checks mean

  lemma {:induction false} NoRequestFinding(pool: Pool, picks: seq<Pick>, week: int, games: seq<Game>, all: seq<Request>, n: nat)
    requires n <= |all| && RequestFindings(pool, picks, week, games, all, n) == []
    ensures !WeightsMisfit(pool, |games|)
    ensures forall i :: 0 <= i < n ==> RequestCodes(pool, picks, week, games, all, all[i]) == []
  {
    hide RequestCodes, WeightsMisfit;
    if n > 0 {
      NoRequestFinding(pool, picks, week, games, all, n - 1);
    }
  }

  /** A request that the first validator lets pass. */
  ghost predicate Good(pool: Pool, picks: seq<Pick>, week: int, games: seq<Game>, all: seq<Request>, r: Request) {
    && FindGame(games, r.gameId).Some? && Plays(FindGame(games, r.gameId).value, r.team)
    && !OffList(pool.rules, r.team) && !Blocked(pool.rules, r.team)
    && !UsedUp(pool, picks, r.team, week) && !TeamTwice(all, r.team) && !GameTwice(all, r.gameId)
    && (pool.poolType.Survivor? ==>
          r.slot.Some? && 1 <= r.slot.value <= pool.rules.picksPerWeek && !SlotTwice(all, r.slot) && r.confidence.None?)
    && (pool.poolType.Confidence? && r.confidence.Some? ==>
          AllowedWeight(pool.rules, |games|, r.confidence.value) && !WeightTwice(all, r.confidence))
  }

  lemma NoCodesIsGood(pool: Pool, picks: seq<Pick>, week: int, games: seq<Game>, all: seq<Request>, r: Request)
    ensures RequestCodes(pool, picks, week, games, all, r) == [] <==> Good(pool, picks, week, games, all, r)
  {
    hide OffList, Blocked, UsedUp, TeamTwice, GameTwice, SlotTwice, WeightTwice, Plays, AllowedWeight;
  }

  ghost predicate AllGood(pool: Pool, picks: seq<Pick>, week: int, games: seq<Game>, all: seq<Request>) {
    forall i :: 0 <= i < |all| ==> Good(pool, picks, week, games, all, all[i])
  }

  /** A request without findings is good throughout, and the configured weights fit. */
  lemma NoFindingMeansGood(pool: Pool, picks: seq<Pick>, week: int, games: seq<Game>, all: seq<Request>)
    requires RequestFindings(pool, picks, week, games, all, |all|) == []
    ensures AllGood(pool, picks, week, games, all) && !WeightsMisfit(pool, |games|)
  {
    hide Good, RequestCodes, WeightsMisfit;
    NoRequestFinding(pool, picks, week, games, all, |all|);
    forall i | 0 <= i < |all| ensures Good(pool, picks, week, games, all, all[i]) {
      NoCodesIsGood(pool, picks, week, games, all, all[i]);
    }
  }

  lemma {:induction false} NoPickConflict(pool: Pool, games: seq<Game>, all: seq<Game>, requests: seq<Request>,
                                          existing: seq<Pick>, n: nat, now: int)
    requires n <= |existing| && PickConflicts(pool, games, all, requests, existing, n, now) == []
    ensures forall i :: 0 <= i < n ==> !Loses(pool, games, all, requests, existing[i], now)
  {
    hide Loses;
    if n > 0 {
      NoPickConflict(pool, games, all, requests, existing, n - 1, now);
    }
  }

  lemma {:induction false} NoLateConflict(pool: Pool, games: seq<Game>, existing: seq<Pick>, requests: seq<Request>,
                                          n: nat, now: int)
    requires n <= |requests| && LateConflicts(pool, games, existing, requests, n, now) == []
    ensures forall i :: 0 <= i < n ==> !TooLate(pool, games, existing, requests[i], now)
  {
    hide TooLate;
    if n > 0 {
      NoLateConflict(pool, games, existing, requests, n - 1, now);
    }
  }

  /** A request that both checks let pass, against a stamped desk. */
  ghost predicate Accepted(pool: Pool, d: Desk, week: int, requests: seq<Request>, now: int) {
    && !HasConflict(pool, d, week, requests, now)
    && !HasFinding(pool, d, week, requests)
  }

  lemma AcceptedMeans(pool: Pool, d: Desk, week: int, requests: seq<Request>, now: int)
    requires Accepted(pool, d, week, requests, now)
    ensures
      var games := WeekOf(pool, d.games, week);
      && AllGood(pool, d.picks, week, games, requests) && !WeightsMisfit(pool, |games|)
      && (forall p :: p in PicksIn(d.picks, week) ==> !Loses(pool, games, d.games, requests, p, now))
      && (forall r :: r in requests ==> !TooLate(pool, games, PicksIn(d.picks, week), r, now))
  {
    hide WeekOf, PicksIn, Loses, TooLate, RequestFindings, PickConflicts, LateConflicts, Good, WeightsMisfit;
    var games, existing := WeekOf(pool, d.games, week), PicksIn(d.picks, week);
    NoFindingMeansGood(pool, d.picks, week, games, requests);
    NoPickConflict(pool, games, d.games, requests, existing, |existing|, now);
    NoLateConflict(pool, games, existing, requests, |requests|, now);
  }

  // ---------------------------------------------------------------- identities

  ghost predicate RequestsApart(pool: Pool, all: seq<Request>) {
    && (forall i :: 0 <= i < |all| ==> RequestIdentity(pool, all[i]).Some?)
    && (forall i, j :: 0 <= i < j < |all| ==> RequestIdentity(pool, all[i]) != RequestIdentity(pool, all[j]))
  }

  /** Good requests name different slots, or different games. */
  lemma GoodRequestsAreApart(pool: Pool, picks: seq<Pick>, week: int, games: seq<Game>, all: seq<Request>)
    requires AllGood(pool, picks, week, games, all)
    ensures RequestsApart(pool, all)
  {
    hide OffList, Blocked, UsedUp, TeamTwice, Plays, AllowedWeight, WeightTwice, FindGame;
    forall i, j | 0 <= i < j < |all| ensures RequestIdentity(pool, all[i]) != RequestIdentity(pool, all[j]) {
      assert Good(pool, picks, week, games, all, all[i]);
      var slot, gameId := all[i].slot, all[i].gameId;
      if pool.poolType.Survivor? {
        if all[j].slot == slot {
          CountTwice(all, (x: Request) => x.slot == slot, i, j);
        }
      } else if all[j].gameId == gameId {
        CountTwice(all, (x: Request) => x.gameId == gameId, i, j);
      }
    }
    forall i | 0 <= i < |all| ensures RequestIdentity(pool, all[i]).Some? {
      assert Good(pool, picks, week, games, all, all[i]);
    }
  }

  ghost predicate PicksApart(pool: Pool, card: seq<Pick>) {
    forall i, j :: 0 <= i < j < |card| ==> CardIdentity(pool, card[i]) != CardIdentity(pool, card[j])
  }

  /** Picks have their own numbers, and no slot of a week is taken twice. */
  ghost predicate PicksNumbered(picks: seq<Pick>, next: nat) {
    && (forall i :: 0 <= i < |picks| ==> picks[i].id < next)
    && (forall i, j :: 0 <= i < j < |picks| ==> picks[i].id != picks[j].id)
    && (forall i, j :: 0 <= i < j < |picks| && picks[i].week == picks[j].week ==> picks[i].slot != picks[j].slot)
  }

  ghost predicate ValidDesk(d: Desk) {
    GamesNumbered(d.games) && PicksNumbered(d.picks, d.nextPick)
  }

  /** Picks of one week are for different slots, or different games. */
  ghost predicate WellFormedCard(pool: Pool, d: Desk, week: int) {
    PicksApart(pool, PicksIn(d.picks, week))
  }

  // ---------------------------------------------------------------- the new picks

  /** Where each new pick comes from. */
  ghost predicate Sourced(pool: Pool, week: int, games: seq<Game>, held: set<Option<int>>, requests: seq<Request>, id: nat,
                          added: seq<Pick>, from: seq<nat>)
  {
    && |from| == |added|
    && (forall k :: 0 <= k < |added| ==> SourcedAt(pool, week, games, held, requests, id, added, from, k))
    && (forall k, m :: 0 <= k < m < |added| ==> from[k] < from[m])
    && (forall i :: 0 <= i < |requests| && RequestIdentity(pool, requests[i]) !in held && FindGame(games,
      requests[i].gameId).Some?
          ==> i in from)
  }

  ghost predicate SourcedAt(pool: Pool, week: int, games: seq<Game>, held: set<Option<int>>, requests: seq<Request>, id: nat,
                            added: seq<Pick>, from: seq<nat>, k: nat)
    requires k < |added| == |from|
  {
    && from[k] < |requests|
    && var r := requests[from[k]];
      && RequestIdentity(pool, r) !in held && FindGame(games, r.gameId).Some?
      && added[k] == NewPick(pool, week, FindGame(games, r.gameId).value, r, added[k].slot, id + k)
      && (pool.poolType.Survivor? && r.slot.Some? && r.slot.value != 0 ==> added[k].slot == r.slot.value)
  }

  lemma {:induction false} AddPicksSourced(pool: Pool, week: int, games: seq<Game>, existing: seq<Pick>, held: set<Option<int>>,
                                           used: set<int>, requests: seq<Request>, id: nat)
    returns (from: seq<nat>)
    ensures Sourced(pool, week, games, held, requests, id,
                    AddPicks(pool, week, games, existing, held, used, requests, id).picks, from)
  {
    hide NewPick, FreeFrom, OldSlot;
    if |requests| == 0 {
      from := [];
    } else {
      var n := |requests| - 1;
      var front := requests[..n];
      assert forall k :: 0 <= k < n ==> front[k] == requests[k];
      var before := AddPicks(pool, week, games, existing, held, used, front, id);
      var prior := AddPicksSourced(pool, week, games, existing, held, used, front, id);
      var r := requests[n];
      var game := FindGame(games, r.gameId);
      if RequestIdentity(pool, r) in held || game.None? {
        from := prior;
        SourcedSkip(pool, week, games, held, requests, id, before.picks, prior);
      } else {
        from := prior + [n];
        var slot := SlotFor(pool, existing, before.used, r);
        NewPickSlot(pool, week, game.value, r, slot, id + |before.picks|);
        SourcedSnoc(pool, week, games, held, requests, id, before.picks, prior,
                    NewPick(pool, week, game.value, r, slot, id + |before.picks|));
      }
    }
  }

  lemma NewPickSlot(pool: Pool, week: int, g: Game, r: Request, slot: int, id: nat)
    ensures
      var p := NewPick(pool, week, g, r, slot, id);
      p.slot == slot && p.week == week && p.id == id && Matches(p, r)
  {
  }

  lemma SourcedSkip(pool: Pool, week: int, games: seq<Game>, held: set<Option<int>>, requests: seq<Request>, id: nat,
                    added: seq<Pick>, from: seq<nat>)
    requires |requests| > 0
    requires Sourced(pool, week, games, held, requests[..|requests| - 1], id, added, from)
    requires
      var r := requests[|requests| - 1];
      RequestIdentity(pool, r) in held || FindGame(games, r.gameId).None?
    ensures Sourced(pool, week, games, held, requests, id, added, from)
  {
    hide NewPick;
    var front := requests[..|requests| - 1];
    forall k | 0 <= k < |added| ensures SourcedAt(pool, week, games, held, requests, id, added, from, k) {
      assert SourcedAt(pool, week, games, held, front, id, added, from, k);
    }
    forall i | 0 <= i < |requests| && RequestIdentity(pool, requests[i]) !in held && FindGame(games, requests[i].gameId).Some?
      ensures i in from
    {
      assert front[i] == requests[i];
    }
  }

  lemma SourcedSnoc(pool: Pool, week: int, games: seq<Game>, held: set<Option<int>>, requests: seq<Request>, id: nat,
                    added: seq<Pick>, from: seq<nat>, p: Pick)
    requires |requests| > 0
    requires Sourced(pool, week, games, held, requests[..|requests| - 1], id, added, from)
    requires
      var r := requests[|requests| - 1];
      && RequestIdentity(pool, r) !in held && FindGame(games, r.gameId).Some?
      && p == NewPick(pool, week, FindGame(games, r.gameId).value, r, p.slot, id + |added|)
      && (pool.poolType.Survivor? && r.slot.Some? && r.slot.value != 0 ==> p.slot == r.slot.value)
    ensures Sourced(pool, week, games, held, requests, id, added + [p], from + [|requests| - 1])
  {
    hide NewPick;
    var n := |requests| - 1;
    var front := requests[..n];
    var all, origins := added + [p], from + [n];
    forall k | 0 <= k < |all| ensures SourcedAt(pool, week, games, held, requests, id, all, origins, k) {
      if k < |added| {
        assert SourcedAt(pool, week, games, held, front, id, added, from, k);
      }
    }
    forall k | 0 <= k < |added| ensures from[k] < n {
      assert SourcedAt(pool, week, games, held, front, id, added, from, k);
    }
    forall i | 0 <= i < |requests| && RequestIdentity(pool, requests[i]) !in held && FindGame(games, requests[i].gameId).Some?
      ensures i in origins
    {
      if i < n {
        assert front[i] == requests[i];
      } else {
        assert origins[|from|] == n;
      }
    }
  }

  /** Confidence picks get slots that are free, and different from each other. */
  lemma {:induction false} NewSlotsAreFree(pool: Pool, week: int, games: seq<Game>, existing: seq<Pick>, held: set<Option<int>>,
                                           used: set<int>, requests: seq<Request>, id: nat)
    requires pool.poolType.Confidence?
    ensures
      var a := AddPicks(pool, week, games, existing, held, used, requests, id);
      && (forall k :: 0 <= k < |a.picks| ==> a.picks[k].slot !in used && a.picks[k].slot >= 1)
      && (forall k, m :: 0 <= k < m < |a.picks| ==> a.picks[k].slot != a.picks[m].slot)
      && used <= a.used && (forall k :: 0 <= k < |a.picks| ==> a.picks[k].slot in a.used)
  {
    hide NewPick, OldSlot;
    if |requests| > 0 {
      var n := |requests| - 1;
      NewSlotsAreFree(pool, week, games, existing, held, used, requests[..n], id);
      var before := AddPicks(pool, week, games, existing, held, used, requests[..n], id);
      var r := requests[n];
      var game := FindGame(games, r.gameId);
      if RequestIdentity(pool, r) !in held && game.Some? {
        var slot := SlotFor(pool, existing, before.used, r);
        NewPickSlot(pool, week, game.value, r, slot, id + |before.picks|);
      }
    }
  }

  // ---------------------------------------------------------------- the card after a save

  lemma PicksInConcat(a: seq<Pick>, b: seq<Pick>, week: int)
    ensures PicksIn(a + b, week) == PicksIn(a, week) + PicksIn(b, week)
  {
    KeepConcat(a, b, OfWeek(week));
  }

  lemma PicksInAll(picks: seq<Pick>, week: int)
    requires forall k :: 0 <= k < |picks| ==> picks[k].week == week
    ensures PicksIn(picks, week) == picks
    ensures forall other :: other != week ==> PicksIn(picks, other) == []
  {
    hide Keep;
    KeepAll(picks, OfWeek(week));
    forall other | other != week ensures PicksIn(picks, other) == [] {
      KeepNone(picks, OfWeek(other));
    }
  }

  lemma PicksInSnoc(picks: seq<Pick>, p: Pick, week: int)
    ensures PicksIn(picks + [p], week) == if p.week == week then PicksIn(picks, week) + [p] else PicksIn(picks, week)
  {
    KeepSnoc(picks, p, OfWeek(week));
  }

  lemma KeptSnoc(pool: Pool, games: seq<Game>, all: seq<Game>, picks: seq<Pick>, p: Pick, week: int, now: int)
    ensures KeptPicks(pool, games, all, picks + [p], week, now) ==
            if p.week != week || PickLocked(pool.rules, games, all, p, now)
            then KeptPicks(pool, games, all, picks, week, now) + [p]
            else KeptPicks(pool, games, all, picks, week, now)
  {
    hide PickLocked;
    KeepSnoc(picks, p, Stays(pool, games, all, week, now));
  }

  lemma NoPicks(pool: Pool, games: seq<Game>, all: seq<Game>, week: int, now: int)
    ensures KeptPicks(pool, games, all, [], week, now) == [] && PicksIn([], week) == []
  {
  }

  lemma KeptElsewhere(pool: Pool, games: seq<Game>, all: seq<Game>, picks: seq<Pick>, week: int, now: int, other: int)
    requires other != week
    ensures PicksIn(KeptPicks(pool, games, all, picks, week, now), other) == PicksIn(picks, other)
  {
    hide PickLocked, Keep;
    KeepTwice(picks, Stays(pool, games, all, week, now), OfWeek(other), OfWeek(other));
  }

  function AddedPicks(pool: Pool, d: Desk, week: int, requests: seq<Request>, now: int): seq<Pick> {
    var games, existing := WeekOf(pool, d.games, week), PicksIn(d.picks, week);
    var held := LockedPicks(pool, games, d.games, d.picks, week, now);
    AddPicks(pool, week, games, existing, HeldIdentities(pool, held), Slots(held), requests, d.nextPick).picks
  }

  function HeldPicks(pool: Pool, d: Desk, week: int, now: int): seq<Pick> {
    LockedPicks(pool, WeekOf(pool, d.games, week), d.games, d.picks, week, now)
  }

  /** The week's card is the locked picks followed by the new ones; other weeks are untouched. */
  lemma CardAfterSave(pool: Pool, d: Desk, week: int, requests: seq<Request>, now: int)
    ensures
      var later := Stored(pool, d, week, requests, now);
      && PicksIn(later.picks, week) == HeldPicks(pool, d, week, now) + AddedPicks(pool, d, week, requests, now)
      && (forall other :: other != week ==> PicksIn(later.picks, other) == PicksIn(d.picks, other))
      && VersionOf(later, week) == VersionOf(d, week) + 1
      && (forall other :: other != week ==> VersionOf(later, other) == VersionOf(d, other))
      && later.games == d.games
  {
    hide WeekOf, AddPicks, PickLocked, KeptPicks;
    var games := WeekOf(pool, d.games, week);
    var kept := KeptPicks(pool, games, d.games, d.picks, week, now);
    var added := AddedPicks(pool, d, week, requests, now);
    AddedOrigin(pool, d, week, requests, now);
    PicksInAll(added, week);
    PicksInConcat(kept, added, week);
    forall other | other != week ensures PicksIn(kept + added, other) == PicksIn(d.picks, other) {
      PicksInConcat(kept, added, other);
      KeptElsewhere(pool, games, d.games, d.picks, week, now, other);
    }
  }

  /** New picks are of the week, and on a game of the week. */
  lemma AddedOrigin(pool: Pool, d: Desk, week: int, requests: seq<Request>, now: int)
    ensures
      var added := AddedPicks(pool, d, week, requests, now);
      forall k :: 0 <= k < |added| ==> added[k].week == week && GameOf(WeekOf(pool, d.games, week), added[k]).Some?
  {
    hide NewPick, AddPicks, PickLocked, FindGame, WeekOf, PicksIn, LockedPicks, HeldIdentities, Slots;
    var games, existing := WeekOf(pool, d.games, week), PicksIn(d.picks, week);
    var held := HeldPicks(pool, d, week, now);
    var from := AddPicksSourced(pool, week, games, existing, HeldIdentities(pool, held), Slots(held), requests, d.nextPick);
    var added := AddedPicks(pool, d, week, requests, now);
    forall k | 0 <= k < |added| ensures added[k].week == week && GameOf(games, added[k]).Some? {
      assert SourcedAt(pool, week, games, HeldIdentities(pool, held), requests, d.nextPick, added, from, k);
      var r := requests[from[k]];
      NewPickSlot(pool, week, FindGame(games, r.gameId).value, r, added[k].slot, d.nextPick + k);
    }
  }

  // ---------------------------------------------------------------- exactly the requested picks

  /** A stored pick is what a request asks for. */
  ghost predicate Fulfils(pool: Pool, p: Pick, r: Request) {
    CardIdentity(pool, p) == RequestIdentity(pool, r) && Matches(p, r)
  }

  ghost predicate Asked(pool: Pool, p: Pick, requests: seq<Request>) {
    exists k :: 0 <= k < |requests| && Fulfils(pool, p, requests[k])
  }

  ghost predicate Served(pool: Pool, card: seq<Pick>, r: Request) {
    exists i :: 0 <= i < |card| && Fulfils(pool, card[i], r)
  }

  ghost predicate EachFulfils(pool: Pool, card: seq<Pick>, requests: seq<Request>) {
    forall i :: 0 <= i < |card| ==> Asked(pool, card[i], requests)
  }

  ghost predicate EachFulfilled(pool: Pool, card: seq<Pick>, requests: seq<Request>) {
    forall i :: 0 <= i < |requests| ==> Served(pool, card, requests[i])
  }

  lemma IsAsked(pool: Pool, p: Pick, requests: seq<Request>, r: Request)
    requires r in requests && Fulfils(pool, p, r)
    ensures Asked(pool, p, requests)
  {
    var k :| 0 <= k < |requests| && requests[k] == r;
  }

  lemma IsServed(pool: Pool, card: seq<Pick>, p: Pick, r: Request)
    requires p in card && Fulfils(pool, p, r)
    ensures Served(pool, card, r)
  {
    var i :| 0 <= i < |card| && card[i] == p;
  }

  lemma HeldFulfils(pool: Pool, d: Desk, week: int, requests: seq<Request>, now: int, p: Pick) returns (r: Request)
    requires Accepted(pool, d, week, requests, now) && p in HeldPicks(pool, d, week, now)
    ensures r in requests && Fulfils(pool, p, r)
  {
    hide WeekOf, PickLocked, Accepted, Good;
    AcceptedMeans(pool, d, week, requests, now);
    assert p in PicksIn(d.picks, week);
    r := FindRequest(pool, requests, CardIdentity(pool, p)).value;
  }

  lemma AddedFulfils(pool: Pool, d: Desk, week: int, requests: seq<Request>, now: int) returns (from: seq<nat>)
    requires Accepted(pool, d, week, requests, now)
    ensures
      var added := AddedPicks(pool, d, week, requests, now);
      var held := HeldIdentities(pool, HeldPicks(pool, d, week, now));
      && |from| == |added|
      && (forall k :: 0 <= k < |added| ==>
            && from[k] < |requests| && Fulfils(pool, added[k], requests[from[k]])
            && added[k].id == d.nextPick + k && CardIdentity(pool, added[k]) !in held)
      && (forall k, m :: 0 <= k < m < |added| ==> from[k] < from[m])
      && (forall i :: 0 <= i < |requests| && RequestIdentity(pool, requests[i]) !in held ==> i in from)
  {
    hide WeekOf, PickLocked, Accepted, NewPick, AddPicks, KeptPicks, HeldIdentities, Slots, LockedPicks;
    AcceptedMeans(pool, d, week, requests, now);
    var games, existing := WeekOf(pool, d.games, week), PicksIn(d.picks, week);
    var held := HeldIdentities(pool, HeldPicks(pool, d, week, now));
    from := AddPicksSourced(pool, week, games, existing, held, Slots(HeldPicks(pool, d, week, now)), requests, d.nextPick);
    var added := AddedPicks(pool, d, week, requests, now);
    forall k | 0 <= k < |added|
      ensures from[k] < |requests| && Fulfils(pool, added[k], requests[from[k]])
              && added[k].id == d.nextPick + k && CardIdentity(pool, added[k]) !in held
    {
      assert SourcedAt(pool, week, games, held, requests, d.nextPick, added, from, k);
      var r := requests[from[k]];
      NewPickSlot(pool, week, FindGame(games, r.gameId).value, r, added[k].slot, d.nextPick + k);
      assert Good(pool, d.picks, week, games, requests, r);
    }
    forall i | 0 <= i < |requests| && RequestIdentity(pool, requests[i]) !in held ensures i in from {
      assert Good(pool, d.picks, week, games, requests, requests[i]);
    }
  }

  lemma ApartSnoc(pool: Pool, card: seq<Pick>, p: Pick)
    ensures PicksApart(pool, card + [p]) <==>
            PicksApart(pool, card) && forall q :: q in card ==> CardIdentity(pool, q) != CardIdentity(pool, p)
  {
    var all := card + [p];
    if PicksApart(pool, all) {
      forall i, j | 0 <= i < j < |card| ensures CardIdentity(pool, card[i]) != CardIdentity(pool, card[j]) {
        assert all[i] == card[i] && all[j] == card[j];
      }
      forall q | q in card ensures CardIdentity(pool, q) != CardIdentity(pool, p) {
        var i :| 0 <= i < |card| && card[i] == q;
        assert all[i] == q && all[|card|] == p;
      }
    }
  }

  lemma {:induction false} HeldApart(pool: Pool, games: seq<Game>, all: seq<Game>, picks: seq<Pick>, week: int, now: int)
    requires PicksApart(pool, PicksIn(picks, week))
    ensures PicksApart(pool, LockedPicks(pool, games, all, picks, week, now))
  {
    hide PickLocked, KeptPicks, PicksIn, PicksApart;
    NoPicks(pool, games, all, week, now);
    if |picks| > 0 {
      var front, p := picks[..|picks| - 1], picks[|picks| - 1];
      assert picks == front + [p];
      KeptSnoc(pool, games, all, front, p, week, now);
      PicksInSnoc(front, p, week);
      PicksInSnoc(KeptPicks(pool, games, all, front, week, now), p, week);
      ApartSnoc(pool, PicksIn(front, week), p);
      HeldApart(pool, games, all, front, week, now);
      ApartSnoc(pool, LockedPicks(pool, games, all, front, week, now), p);
    }
  }

  /** Every pick is asked for. */
  lemma CardFulfils(pool: Pool, d: Desk, week: int, requests: seq<Request>, now: int)
    requires Accepted(pool, d, week, requests, now)
    ensures EachFulfils(pool, HeldPicks(pool, d, week, now) + AddedPicks(pool, d, week, requests, now), requests)
  {
    hide WeekOf, PickLocked, Accepted, AddPicks, KeptPicks, LockedPicks, Stored, PicksIn, Fulfils, HeldPicks, AddedPicks, Asked;
    var held, added := HeldPicks(pool, d, week, now), AddedPicks(pool, d, week, requests, now);
    var card := held + added;
    var from := AddedFulfils(pool, d, week, requests, now);
    forall i | 0 <= i < |card| ensures Asked(pool, card[i], requests) {
      if i < |held| {
        var r := HeldFulfils(pool, d, week, requests, now, held[i]);
        IsAsked(pool, card[i], requests, r);
      } else {
        IsAsked(pool, card[i], requests, requests[from[i - |held|]]);
      }
    }
  }

  lemma IsHeld(pool: Pool, held: seq<Pick>, identity: Option<int>) returns (p: Pick)
    requires identity in HeldIdentities(pool, held)
    ensures p in held && CardIdentity(pool, p) == identity
  {
    var k :| 0 <= k < |held| && CardIdentity(pool, held[k]) == identity;
    p := held[k];
  }

  lemma HoldsIdentity(pool: Pool, held: seq<Pick>, p: Pick)
    requires p in held
    ensures CardIdentity(pool, p) in HeldIdentities(pool, held)
  {
  }

  lemma SameRequest(pool: Pool, requests: seq<Request>, p: Pick, r: Request, i: nat)
    requires RequestsApart(pool, requests) && r in requests && Fulfils(pool, p, r)
    requires i < |requests| && RequestIdentity(pool, requests[i]) == CardIdentity(pool, p)
    ensures requests[i] == r
  {
    var k :| 0 <= k < |requests| && requests[k] == r;
  }

  lemma AcceptedApart(pool: Pool, d: Desk, week: int, requests: seq<Request>, now: int)
    requires Accepted(pool, d, week, requests, now)
    ensures RequestsApart(pool, requests)
  {
    AcceptedMeans(pool, d, week, requests, now);
    GoodRequestsAreApart(pool, d.picks, week, WeekOf(pool, d.games, week), requests);
  }

  /** Everything asked for is there. */
  lemma CardFulfilled(pool: Pool, d: Desk, week: int, requests: seq<Request>, now: int)
    requires Accepted(pool, d, week, requests, now)
    ensures EachFulfilled(pool, HeldPicks(pool, d, week, now) + AddedPicks(pool, d, week, requests, now), requests)
  {
    hide WeekOf, PickLocked, Accepted, AddPicks, KeptPicks, LockedPicks, Stored, PicksIn, Fulfils, HeldPicks,
         AddedPicks, HeldIdentities, RequestsApart, Served;
    var held, added := HeldPicks(pool, d, week, now), AddedPicks(pool, d, week, requests, now);
    var card := held + added;
    AcceptedApart(pool, d, week, requests, now);
    var from := AddedFulfils(pool, d, week, requests, now);
    forall i | 0 <= i < |requests| ensures Served(pool, card, requests[i]) {
      if RequestIdentity(pool, requests[i]) in HeldIdentities(pool, held) {
        var p := IsHeld(pool, held, RequestIdentity(pool, requests[i]));
        var r := HeldFulfils(pool, d, week, requests, now, p);
        SameRequest(pool, requests, p, r, i);
        IsServed(pool, card, p, requests[i]);
      } else {
        var k :| 0 <= k < |from| && from[k] == i;
        assert card[|held| + k] == added[k];
        IsServed(pool, card, added[k], requests[i]);
      }
    }
  }

  lemma FulfilsIdentity(pool: Pool, p: Pick, r: Request)
    requires Fulfils(pool, p, r)
    ensures CardIdentity(pool, p) == RequestIdentity(pool, r)
  {
  }

  lemma AddedApart(pool: Pool, d: Desk, week: int, requests: seq<Request>, now: int)
    requires Accepted(pool, d, week, requests, now)
    ensures PicksApart(pool, AddedPicks(pool, d, week, requests, now))
  {
    hide WeekOf, PickLocked, Accepted, AddPicks, KeptPicks, LockedPicks, Stored, PicksIn, Fulfils, HeldPicks,
         AddedPicks, HeldIdentities;
    AcceptedApart(pool, d, week, requests, now);
    var from := AddedFulfils(pool, d, week, requests, now);
    var added := AddedPicks(pool, d, week, requests, now);
    forall i, j | 0 <= i < j < |added| ensures CardIdentity(pool, added[i]) != CardIdentity(pool, added[j]) {
      FulfilsIdentity(pool, added[i], requests[from[i]]);
      FulfilsIdentity(pool, added[j], requests[from[j]]);
    }
  }

  /** The card after an accepted save and the request say the same, pick by pick. */
  lemma CardIsTheRequest(pool: Pool, d: Desk, week: int, requests: seq<Request>, now: int)
    requires Accepted(pool, d, week, requests, now) && WellFormedCard(pool, d, week)
    ensures
      var card := PicksIn(Stored(pool, d, week, requests, now).picks, week);
      EachFulfils(pool, card, requests) && EachFulfilled(pool, card, requests) && PicksApart(pool, card)
  {
    hide WeekOf, PickLocked, Accepted, AddPicks, KeptPicks, LockedPicks, Stored, PicksIn, Fulfils, HeldPicks,
         AddedPicks, HeldIdentities, EachFulfils, EachFulfilled;
    var held, added := HeldPicks(pool, d, week, now), AddedPicks(pool, d, week, requests, now);
    var card := held + added;
    CardAfterSave(pool, d, week, requests, now);
    CardFulfils(pool, d, week, requests, now);
    CardFulfilled(pool, d, week, requests, now);
    AddedApart(pool, d, week, requests, now);
    HeldIsApart(pool, d, week, now);
    var from := AddedFulfils(pool, d, week, requests, now);
    forall i, j | 0 <= i < |held| && 0 <= j < |added| ensures CardIdentity(pool, held[i]) != CardIdentity(pool, added[j]) {
      HoldsIdentity(pool, held, held[i]);
    }
    JoinApart(pool, held, added);
  }

  lemma JoinApart(pool: Pool, a: seq<Pick>, b: seq<Pick>)
    requires PicksApart(pool, a) && PicksApart(pool, b)
    requires forall i, j :: 0 <= i < |a| && 0 <= j < |b| ==> CardIdentity(pool, a[i]) != CardIdentity(pool, b[j])
    ensures PicksApart(pool, a + b)
  {
    hide CardIdentity;
  }

  lemma HeldIsApart(pool: Pool, d: Desk, week: int, now: int)
    requires WellFormedCard(pool, d, week)
    ensures PicksApart(pool, HeldPicks(pool, d, week, now))
  {
    hide KeptPicks, PickLocked, WeekOf, LockedPicks, PicksApart;
    HeldApart(pool, WeekOf(pool, d.games, week), d.games, d.picks, week, now);
  }

  // ---------------------------------------------------------------- the card as a multiset

  ghost predicate CardHas(pool: Pool, card: seq<Pick>, line: CardLine) {
    exists i :: 0 <= i < |card| && LineOf(pool, card[i]) == line
  }

  ghost predicate RequestHas(pool: Pool, all: seq<Request>, line: CardLine) {
    exists i :: 0 <= i < |all| && LineOfRequest(pool, all[i]) == line
  }

  lemma SameLineSameIdentity(pool: Pool, a: Pick, b: Pick)
    requires LineOf(pool, a) == LineOf(pool, b)
    ensures CardIdentity(pool, a) == CardIdentity(pool, b)
  {
  }

  lemma {:induction false} CardLineCount(pool: Pool, card: seq<Pick>, line: CardLine)
    requires PicksApart(pool, card)
    ensures CardLines(pool, card)[line] <= 1
    ensures CardLines(pool, card)[line] == 1 <==> CardHas(pool, card, line)
  {
    hide LineOf, CardIdentity;
    if |card| > 0 {
      var n := |card| - 1;
      var front := card[..n];
      assert forall i :: 0 <= i < n ==> front[i] == card[i];
      CardLineCount(pool, front, line);
      if LineOf(pool, card[n]) == line {
        forall i | 0 <= i < n ensures LineOf(pool, front[i]) != line {
          if LineOf(pool, card[i]) == line {
            SameLineSameIdentity(pool, card[i], card[n]);
            assert false;
          }
        }
        assert LineOf(pool, card[n]) == line;
      } else if CardHas(pool, front, line) {
        var i :| 0 <= i < n && LineOf(pool, front[i]) == line;
        assert LineOf(pool, card[i]) == line;
      }
    }
  }

  lemma SameLineSameRequest(pool: Pool, a: Request, b: Request)
    requires LineOfRequest(pool, a) == LineOfRequest(pool, b)
    requires RequestIdentity(pool, a).Some? && RequestIdentity(pool, b).Some?
    ensures RequestIdentity(pool, a) == RequestIdentity(pool, b)
  {
  }

  lemma {:induction false} RequestLineCount(pool: Pool, all: seq<Request>, line: CardLine)
    requires RequestsApart(pool, all)
    ensures RequestLines(pool, all)[line] <= 1
    ensures RequestLines(pool, all)[line] == 1 <==> RequestHas(pool, all, line)
  {
    hide LineOfRequest, RequestIdentity;
    if |all| > 0 {
      var n := |all| - 1;
      var front := all[..n];
      assert forall i :: 0 <= i < n ==> front[i] == all[i];
      RequestLineCount(pool, front, line);
      if LineOfRequest(pool, all[n]) == line {
        forall i | 0 <= i < n ensures LineOfRequest(pool, front[i]) != line {
          if LineOfRequest(pool, all[i]) == line {
            SameLineSameRequest(pool, all[i], all[n]);
            assert false;
          }
        }
        assert LineOfRequest(pool, all[n]) == line;
      } else if RequestHas(pool, front, line) {
        var i :| 0 <= i < n && LineOfRequest(pool, front[i]) == line;
        assert LineOfRequest(pool, all[i]) == line;
      }
    }
  }

  lemma FulfilsSameLine(pool: Pool, p: Pick, r: Request)
    requires Fulfils(pool, p, r)
    ensures LineOf(pool, p) == LineOfRequest(pool, r)
  {
  }

  lemma LinesAnswer(pool: Pool, card: seq<Pick>, requests: seq<Request>, line: CardLine)
    requires EachFulfils(pool, card, requests) && EachFulfilled(pool, card, requests)
    ensures CardHas(pool, card, line) <==> RequestHas(pool, requests, line)
  {
    hide Fulfils, LineOf, LineOfRequest;
    if CardHas(pool, card, line) {
      var i :| 0 <= i < |card| && LineOf(pool, card[i]) == line;
      assert Asked(pool, card[i], requests);
      var k :| 0 <= k < |requests| && Fulfils(pool, card[i], requests[k]);
      FulfilsSameLine(pool, card[i], requests[k]);
      assert LineOfRequest(pool, requests[k]) == line;
    }
    if RequestHas(pool, requests, line) {
      var k :| 0 <= k < |requests| && LineOfRequest(pool, requests[k]) == line;
      assert Served(pool, card, requests[k]);
      var i :| 0 <= i < |card| && Fulfils(pool, card[i], requests[k]);
      FulfilsSameLine(pool, card[i], requests[k]);
      assert LineOf(pool, card[i]) == line;
    }
  }

  /** A card and a request that answer each other pick by pick are equal when normalised. */
  lemma SameLines(pool: Pool, card: seq<Pick>, requests: seq<Request>)
    requires PicksApart(pool, card) && RequestsApart(pool, requests)
    requires EachFulfils(pool, card, requests) && EachFulfilled(pool, card, requests)
    ensures CardLines(pool, card) == RequestLines(pool, requests)
  {
    hide CardLines, RequestLines, CardHas, RequestHas, PicksApart, RequestsApart, EachFulfils, EachFulfilled;
    forall line: CardLine ensures CardLines(pool, card)[line] == RequestLines(pool, requests)[line] {
      CardLineCount(pool, card, line);
      RequestLineCount(pool, requests, line);
      LinesAnswer(pool, card, requests, line);
    }
  }

  /** An accepted save stores exactly the requested picks: the two normalised cards are equal. */
  lemma SavedCardIsRequested(pool: Pool, d: Desk, week: int, requests: seq<Request>, now: int)
    requires Accepted(pool, d, week, requests, now) && WellFormedCard(pool, d, week)
    ensures CardLines(pool, PicksIn(Stored(pool, d, week, requests, now).picks, week)) == RequestLines(pool, requests)
  {
    hide Accepted, Stored, PicksIn, CardLines, RequestLines, EachFulfils, EachFulfilled, PicksApart, RequestsApart;
    CardIsTheRequest(pool, d, week, requests, now);
    AcceptedApart(pool, d, week, requests, now);
    SameLines(pool, PicksIn(Stored(pool, d, week, requests, now).picks, week), requests);
  }

  /** Sending an accepted card again, with the version it was sent with, finds it unchanged. */
  lemma ResentCardIsUnchanged(pool: Pool, active: bool, d: Desk, week: int, version: nat, requests: seq<Request>,
                              now: int, resent: int)
    requires SaveCard(pool, active, d, week, version, requests, now).Saved? && WellFormedCard(pool, d, week)
    ensures
      var later := SaveCard(pool, active, d, week, version, requests, now).desk;
      && VersionOf(later, week) == version + 1
      && SaveCard(pool, active, later, week, version, requests, resent) == Unchanged(StampDesk(pool, later, resent))
  {
    hide WeekOf, PicksIn, Stored, CardLines, RequestLines, StandingOf, InSeason, HasConflict, HasFinding, StampDueGames;
    var stamped := StampDesk(pool, d, now);
    CardAfterSave(pool, stamped, week, requests, now);
    SavedCardIsRequested(pool, stamped, week, requests, now);
  }

  // ---------------------------------------------------------------- a valid desk stays valid

  lemma {:induction false} KeptIsFrom(pool: Pool, games: seq<Game>, all: seq<Game>, picks: seq<Pick>, week: int,
                                      now: int) returns (from: seq<nat>)
    ensures
      var kept := KeptPicks(pool, games, all, picks, week, now);
      && |from| == |kept|
      && (forall k :: 0 <= k < |kept| ==> from[k] < |picks| && kept[k] == picks[from[k]])
      && (forall k, m :: 0 <= k < m < |kept| ==> from[k] < from[m])
  {
    hide KeptPicks, PickLocked;
    NoPicks(pool, games, all, week, now);
    from := [];
    if |picks| > 0 {
      var front, p := picks[..|picks| - 1], picks[|picks| - 1];
      assert picks == front + [p];
      from := KeptIsFrom(pool, games, all, front, week, now);
      KeptSnoc(pool, games, all, front, p, week, now);
      if p.week != week || PickLocked(pool.rules, games, all, p, now) {
        from := from + [|front|];
      }
    }
  }

  lemma KeptNumbered(pool: Pool, games: seq<Game>, all: seq<Game>, picks: seq<Pick>, week: int, now: int, next: nat)
    requires PicksNumbered(picks, next)
    ensures PicksNumbered(KeptPicks(pool, games, all, picks, week, now), next)
  {
    hide KeptPicks;
    var from := KeptIsFrom(pool, games, all, picks, week, now);
  }

  /** New picks take slots no locked pick of the week has, each a different one. */
  lemma AddedSlots(pool: Pool, d: Desk, week: int, requests: seq<Request>, now: int)
    requires Accepted(pool, d, week, requests, now)
    ensures
      var added, held := AddedPicks(pool, d, week, requests, now), HeldPicks(pool, d, week, now);
      && (forall k, m :: 0 <= k < m < |added| ==> added[k].slot != added[m].slot)
      && (forall k, m :: 0 <= k < |added| && 0 <= m < |held| ==> added[k].slot != held[m].slot)
  {
    hide WeekOf, PickLocked, Accepted, NewPick, KeptPicks, LockedPicks, AddPicks;
    var added, held := AddedPicks(pool, d, week, requests, now), HeldPicks(pool, d, week, now);
    if pool.poolType.Survivor? {
      AddedApart(pool, d, week, requests, now);
      var from := AddedFulfils(pool, d, week, requests, now);
      forall k, m | 0 <= k < |added| && 0 <= m < |held| ensures added[k].slot != held[m].slot {
        HoldsIdentity(pool, held, held[m]);
      }
    } else {
      NewSlotsAreFree(pool, week, WeekOf(pool, d.games, week), PicksIn(d.picks, week), HeldIdentities(pool, held), Slots(held),
                      requests, d.nextPick);
    }
  }

  /** After an accepted save numbers are still unique and no slot of a week is taken twice. */
  lemma SavedDeskIsValid(pool: Pool, d: Desk, week: int, requests: seq<Request>, now: int)
    requires Accepted(pool, d, week, requests, now) && ValidDesk(d)
    ensures ValidDesk(Stored(pool, d, week, requests, now))
  {
    hide WeekOf, PickLocked, Accepted, KeptPicks, AddPicks, Fulfils, HeldIdentities, PicksIn;
    var games := WeekOf(pool, d.games, week);
    var kept := KeptPicks(pool, games, d.games, d.picks, week, now);
    var added, held := AddedPicks(pool, d, week, requests, now), HeldPicks(pool, d, week, now);
    KeptNumbered(pool, games, d.games, d.picks, week, now, d.nextPick);
    AddedSlots(pool, d, week, requests, now);
    AddedOrigin(pool, d, week, requests, now);
    var from := AddedFulfils(pool, d, week, requests, now);
    forall i, k | 0 <= i < |kept| && 0 <= k < |added| && kept[i].week == week ensures kept[i].slot != added[k].slot {
      assert kept[i] in PicksIn(kept, week);
    }
    JoinNumbered(kept, added, d.nextPick, week);
  }

  lemma JoinNumbered(kept: seq<Pick>, added: seq<Pick>, next: nat, week: int)
    requires PicksNumbered(kept, next)
    requires forall k :: 0 <= k < |added| ==> added[k].id == next + k && added[k].week == week
    requires forall k, m :: 0 <= k < m < |added| ==> added[k].slot != added[m].slot
    requires forall i, k :: 0 <= i < |kept| && 0 <= k < |added| && kept[i].week == week ==> kept[i].slot != added[k].slot
    ensures PicksNumbered(kept + added, next + |added|)
  {
  }
}
