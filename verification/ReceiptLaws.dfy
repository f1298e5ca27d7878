/**
  What a saved pick records of its moment: the line, the kind of forecast, the chance and the slot, and what
  settlement can make of it later.
*/
module ReceiptLaws {
  import opened Wrappers
  import opened PoolModel
  import opened PoolOutcomes
  import opened WeeklyCard
  import opened CardLaws
  import opened ChanceLaws
  import opened GradeLaws
  import opened LockLaws

  // ---------------------------------------------------------------- the receipt

  /** The pick is on the game, for one of its teams, with the line and the forecast that the game has. */
  ghost predicate IsReceipt(pool: Pool, week: int, g: Game, p: Pick) {
    && g.season == pool.season && g.week == week == p.week && p.gameId == Some(g.id)
    && (p.team == g.away || p.team == g.home) && PermittedInCapitals(pool.rules, p.team)
    && p.spreadHome == g.spreadHome
    && p.kind.Some? && HasKind(pool.rules, g, p.kind.value)
    && (if IsEvidence(p.kind.value) then p.probability.Some? && HasChance(pool.rules, g, p.team, p.probability.value)
        else p.probability == None)
  }

  lemma NewPickIsReceipt(pool: Pool, week: int, g: Game, r: Request, slot: int, id: nat)
    requires g.season == pool.season && g.week == week && r.gameId == g.id && Plays(g, r.team)
    requires !OffList(pool.rules, r.team) && !Blocked(pool.rules, r.team)
    ensures IsReceipt(pool, week, g, NewPick(pool, week, g, r, slot, id))
  {
    hide OffList, Blocked, PermittedInCapitals, HasChance, Survival, KindFor, HasKind;
    CapitalChecks(pool.rules, r.team);
    SurvivalIsChance(pool.rules, g, r.team);
    KindIsEvidence(pool.rules, g);
  }

  lemma AddedIsReceipt(pool: Pool, d: Desk, week: int, requests: seq<Request>, now: int, k: nat) returns (g: Game)
    requires Accepted(pool, d, week, requests, now) && k < |AddedPicks(pool, d, week, requests, now)|
    ensures g in d.games && IsReceipt(pool, week, g, AddedPicks(pool, d, week, requests, now)[k])
  {
    hide Accepted, AddedPicks, HeldPicks, AddPicks, IsReceipt, NewPick, OffList, Blocked, UsedUp, TeamTwice, GameTwice, SlotTwice,
         WeightTwice, AllowedWeight, PicksIn, HeldIdentities, Slots, WeightsMisfit, Loses, TooLate;
    var games, existing := WeekOf(pool, d.games, week), PicksIn(d.picks, week);
    var held, added := HeldPicks(pool, d, week, now), AddedPicks(pool, d, week, requests, now);
    AcceptedMeans(pool, d, week, requests, now);
    AddedAre(pool, d, week, requests, now);
    var from := AddPicksSourced(pool, week, games, existing, HeldIdentities(pool, held), Slots(held), requests, d.nextPick);
    assert SourcedAt(pool, week, games, HeldIdentities(pool, held), requests, d.nextPick, added, from, k);
    var r := requests[from[k]];
    assert Good(pool, d.picks, week, games, requests, r);
    g := FindGame(games, r.gameId).value;
    NewPickIsReceipt(pool, week, g, r, added[k].slot, d.nextPick + k);
  }

  lemma AddedAre(pool: Pool, d: Desk, week: int, requests: seq<Request>, now: int)
    ensures
      var held := HeldPicks(pool, d, week, now);
      AddedPicks(pool, d, week, requests, now)
      == AddPicks(pool, week, WeekOf(pool, d.games, week), PicksIn(d.picks, week), HeldIdentities(pool, held), Slots(held),
                  requests, d.nextPick).picks
  {
  }

  lemma StampedReceipt(pool: Pool, week: int, g: Game, p: Pick, now: int)
    requires IsReceipt(pool, week, Stamped(g, pool.season, now), p)
    ensures IsReceipt(pool, week, g, p)
  {
    hide PermittedInCapitals;
  }

  /** Every pick that an accepted save adds is a receipt of a game on file. */
  lemma SavedPickIsReceipt(pool: Pool, active: bool, d: Desk, week: int, version: nat, requests: seq<Request>, now: int, p: Pick)
    returns (g: Game)
    requires SaveCard(pool, active, d, week, version, requests, now).Saved?
    requires p in SaveCard(pool, active, d, week, version, requests, now).desk.picks && p !in d.picks
    ensures g in d.games && IsReceipt(pool, week, g, p)
  {
    hide WeekOf, PicksIn, StandingOf, InSeason, HasConflict, HasFinding, CardLines, RequestLines, Stored, KeptPicks, AddedPicks,
         IsReceipt, StampDueGames;
    var stamped := StampDesk(pool, d, now);
    StoredIs(pool, stamped, week, requests, now);
    assert p in AddedPicks(pool, stamped, week, requests, now);
    var k :| 0 <= k < |AddedPicks(pool, stamped, week, requests, now)| && AddedPicks(pool, stamped, week, requests, now)[k] == p;
    var h := AddedIsReceipt(pool, stamped, week, requests, now, k);
    var t :| 0 <= t < |stamped.games| && stamped.games[t] == h;
    g := d.games[t];
    StampedReceipt(pool, week, g, p, now);
  }

  // ---------------------------------------------------------------- the slot

  /** The card had the game in this slot. */
  ghost predicate HadSlot(existing: seq<Pick>, gameId: int, slot: int) {
    exists q :: q in existing && q.gameId == Some(gameId) && q.slot == slot
  }

  /** The slot the game had, if it is a slot and nobody has it now; otherwise the lowest one that is free. */
  ghost predicate IsSlotFor(existing: seq<Pick>, taken: set<int>, gameId: int, slot: int) {
    && slot >= 1 && slot !in taken
    && (HadSlot(existing, gameId, slot)
        || ((forall was :: HadSlot(existing, gameId, was) ==> was < 1 || was in taken)
            && forall lower :: 1 <= lower < slot ==> lower in taken))
  }

  lemma {:induction false} OldSlotIs(existing: seq<Pick>, gameId: int)
    requires forall i, j :: 0 <= i < j < |existing| ==> existing[i].gameId != existing[j].gameId
    ensures if exists was :: HadSlot(existing, gameId, was)
            then HadSlot(existing, gameId, OldSlot(existing, gameId))
                 && forall was :: HadSlot(existing, gameId, was) ==> was == OldSlot(existing, gameId)
            else OldSlot(existing, gameId) == 0
  {
    if |existing| > 0 {
      var front, last := existing[..|existing| - 1], existing[|existing| - 1];
      OldSlotIs(front, gameId);
      if last.gameId == Some(gameId) {
        assert HadSlot(existing, gameId, last.slot);
      } else {
        forall was ensures HadSlot(existing, gameId, was) <==> HadSlot(front, gameId, was) {
        }
      }
    }
  }

  lemma SlotIs(pool: Pool, existing: seq<Pick>, used: set<int>, r: Request)
    requires forall i, j :: 0 <= i < j < |existing| ==> existing[i].gameId != existing[j].gameId
    requires pool.poolType == Confidence
    ensures IsSlotFor(existing, used, r.gameId, SlotFor(pool, existing, used, r))
  {
    hide OldSlot, HadSlot;
    OldSlotIs(existing, r.gameId);
  }

  /** The slots that are taken when the pick at `k` is added. */
  ghost function TakenBefore(used: set<int>, picks: seq<Pick>, k: nat): set<int>
    requires k <= |picks|
  {
    used + Slots(picks[..k])
  }

  lemma SlotsSnoc(picks: seq<Pick>, p: Pick)
    ensures Slots(picks + [p]) == Slots(picks) + {p.slot}
  {
    var both := picks + [p];
    assert both[|picks|] == p;
    forall s | s in Slots(picks) ensures s in Slots(both) {
      var i :| 0 <= i < |picks| && picks[i].slot == s;
      assert both[i] == picks[i];
    }
  }

  /** New confidence picks take their old slots or the lowest free ones, one after another. */
  lemma {:induction false} SlotsTold(pool: Pool, week: int, games: seq<Game>, existing: seq<Pick>, held: set<Option<int>>,
                                     used: set<int>, requests: seq<Request>, id: nat)
    requires pool.poolType == Confidence
    requires forall i, j :: 0 <= i < j < |existing| ==> existing[i].gameId != existing[j].gameId
    ensures
      var a := AddPicks(pool, week, games, existing, held, used, requests, id);
      && a.used == used + Slots(a.picks)
      && forall k :: 0 <= k < |a.picks| ==>
           a.picks[k].gameId.Some?
           && IsSlotFor(existing, TakenBefore(used, a.picks, k), a.picks[k].gameId.value, a.picks[k].slot)
  {
    hide NewPick, SlotFor, IsSlotFor, FindGame, Slots;
    var a := AddPicks(pool, week, games, existing, held, used, requests, id);
    if |requests| == 0 {
      NoSlots();
    } else {
      var front, r := requests[..|requests| - 1], requests[|requests| - 1];
      var before := AddPicks(pool, week, games, existing, held, used, front, id);
      SlotsTold(pool, week, games, existing, held, used, front, id);
      if RequestIdentity(pool, r) !in held && FindGame(games, r.gameId).Some? {
        var slot := SlotFor(pool, existing, before.used, r);
        var p := NewPick(pool, week, FindGame(games, r.gameId).value, r, slot, id + |before.picks|);
        NewPickSlot(pool, week, FindGame(games, r.gameId).value, r, slot, id + |before.picks|);
        SlotIs(pool, existing, before.used, r);
        SlotsSnoc(before.picks, p);
        assert a.picks == before.picks + [p];
        forall k | 0 <= k < |a.picks|
          ensures a.picks[k].gameId.Some?
          ensures IsSlotFor(existing, TakenBefore(used, a.picks, k), a.picks[k].gameId.value, a.picks[k].slot)
        {
          assert a.picks[..k] == before.picks[..k];
          assert before.picks[..|before.picks|] == before.picks;
        }
      }
    }
  }

  /** On a confidence card each new pick has the slot its game had, or the lowest free one; locked picks keep theirs. */
  lemma SavedSlotsTold(pool: Pool, d: Desk, week: int, requests: seq<Request>, now: int, k: nat)
    requires pool.poolType == Confidence && WellFormedCard(pool, d, week)
    requires k < |AddedPicks(pool, d, week, requests, now)|
    ensures
      var added := AddedPicks(pool, d, week, requests, now);
      && added[k].gameId.Some?
      && IsSlotFor(PicksIn(d.picks, week), TakenBefore(Slots(HeldPicks(pool, d, week, now)), added, k),
                   added[k].gameId.value, added[k].slot)
  {
    hide AddPicks, IsSlotFor, WeekOf, PicksIn, HeldPicks, HeldIdentities, Slots, AddedPicks;
    var held := HeldPicks(pool, d, week, now);
    var existing := PicksIn(d.picks, week);
    AddedAre(pool, d, week, requests, now);
    forall i, j | 0 <= i < j < |existing| ensures existing[i].gameId != existing[j].gameId {
      assert CardIdentity(pool, existing[i]) != CardIdentity(pool, existing[j]);
    }
    SlotsTold(pool, week, WeekOf(pool, d.games, week), existing, HeldIdentities(pool, held), Slots(held), requests, d.nextPick);
  }

  lemma NoSlots()
    ensures Slots([]) == {}
  {
  }

  // ---------------------------------------------------------------- what settlement makes of it

  /**
    A saved pick that is well formed on a game that is over is won, lost or pushed exactly when its game had a
    line at the time of the save or the pool plays without one; a later line does not help.
  */
  lemma ReceiptIsGradedExactlyWhen(pool: Pool, week: int, g: Game, p: Pick, picks: seq<Pick>, games: seq<Game>,
                                   i: nat, later: Game)
    requires IsReceipt(pool, week, g, p)
    requires i < |picks| && picks[i] == p && OnFile(games, p, later) && Decided(later)
    requires WellFormed(pool, picks, games, i, later)
    ensures
      var r := ResultOf(pool, picks, games, p);
      if pool.rules.basis == AgainstSpread && g.spreadHome == None then r == Some(Ungraded)
      else r == Some(Win) || r == Some(Loss) || r == Some(Push)
  {
    hide ResultOf, WellFormed, PermittedInCapitals, HasChance, HasKind, OnFile;
    ResultTold(pool, picks, games, i, later);
    if pool.rules.basis == StraightUp || g.spreadHome.Some? {
      var line, own, other := ScoresOf(pool.rules, later, p);
    }
  }
}
