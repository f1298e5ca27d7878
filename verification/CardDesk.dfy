/**
  The desk of one pool entry as an object: games are stamped, cards are checked in two separate
  ways, and an accepted card replaces the picks that are not locked.
*/
module CardDesk {
  import opened Wrappers
  import opened PoolModel
  import opened PoolOutcomes
  import opened WeeklyCard

  datatype SaveReply = CardSaved | CardUnchanged | SaveFailed(error: CardError)

  predicate Replies(outcome: SaveOutcome, reply: SaveReply) {
    match outcome
    case Saved(_) => reply == CardSaved
    case Unchanged(_) => reply == CardUnchanged
    case Declined(e, _) => reply == SaveFailed(e)
  }

  /** Checks a request against the rules, and against what is locked. */
  method ValidateRequestedCard(pool: Pool, picks: seq<Pick>, week: int, games: seq<Game>, all: seq<Game>, existing: seq<Pick>,
                               requests: seq<Request>, now: int)
    returns (findings: seq<Finding>, conflicts: seq<Conflict>)
    ensures findings == RequestFindings(pool, picks, week, games, requests, |requests|)
    ensures conflicts == PickConflicts(pool, games, all, requests, existing, |existing|, now)
                         + LateConflicts(pool, games, existing, requests, |requests|, now)
  {
    hide RequestCodes, Loses, TooLate, WeightsMisfit;
    findings := [];
    if WeightsMisfit(pool, |games|) {
      findings := [WeightCountMismatch];
    }
    for i := 0 to |requests|
      invariant findings == RequestFindings(pool, picks, week, games, requests, i)
    {
      findings := findings + Tagged(i, RequestCodes(pool, picks, week, games, requests, requests[i]));
    }
    conflicts := [];
    for i := 0 to |existing|
      invariant conflicts == PickConflicts(pool, games, all, requests, existing, i, now)
    {
      if Loses(pool, games, all, requests, existing[i], now) {
        conflicts := conflicts + [LostPick(CardIdentity(pool, existing[i]))];
      }
    }
    for i := 0 to |requests|
      invariant conflicts == PickConflicts(pool, games, all, requests, existing, |existing|, now)
                             + LateConflicts(pool, games, existing, requests, i, now)
    {
      if TooLate(pool, games, existing, requests[i], now) {
        conflicts := conflicts + [LateRequest(i)];
      }
    }
  }

  /** Judges a stored card: its findings, the configuration errors beside them, and its state. */
  method EvaluateWeeklyCard(pool: Pool, all: seq<Game>, picks: seq<Pick>, week: int, now: int)
    returns (findings: seq<Finding>, errors: seq<Finding>, state: CardState)
    ensures findings == CardFindings(pool, all, picks, week, |PicksIn(picks, week)|)
    ensures errors == ConfigurationErrors(pool, |WeekOf(pool, all, week)|)
    ensures state == StateOf(pool, all, picks, week, now)
  {
    hide StoredCodes, ConfigurationErrors, ProgressOf, WeekOf, PicksIn;
    var card := PicksIn(picks, week);
    errors := ConfigurationErrors(pool, |WeekOf(pool, all, week)|);
    findings := [];
    var valid: seq<Pick> := [];
    for i := 0 to |card|
      invariant findings == CardFindings(pool, all, picks, week, i)
      invariant valid == ValidPicks(pool, all, picks, week, i)
    {
      var codes := StoredCodes(pool, all, picks, week, card, card[i]);
      if codes == [] {
        valid := valid + [card[i]];
      }
      findings := findings + Tagged(i, codes);
    }
    state := StateFrom(findings != [] || errors != [], ProgressOf(pool, all, week, valid, now));
  }

  method LowestFreeSlot(used: set<int>) returns (slot: int)
    ensures slot == FreeFrom(used, 1)
  {
    slot := 1;
    while slot in used
      invariant FreeFrom(used, slot) == FreeFrom(used, 1)
      decreases |set x | x in used && x >= slot|
    {
      FewerAbove(used, slot);
      slot := slot + 1;
    }
  }

  /** Builds the new picks of a card, one request after another. */
  method BuildPicks(pool: Pool, week: int, games: seq<Game>, existing: seq<Pick>, held: set<Option<int>>, used: set<int>,
                    requests: seq<Request>, firstId: nat)
    returns (added: seq<Pick>)
    ensures added == AddPicks(pool, week, games, existing, held, used, requests, firstId).picks
  {
    hide NewPick;
    var usedSlots := used;
    added := [];
    for i := 0 to |requests|
      invariant AddPicks(pool, week, games, existing, held, used, requests[..i], firstId) == Adding(added, usedSlots)
    {
      assert requests[..i + 1][..i] == requests[..i];
      var r := requests[i];
      var game := FindGame(games, r.gameId);
      if RequestIdentity(pool, r) in held || game.None? {
        continue;
      }
      var slot: int;
      if pool.poolType.Survivor? {
        slot := if r.slot.Some? && r.slot.value != 0 then r.slot.value else 1;
      } else {
        slot := OldSlot(existing, r.gameId);
        if slot <= 0 || slot in usedSlots {
          slot := LowestFreeSlot(usedSlots);
        }
        usedSlots := usedSlots + {slot};
      }
      added := added + [NewPick(pool, week, game.value, r, slot, firstId + |added|)];
    }
    assert requests[..|requests|] == requests;
  }

  class EntryDesk {
    const pool: Pool
    var active: bool
    var games: seq<Game>
    var picks: seq<Pick>
    var versions: map<int, nat>
    var nextPick: nat

    function State(): Desk
      reads this
    {
      Desk(games, picks, versions, nextPick)
    }

    /** Stamps the due games of the season and says how many there were. */
    method StampDue(now: int) returns (stamped: nat)
      modifies this`games
      ensures games == StampDueGames(old(games), pool.season, now)
      ensures stamped == 0 ==> games == old(games)
    {
      ghost var was := games;
      stamped := 0;
      for i := 0 to |games|
        invariant |games| == |was|
        invariant forall k :: 0 <= k < |was| ==> games[k] == if k < i then Stamped(was[k], pool.season, now) else was[k]
        invariant stamped == 0 ==> games == was
      {
        var g := games[i];
        if g.season == pool.season && g.lockedAt.None? && g.kickoff <= now {
          games := games[i := g.(lockedAt := Some(now))];
          stamped := stamped + 1;
        }
      }
      assert games == StampDueGames(was, pool.season, now);
    }

    /** Replaces the unlocked picks of a week by the requested ones, or changes no pick at all. */
    method SaveWeeklyCard(week: int, version: nat, requests: seq<Request>, now: int) returns (reply: SaveReply)
      modifies this
      ensures active == old(active)
      ensures
        var outcome := SaveCard(pool, old(active), old(State()), week, version, requests, now);
        State() == outcome.desk && Replies(outcome, reply)
    {
      hide RequestFindings, PickConflicts, LateConflicts, StampDueGames, AddPicks, WeekOf, PicksIn, KeptPicks,
           CardLines, RequestLines, HeldIdentities, Slots, StandingOf, InSeason;
      if !active {
        return SaveFailed(EntryInactive);
      }
      var current := if week in versions then versions[week] else 0;
      if current != version {
        var same := RequestLines(pool, requests) == CardLines(pool, PicksIn(picks, week));
        var stamped := StampDue(now);
        return if same then CardUnchanged else SaveFailed(CardConflict);
      }
      if StandingOf(pool, Entry(0, true, picks), InSeason(games, pool.season), week + 1).Eliminated? {
        return SaveFailed(EntryEliminated);
      }
      var stamped := StampDue(now);
      var weekGames, existing := WeekOf(pool, games, week), PicksIn(picks, week);
      var findings, conflicts := ValidateRequestedCard(pool, picks, week, weekGames, games, existing, requests, now);
      if conflicts != [] {
        return SaveFailed(CardConflict);
      }
      if findings != [] {
        return SaveFailed(InvalidCard);
      }
      var kept := KeptPicks(pool, weekGames, games, picks, week, now);
      var held := LockedPicks(pool, weekGames, games, picks, week, now);
      var added := BuildPicks(pool, week, weekGames, existing, HeldIdentities(pool, held), Slots(held), requests, nextPick);
      picks := kept + added;
      versions := versions[week := current + 1];
      nextPick := nextPick + |added|;
      reply := CardSaved;
    }
  }
}
