/**
  How an automatic opponent values a player, told on the lineup, the team and the ranking: starters that are missing
  bring a position forward, players beyond them hold it back.
*/
module MockLaws {
  import opened Wrappers
  import opened Sequences
  import opened DraftLog
  import opened DraftRoom
  import opened DraftLaws
  import opened MockDraft

  // ---------------------------------------------------------------- what a team has and wants

  /** Starters of a position in the lineup. */
  ghost function Wanted(slots: seq<string>, position: string): nat {
    if position in {"BN", "BENCH", "IR", "FLEX", "W/R/T", "W/R", "Q/W/R/T"} then 0 else multiset(slots)[position]
  }

  /** The player is projected at the position; a player without a projection has none. */
  predicate PlaysAt(inputs: Inputs, position: string, player: nat) {
    if player in inputs.projections then inputs.projections[player].position == position else position == ""
  }

  ghost function Have(inputs: Inputs, team: seq<nat>, position: string): nat {
    Count(team, (p: nat) => PlaysAt(inputs, position, p))
  }

  ghost function Lacking(inputs: Inputs, team: seq<nat>, position: string): nat {
    var wanted, have := Wanted(inputs.slots, position), Have(inputs, team, position);
    if wanted > have then wanted - have else 0
  }

  ghost function Surplus(inputs: Inputs, team: seq<nat>, position: string): nat {
    var wanted, have := Wanted(inputs.slots, position), Have(inputs, team, position);
    if have > wanted then have - wanted else 0
  }

  lemma {:induction false} RosterTold(inputs: Inputs, team: seq<nat>, position: string)
    ensures RosterAt(inputs, team, position) == Have(inputs, team, position)
  {
    if |team| > 0 {
      var front := team[..|team| - 1];
      RosterTold(inputs, front, position);
      CountSame(front, (p: nat) => PlaysAt(inputs, position, p), (p: nat) => PlaysAt(inputs, position, p));
    }
  }

  lemma WantedTold(slots: seq<string>, position: string)
    ensures TargetFor(slots, position) == Wanted(slots, position)
  {
  }

  // ---------------------------------------------------------------- missing starters

  /** The starters missing at a position: the next one, and so on up to the last one wanted. */
  ghost function MissingAt(inputs: Inputs, team: seq<nat>, position: string): set<(string, nat)> {
    var have, wanted := Have(inputs, team, position), Wanted(inputs.slots, position);
    set k: nat | have <= k < wanted :: (position, k)
  }

  /** The starters missing at the positions of some slots. */
  ghost function Missing(inputs: Inputs, team: seq<nat>, slots: seq<string>): set<(string, nat)> {
    if |slots| == 0 then {}
    else Missing(inputs, team, slots[..|slots| - 1]) + MissingAt(inputs, team, slots[|slots| - 1])
  }

  lemma {:induction false} RangeSize(position: string, a: nat, b: nat)
    ensures |set k: nat | a <= k < b :: (position, k)| == if a < b then b - a else 0
    decreases b
  {
    var s := set k: nat | a <= k < b :: (position, k);
    if a < b {
      RangeSize(position, a, b - 1);
      assert s == (set k: nat | a <= k < b - 1 :: (position, k)) + {(position, b - 1)};
    } else {
      assert s == {};
    }
  }

  lemma {:induction false} MissingOnly(inputs: Inputs, team: seq<nat>, slots: seq<string>, position: string, k: nat)
    ensures (position, k) in Missing(inputs, team, slots) <==>
            position in slots && Have(inputs, team, position) <= k < Wanted(inputs.slots, position)
  {
    hide Have, Wanted;
    if |slots| > 0 {
      MissingOnly(inputs, team, slots[..|slots| - 1], position, k);
      assert slots == slots[..|slots| - 1] + [slots[|slots| - 1]];
    }
  }

  /** The unmet starters of a team are those that are missing. */
  lemma {:induction false} UnmetTold(inputs: Inputs, team: seq<nat>, slots: seq<string>)
    ensures UnmetStarters(inputs, team, slots) == |Missing(inputs, team, slots)|
  {
    hide Have, Wanted;
    if |slots| > 0 {
      var front, s := slots[..|slots| - 1], slots[|slots| - 1];
      UnmetTold(inputs, team, front);
      RosterTold(inputs, team, s);
      WantedTold(inputs.slots, s);
      RangeSize(s, Have(inputs, team, s), Wanted(inputs.slots, s));
      forall x | x in MissingAt(inputs, team, s) ensures x in Missing(inputs, team, front) <==> s in front {
        MissingOnly(inputs, team, front, s, x.1);
      }
      if s in front {
        assert Missing(inputs, team, slots) == Missing(inputs, team, front);
      } else {
        assert Missing(inputs, team, front) !! MissingAt(inputs, team, s);
      }
    }
  }

  // ---------------------------------------------------------------- the score

  /** A running back, receiver or tight end still fits a flexible slot of the team. */
  ghost predicate FlexIsOpen(inputs: Inputs, team: seq<nat>, position: string) {
    var flexible := multiset(inputs.slots)["FLEX"] + multiset(inputs.slots)["W/R/T"];
    && position in {"RB", "WR", "TE"} && flexible > 0
    && Have(inputs, team, "RB") + Have(inputs, team, "WR") + Have(inputs, team, "TE")
       < Wanted(inputs.slots, "RB") + Wanted(inputs.slots, "WR") + Wanted(inputs.slots, "TE") + flexible
  }

  /** No more picks are left than starters are missing. */
  ghost predicate IsUrgent(inputs: Inputs, turn: Turn) {
    turn.remaining <= |Missing(inputs, turn.team, inputs.slots)|
  }

  /** The rank that is given, or else the average draft position, or else the place in the ranking. */
  ghost predicate IsRank(row: RankRow, place: nat, rank: real) {
    if row.overallRank.Some? && row.overallRank.value > 0.0 then row.overallRank == Some(rank)
    else if row.adp.Some? && row.adp.value > 0.0 then row.adp == Some(rank)
    else rank == place as real
  }

  /** What a row is worth to the team on the clock. */
  lemma ScoreTold(inputs: Inputs, turn: Turn, i: nat, choice: MockDraft.Choice)
    requires IsChoiceOf(inputs, turn, i, choice)
    ensures choice.player in inputs.projections && inputs.ranking[i].player == Some(choice.player)
    ensures choice.player !in turn.drafted && IsRank(inputs.ranking[i], i + 1, choice.rank)
    ensures
      var projection := inputs.projections[choice.player];
      var lacking := Lacking(inputs, turn.team, projection.position);
      && choice.points == projection.points && choice.athlete == projection.athlete
      && choice.score == choice.rank
           - lacking as real * (if IsUrgent(inputs, turn) then 14.0 else 7.0)
           - (if lacking == 0 && FlexIsOpen(inputs, turn.team, projection.position) then 3.0 else 0.0)
           + Surplus(inputs, turn.team, projection.position) as real * 4.0
  {
    hide RosterAt, TargetFor, UnmetStarters, Have, Wanted, Missing;
    var position := inputs.projections[choice.player].position;
    RosterTold(inputs, turn.team, position);
    WantedTold(inputs.slots, position);
    UnmetTold(inputs, turn.team, inputs.slots);
    FlexTold(inputs, turn.team);
  }

  lemma FlexTold(inputs: Inputs, team: seq<nat>)
    ensures FlexFilled(inputs, team) == Have(inputs, team, "RB") + Have(inputs, team, "WR") + Have(inputs, team, "TE")
    ensures FlexTarget(inputs.slots) == multiset(inputs.slots)["FLEX"] + multiset(inputs.slots)["W/R/T"]
    ensures FlexRoom(inputs.slots) == Wanted(inputs.slots, "RB") + Wanted(inputs.slots, "WR") + Wanted(inputs.slots, "TE")
                                      + multiset(inputs.slots)["FLEX"] + multiset(inputs.slots)["W/R/T"]
  {
    hide RosterAt, TargetFor, Have, Wanted;
    RosterTold(inputs, team, "RB");
    RosterTold(inputs, team, "WR");
    RosterTold(inputs, team, "TE");
    WantedTold(inputs.slots, "RB");
    WantedTold(inputs.slots, "WR");
    WantedTold(inputs.slots, "TE");
  }

  /** Of two equally ranked players the one at a position that lacks starters goes before one at a position that does not. */
  lemma NeedGoesFirst(inputs: Inputs, turn: Turn, i: nat, a: MockDraft.Choice, j: nat, b: MockDraft.Choice)
    requires IsChoiceOf(inputs, turn, i, a) && IsChoiceOf(inputs, turn, j, b) && a.rank <= b.rank
    requires a.player in inputs.projections && b.player in inputs.projections
    requires Lacking(inputs, turn.team, inputs.projections[a.player].position) > 0
    requires Lacking(inputs, turn.team, inputs.projections[b.player].position) == 0
    ensures Before(a, b)
  {
    hide IsChoiceOf, Lacking, Surplus, FlexIsOpen, IsUrgent, Have, Wanted;
    ScoreTold(inputs, turn, i, a);
    ScoreTold(inputs, turn, j, b);
    SurplusOrLack(inputs, turn.team, inputs.projections[a.player].position);
    var n := Lacking(inputs, turn.team, inputs.projections[a.player].position) as real;
    assert n >= 1.0;
  }

  lemma SurplusOrLack(inputs: Inputs, team: seq<nat>, position: string)
    ensures Lacking(inputs, team, position) == 0 || Surplus(inputs, team, position) == 0
  {
  }

  // ---------------------------------------------------------------- the turn

  /** The player has a pick of the team on the board. */
  ghost predicate OnTeam(board: Board, slot: nat, player: nat) {
    exists o :: o in board && board[o].teamSlot == slot && board[o].player == player
  }

  lemma {:induction false} TeamTold(board: Board, slot: nat, n: nat, player: nat)
    ensures player in TeamPlayers(board, slot, n) <==>
            exists o: nat :: 1 <= o <= n && o in board && board[o].teamSlot == slot && board[o].player == player
  {
    if n > 0 {
      TeamTold(board, slot, n - 1, player);
    }
  }

  /** The turn of the team on the clock: its own players, and everybody who is drafted. */
  lemma TurnTold(c: Config, board: Board, player: nat)
    requires ValidConfig(c) && Gapless(board)
    ensures
      var turn := TurnOf(c, board);
      && (player in turn.team <==> OnTeam(board, SnakeSlot(|board| + 1, c.teamCount), player))
      && (player in turn.drafted <==> exists o :: o in board && board[o].player == player)
      && turn.remaining as int == (if c.roundCount >= |turn.team| then c.roundCount - |turn.team| else 0)
  {
    hide SnakeSlot, TeamPlayers;
    TeamTold(board, SnakeSlot(|board| + 1, c.teamCount), |board|, player);
  }

  /** The overalls of a team up to one. */
  ghost function TeamPicks(board: Board, slot: nat, n: nat): set<nat> {
    set o | o in board && 1 <= o <= n && board[o].teamSlot == slot
  }

  /** Every pick of the team counts once. */
  lemma {:induction false} TeamSize(board: Board, slot: nat, n: nat)
    ensures |TeamPlayers(board, slot, n)| == |TeamPicks(board, slot, n)|
  {
    if n == 0 {
      assert TeamPicks(board, slot, n) == {};
    } else {
      TeamSize(board, slot, n - 1);
      var own := n in board && board[n].teamSlot == slot;
      assert TeamPicks(board, slot, n) == TeamPicks(board, slot, n - 1) + (if own then {n} else {});
    }
  }

  // ---------------------------------------------------------------- readiness

  /** The name of a position; a defence has three. */
  ghost predicate IsNamed(slot: string, position: string) {
    if slot in {"DST", "D/ST"} then position == "DEF" else position == slot
  }

  /** A ranked and projected player at the position. */
  ghost predicate CountsAt(inputs: Inputs, position: string, row: RankRow) {
    && row.player.Some? && row.player.value != 0 && row.player.value in inputs.projections
    && IsNamed(row.position, position)
  }

  lemma {:induction false} PositionCountTold(inputs: Inputs, rows: seq<RankRow>, position: string)
    requires forall r :: r in rows ==> r in inputs.ranking
    ensures PositionCount(rows, Eligible(inputs), position) == Count(rows, (r: RankRow) => CountsAt(inputs, position, r))
  {
    hide Eligible;
    if |rows| > 0 {
      var front, row := rows[..|rows| - 1], rows[|rows| - 1];
      PositionCountTold(inputs, front, position);
      CountSame(front, (r: RankRow) => CountsAt(inputs, position, r), (r: RankRow) => CountsAt(inputs, position, r));
      assert row in rows;
      if row.player.Some? {
        RankedIsEligible(inputs, row);
      }
    }
  }

  lemma RankedIsEligible(inputs: Inputs, row: RankRow)
    requires row in inputs.ranking && row.player.Some?
    ensures row.player.value in Eligible(inputs) <==> row.player.value in inputs.projections
  {
    var i :| 0 <= i < |inputs.ranking| && inputs.ranking[i] == row;
    assert inputs.ranking[i].player.Some?;
  }

  /** Slots of the lineup that hold a position. */
  predicate HoldsPosition(slot: string) {
    slot !in {"BN", "BENCH", "IR", "FLEX", "W/R/T", "W/R", "Q/W/R/T"}
  }

  /** `q` is `a` divided by `b`, rounded down. */
  ghost predicate IsQuotient(a: nat, b: nat, q: nat) {
    q * b <= a < q * b + b
  }

  lemma QuotientIs(a: nat, b: nat)
    requires b > 0
    ensures IsQuotient(a, b, a / b)
  {
    assert a == (a / b) * b + a % b;
  }

  /** The starters of a position, scaled down when the draft has fewer picks than starters. */
  ghost predicate IsScaled(starters: nat, full: nat, total: nat, q: nat) {
    if total >= full then q == starters else IsQuotient(starters * total, full, q)
  }

  lemma {:induction false} PositionSlotsTold(slots: seq<string>)
    ensures PositionSlots(Aliased(slots)) == Count(slots, HoldsPosition)
  {
    if |slots| > 0 {
      PositionSlotsTold(slots[..|slots| - 1]);
      assert Aliased(slots)[..|slots| - 1] == Aliased(slots[..|slots| - 1]);
    }
  }

  lemma {:induction false} AliasedCount(slots: seq<string>, position: string)
    ensures CountOf(Aliased(slots), position) == Count(slots, (s: string) => IsNamed(s, position))
  {
    if |slots| > 0 {
      var front, s := slots[..|slots| - 1], slots[|slots| - 1];
      AliasedCount(front, position);
      CountSame(front, (s: string) => IsNamed(s, position), (s: string) => IsNamed(s, position));
      assert Aliased(slots) == Aliased(front) + [Alias(s)];
    }
  }

  /** The starters of the position over all teams, against those of all positions and the picks of the draft. */
  ghost predicate IsDemand(c: Config, slots: seq<string>, position: string, q: nat) {
    IsScaled(Count(slots, (s: string) => IsNamed(s, position)) * c.teamCount, Count(slots, HoldsPosition) * c.teamCount,
             c.teamCount * c.roundCount, q)
  }

  lemma RequiredTold(c: Config, slots: seq<string>, position: string) returns (q: nat)
    ensures IsDemand(c, slots, position, q)
    ensures RequiredAt(c, Aliased(slots), position) == if q > 1 then q else 1
  {
    hide CountOf, PositionSlots, Count, IsQuotient;
    PositionSlotsTold(slots);
    AliasedCount(slots, position);
    var starters := Count(slots, (s: string) => IsNamed(s, position)) * c.teamCount;
    var full, total := Count(slots, HoldsPosition) * c.teamCount, c.teamCount * c.roundCount;
    q := starters;
    if total < full {
      QuotientIs(starters * total, full);
      q := starters * total / full;
    }
  }

  /** The pool of a ranking is short when fewer players are ranked and projected than the draft has picks. */
  lemma PoolTold(c: Config, inputs: Inputs)
    ensures PoolIncomplete in Findings(c, inputs) <==>
            |Ranked(inputs.ranking) * inputs.projections.Keys| < c.teamCount * c.roundCount
  {
    hide IsShort, Ranked, Aliased;
  }

  /** A position of the lineup is short when fewer of its players are ranked and projected than its demand, or none. */
  lemma ShortTold(c: Config, inputs: Inputs, position: string) returns (q: nat)
    ensures IsDemand(c, inputs.slots, position, q)
    ensures PositionShort(position) in Findings(c, inputs) <==>
            && HoldsPosition(position) && (exists slot :: slot in inputs.slots && IsNamed(slot, position))
            && Count(inputs.ranking, (r: RankRow) => CountsAt(inputs, position, r)) < (if q > 1 then q else 1)
  {
    hide PositionCount, RequiredAt, Ranked, IsNamed, HoldsPosition, Aliased, IsDemand, Count, CountsAt, TotalPicks, Eligible;
    q := RequiredTold(c, inputs.slots, position);
    PositionCountTold(inputs, inputs.ranking, position);
    InLineup(inputs.slots, position);
  }

  lemma InLineup(slots: seq<string>, position: string)
    ensures position in Aliased(slots) <==> exists slot :: slot in slots && IsNamed(slot, position)
    ensures position in NonPlayerSlots <==> !HoldsPosition(position)
  {
    if slot :| slot in slots && IsNamed(slot, position) {
      var i :| 0 <= i < |slots| && slots[i] == slot;
      assert Aliased(slots)[i] == position;
    }
    if position in Aliased(slots) {
      var i :| 0 <= i < |slots| && Aliased(slots)[i] == position;
      assert IsNamed(slots[i], position);
    }
  }
}
