/**
  Automatic opponents of a mock draft: how they choose, and why a mock that was ready at its
  start never runs out of players for them.
*/
module MockDraft {
  import opened Wrappers
  import opened Sets
  import opened DraftLog
  import opened DraftRoom
  import opened DraftLaws
  import opened DraftSession
  import DraftRuns

  /** A row of the ranking: its league player, if mapped, and the ranks that are given. */
  datatype RankRow = RankRow(player: Option<nat>, overallRank: Option<real>, adp: Option<real>, position: string)

  datatype Projection = Projection(position: string, points: real, athlete: nat)

  /** The inputs bound to a mock. League players are numbered from one. */
  datatype Inputs = Inputs(
    ranking: seq<RankRow>,
    projections: map<nat, Projection>,
    slots: seq<string>)

  ghost predicate ValidInputs(inputs: Inputs) {
    0 !in inputs.projections
  }

  const FlexPositions: set<string> := {"RB", "WR", "TE"}
  const NonPlayerSlots: set<string> := {"BN", "BENCH", "IR", "FLEX", "W/R/T", "W/R", "Q/W/R/T"}

  // ---------------------------------------------------------------- readiness

  /** Players that are ranked and projected. */
  function Eligible(inputs: Inputs): set<nat> {
    Ranked(inputs.ranking) * inputs.projections.Keys
  }

  function Ranked(rows: seq<RankRow>): set<nat> {
    set i | 0 <= i < |rows| && rows[i].player.Some? :: rows[i].player.value
  }

  datatype Finding = PoolIncomplete | PositionShort(position: string)

  /** Eligible rows at a position; the other names of a defence count as DEF. */
  function PositionCount(rows: seq<RankRow>, eligible: set<nat>, position: string): nat {
    if |rows| == 0 then 0
    else
      var row := rows[|rows| - 1];
      PositionCount(rows[..|rows| - 1], eligible, position) +
      (if row.player.Some? && row.player.value != 0 && row.player.value in eligible && Alias(row.position) == position
       then 1 else 0)
  }

  function Alias(slot: string): string {
    if slot == "DST" || slot == "D/ST" then "DEF" else slot
  }

  function Aliased(slots: seq<string>): (r: seq<string>)
    ensures |r| == |slots| && forall i :: 0 <= i < |r| ==> r[i] == Alias(slots[i])
  {
    seq(|slots|, i requires 0 <= i < |slots| => Alias(slots[i]))
  }

  /** Lineup slots that hold a position. */
  function PositionSlots(slots: seq<string>): nat {
    if |slots| == 0 then 0
    else PositionSlots(slots[..|slots| - 1]) + (if slots[|slots| - 1] in NonPlayerSlots then 0 else 1)
  }

  /** Starters of a position over all teams, scaled down to the picks of the draft, at least one. */
  function RequiredAt(c: Config, slots: seq<string>, position: string): nat {
    var full, total := PositionSlots(slots) * c.teamCount, TotalPicks(c);
    var starters := CountOf(slots, position) * c.teamCount;
    var scaled := if total >= full then starters else starters * total / full;
    if scaled > 1 then scaled else 1
  }

  /** A ranking is short of a position of the lineup. */
  predicate IsShort(c: Config, inputs: Inputs, position: string) {
    var slots := Aliased(inputs.slots);
    && position in slots && position !in NonPlayerSlots
    && PositionCount(inputs.ranking, Eligible(inputs), position) < RequiredAt(c, slots, position)
  }

  function Findings(c: Config, inputs: Inputs): set<Finding> {
    (if |Eligible(inputs)| < TotalPicks(c) then {PoolIncomplete} else {})
    + set p | p in Aliased(inputs.slots) && IsShort(c, inputs, p) :: PositionShort(p)
  }

  method RankedPlayers(rows: seq<RankRow>) returns (ranked: set<nat>)
    ensures ranked == Ranked(rows)
  {
    ranked := {};
    for i := 0 to |rows|
      invariant ranked == Ranked(rows[..i])
    {
      assert rows[..i + 1] == rows[..i] + [rows[i]];
      RankedSnoc(rows[..i], rows[i]);
      if rows[i].player.Some? {
        ranked := ranked + {rows[i].player.value};
      }
    }
    assert rows[..|rows|] == rows;
  }

  method CountPositions(rows: seq<RankRow>, eligible: set<nat>) returns (counts: map<string, nat>)
    ensures forall p :: Counted(counts, p) == PositionCount(rows, eligible, p)
  {
    counts := map[];
    for i := 0 to |rows|
      invariant forall p :: Counted(counts, p) == PositionCount(rows[..i], eligible, p)
    {
      assert rows[..i + 1][..i] == rows[..i];
      var row := rows[i];
      if row.player.Some? && row.player.value != 0 && row.player.value in eligible {
        var position := Alias(row.position);
        counts := counts[position := Counted(counts, position) + 1];
      }
    }
    assert rows[..|rows|] == rows;
  }

  /** A finding for every position that is short. */
  method ShortPositions(c: Config, inputs: Inputs, counts: map<string, nat>) returns (findings: set<Finding>)
    requires forall p :: Counted(counts, p) == PositionCount(inputs.ranking, Eligible(inputs), p)
    ensures PoolIncomplete !in findings
    ensures forall p :: PositionShort(p) in findings <==> p in Aliased(inputs.slots) && IsShort(c, inputs, p)
  {
    hide RequiredAt, TotalPicks, PositionCount, Counted, Ranked, NonPlayerSlots, Eligible;
    findings := {};
    var slots := Aliased(inputs.slots);
    for i := 0 to |slots|
      invariant PoolIncomplete !in findings
      invariant forall p :: PositionShort(p) in findings <==> p in slots[..i] && IsShort(c, inputs, p)
    {
      assert slots[..i + 1] == slots[..i] + [slots[i]];
      if slots[i] !in NonPlayerSlots && Counted(counts, slots[i]) < RequiredAt(c, slots, slots[i]) {
        findings := findings + {PositionShort(slots[i])};
      }
    }
    assert slots[..|slots|] == slots;
  }

  /** The findings of the ranking: a pool smaller than the draft, and positions with too few players. */
  method RankingFindings(c: Config, inputs: Inputs) returns (findings: set<Finding>)
    requires ValidInputs(inputs)
    ensures findings == Findings(c, inputs)
  {
    hide RequiredAt, TotalPicks, PositionCount, Counted, Ranked, IsShort, Aliased, Findings;
    var ranked := RankedPlayers(inputs.ranking);
    var eligible := ranked * inputs.projections.Keys;
    var counts := CountPositions(inputs.ranking, eligible);
    findings := ShortPositions(c, inputs, counts);
    if |eligible| < TotalPicks(c) {
      findings := {PoolIncomplete} + findings;
    }
    SameFindings(c, inputs, findings);
  }

  lemma SameFindings(c: Config, inputs: Inputs, findings: set<Finding>)
    requires PoolIncomplete in findings <==> |Eligible(inputs)| < TotalPicks(c)
    requires forall p :: PositionShort(p) in findings <==> p in Aliased(inputs.slots) && IsShort(c, inputs, p)
    ensures findings == Findings(c, inputs)
  {
    hide IsShort, Eligible, TotalPicks;
    forall f: Finding ensures f in findings <==> f in Findings(c, inputs) {
      match f
      case PoolIncomplete =>
      case PositionShort(p) =>
    }
  }

  function Counted(counts: map<string, nat>, p: string): nat {
    if p in counts then counts[p] else 0
  }

  lemma RankedSnoc(rows: seq<RankRow>, row: RankRow)
    ensures Ranked(rows + [row]) == Ranked(rows) + (if row.player.Some? then {row.player.value} else {})
  {
    var both := rows + [row];
    assert both[|rows|] == row;
    forall p | p in Ranked(rows) ensures p in Ranked(both) {
      var i :| 0 <= i < |rows| && rows[i].player == Some(p);
      assert both[i] == rows[i];
    }
    if row.player.Some? {
      assert both[|rows|].player.Some?;
    }
  }

  // ---------------------------------------------------------------- the opponent's choice

  datatype Choice = Choice(score: real, rank: real, points: real, athlete: nat, player: nat)

  /** Lower score first, then rank, then more points, then numbers. */
  predicate Before(a: Choice, b: Choice) {
    || a.score < b.score
    || (a.score == b.score
        && (|| a.rank < b.rank
            || (a.rank == b.rank
                && (|| a.points > b.points
                    || (a.points == b.points
                        && (a.athlete < b.athlete || (a.athlete == b.athlete && a.player < b.player)))))))
  }

  lemma BeforeIsAnOrder(a: Choice, b: Choice, d: Choice)
    ensures !Before(a, a)
    ensures Before(a, b) && Before(b, d) ==> Before(a, d)
    ensures a == b || Before(a, b) || Before(b, a)
  {
  }

  function RankOf(row: RankRow, fallback: nat): real {
    if row.overallRank.Some? && row.overallRank.value > 0.0 then row.overallRank.value
    else if row.adp.Some? && row.adp.value > 0.0 then row.adp.value
    else fallback as real
  }

  function CountOf<T(==)>(s: seq<T>, x: T): nat {
    multiset(s)[x]
  }

  function TargetFor(slots: seq<string>, position: string): nat {
    if position in NonPlayerSlots then 0 else CountOf(slots, position)
  }

  function PositionOf(inputs: Inputs, player: nat): string {
    if player in inputs.projections then inputs.projections[player].position else ""
  }

  /** How many of the team's players are projected at a position. */
  function RosterAt(inputs: Inputs, team: seq<nat>, position: string): nat {
    if |team| == 0 then 0
    else
      RosterAt(inputs, team[..|team| - 1], position) +
      (if PositionOf(inputs, team[|team| - 1]) == position then 1 else 0)
  }

  /** Starters still missing over the positions of the lineup. */
  function UnmetStarters(inputs: Inputs, team: seq<nat>, slots: seq<string>): nat {
    if |slots| == 0 then 0
    else
      var s := slots[|slots| - 1];
      var n := TargetFor(inputs.slots, s);
      UnmetStarters(inputs, team, slots[..|slots| - 1]) +
      (if s in slots[..|slots| - 1] || n <= RosterAt(inputs, team, s) then 0 else n - RosterAt(inputs, team, s))
  }

  datatype Turn = Turn(drafted: set<nat>, team: seq<nat>, remaining: nat)

  function FlexFilled(inputs: Inputs, team: seq<nat>): nat {
    RosterAt(inputs, team, "RB") + RosterAt(inputs, team, "WR") + RosterAt(inputs, team, "TE")
  }

  function FlexRoom(slots: seq<string>): nat {
    TargetFor(slots, "RB") + TargetFor(slots, "WR") + TargetFor(slots, "TE") + FlexTarget(slots)
  }

  function FlexTarget(slots: seq<string>): nat {
    CountOf(slots, "FLEX") + CountOf(slots, "W/R/T")
  }

  function OpenDirect(inputs: Inputs, team: seq<nat>, position: string): nat {
    var target, have := TargetFor(inputs.slots, position), RosterAt(inputs, team, position);
    if target > have then target - have else 0
  }

  /** How much the team's needs bring a player forward. */
  function NeedBonus(inputs: Inputs, turn: Turn, position: string): real {
    var open := OpenDirect(inputs, turn.team, position);
    var urgent := turn.remaining <= UnmetStarters(inputs, turn.team, inputs.slots);
    (open as real) * (if urgent then 14.0 else 7.0) +
    (if position in FlexPositions && FlexTarget(inputs.slots) > 0 && open == 0
        && FlexFilled(inputs, turn.team) < FlexRoom(inputs.slots) then 3.0 else 0.0)
  }

  function DepthPenalty(inputs: Inputs, team: seq<nat>, position: string): real {
    var target, have := TargetFor(inputs.slots, position), RosterAt(inputs, team, position);
    (if have > target then have - target else 0) as real * 4.0
  }

  /** The player of a row that can be chosen now. */
  predicate Open(inputs: Inputs, turn: Turn, row: RankRow) {
    && row.player.Some? && row.player.value != 0
    && row.player.value in inputs.projections && row.player.value !in turn.drafted
  }

  function ChoiceOf(inputs: Inputs, turn: Turn, row: RankRow, fallback: nat): Choice
    requires Open(inputs, turn, row)
  {
    var projection := inputs.projections[row.player.value];
    var rank := RankOf(row, fallback);
    Choice(rank - NeedBonus(inputs, turn, projection.position) + DepthPenalty(inputs, turn.team, projection.position),
           rank, projection.points, projection.athlete, row.player.value)
  }

  datatype Selection = Selected(choice: Choice) | Exhausted

  ghost predicate IsChoiceOf(inputs: Inputs, turn: Turn, i: nat, choice: Choice) {
    && i < |inputs.ranking| && Open(inputs, turn, inputs.ranking[i])
    && choice == ChoiceOf(inputs, turn, inputs.ranking[i], i + 1)
  }

  /** The first choice of the ranking in the order above, or none when nothing is open. */
  method SelectOpponent(inputs: Inputs, turn: Turn) returns (r: Selection)
    ensures r.Exhausted? <==> forall i :: 0 <= i < |inputs.ranking| ==> !Open(inputs, turn, inputs.ranking[i])
    ensures r.Selected? ==>
              && (exists i :: IsChoiceOf(inputs, turn, i, r.choice))
              && forall i, other :: IsChoiceOf(inputs, turn, i, other) ==> !Before(other, r.choice)
  {
    hide ChoiceOf, Before, RankOf;
    var choices: seq<Choice> := [];
    ghost var origins: seq<nat> := [];
    for i := 0 to |inputs.ranking|
      invariant |origins| == |choices|
      invariant forall k :: 0 <= k < |choices| ==> origins[k] < i && IsChoiceOf(inputs, turn, origins[k], choices[k])
      invariant forall j :: 0 <= j < i && Open(inputs, turn, inputs.ranking[j]) ==> j in origins
    {
      if Open(inputs, turn, inputs.ranking[i]) {
        choices := choices + [ChoiceOf(inputs, turn, inputs.ranking[i], i + 1)];
        origins := origins + [i];
      }
    }
    if |choices| == 0 {
      return Exhausted;
    }
    var best := 0;
    BeforeIsAnOrder(choices[0], choices[0], choices[0]);
    for k := 1 to |choices|
      invariant 0 <= best < |choices|
      invariant forall j :: 0 <= j < k ==> !Before(choices[j], choices[best])
    {
      BestSoFar(choices, k, best);
      if Before(choices[k], choices[best]) {
        best := k;
      }
    }
    r := Selected(choices[best]);
    assert IsChoiceOf(inputs, turn, origins[best], choices[best]);
    forall i, other | IsChoiceOf(inputs, turn, i, other) ensures !Before(other, choices[best]) {
      assert i in origins;
      var k :| 0 <= k < |origins| && origins[k] == i;
      assert choices[k] == other;
    }
  }

  lemma BestSoFar(choices: seq<Choice>, k: nat, best: nat)
    requires k < |choices| && best < |choices|
    requires forall j :: 0 <= j < k ==> !Before(choices[j], choices[best])
    ensures !Before(choices[k], choices[k])
    ensures Before(choices[k], choices[best]) ==> forall j :: 0 <= j < k ==> !Before(choices[j], choices[k])
  {
    BeforeIsAnOrder(choices[k], choices[k], choices[k]);
    if Before(choices[k], choices[best]) {
      forall j | 0 <= j < k ensures !Before(choices[j], choices[k]) {
        BeforeIsAnOrder(choices[j], choices[k], choices[best]);
      }
    }
  }

  // ---------------------------------------------------------------- the opponent's turn

  /** The players of a team among the first picks, in order. */
  function TeamPlayers(board: Board, slot: nat, n: nat): seq<nat> {
    if n == 0 then []
    else
      TeamPlayers(board, slot, n - 1) +
      (if n in board && board[n].teamSlot == slot then [board[n].player] else [])
  }

  function TurnOf(c: Config, board: Board): Turn
    requires ValidConfig(c)
  {
    var team := TeamPlayers(board, SnakeSlot(|board| + 1, c.teamCount), |board|);
    Turn(Drafted(board), team, if c.roundCount > |team| then c.roundCount - |team| else 0)
  }

  /** The request that an automatic opponent makes. */
  function OpponentRequest(key: string, expected: nat, player: nat): PickRequest {
    PickRequest(Record, expected, key, player, None, 0, NoAdvice, false)
  }

  /** Why an automatic opponent may not move now. */
  function OpponentProblem(c: Config, room: Room): Option<DraftError>
    requires ValidConfig(c)
  {
    var board := Replay(room.log);
    if c.kind != MockDraft || !c.automatic then Some(AutomaticDisabled)
    else if room.sourceMode != Manual then Some(SyntheticForbidden)
    else if room.status != Live then Some(SessionState)
    else if |board| >= TotalPicks(c) then Some(DraftComplete)
    else if SnakeSlot(|board| + 1, c.teamCount) == c.ownerSlot then Some(OwnerOnClock)
    else None
  }

  ghost predicate AnyOpen(inputs: Inputs, turn: Turn) {
    exists i :: 0 <= i < |inputs.ranking| && Open(inputs, turn, inputs.ranking[i])
  }

  ghost predicate IsBest(inputs: Inputs, turn: Turn, choice: Choice) {
    && (exists i :: IsChoiceOf(inputs, turn, i, choice))
    && forall i, other :: IsChoiceOf(inputs, turn, i, other) ==> !Before(other, choice)
  }

  /** The best choice is one player: whichever best choice is taken, the player is the same. */
  lemma BestIsUnique(inputs: Inputs, turn: Turn, a: Choice, b: Choice)
    requires IsBest(inputs, turn, a) && IsBest(inputs, turn, b)
    ensures a == b
  {
    BeforeIsAnOrder(a, b, a);
  }

  /** The answer and the room after a pick request. */
  ghost predicate Answers(c: Config, was: Room, req: PickRequest, r: Answer, after: Room)
    requires ValidConfig(c)
  {
    match AppendPick(c, was, req)
    case Done(room, e) => after == room && r == Recorded(e)
    case Refused(error) => after == was && r == Failed(error)
  }

  /** One automatic pick: the best open player is recorded for the team on the clock. */
  method AdvanceOpponentPick(s: Session, inputs: Inputs, key: string, expected: nat) returns (r: Answer)
    requires s.Valid()
    modifies s
    ensures s.Valid()
    ensures
      var c, was := s.config, old(s.State());
      var turn := TurnOf(c, Replay(was.log));
      if FindKey(was.log, key).Some? then r == Recorded(FindKey(was.log, key).value) && s.State() == was
      else if OpponentProblem(c, was).Some? then r == Failed(OpponentProblem(c, was).value) && s.State() == was
      else if !AnyOpen(inputs, turn) then r == Failed(PoolExhausted) && s.State() == was
      else exists choice :: IsBest(inputs, turn, choice)
             && Answers(c, was, OpponentRequest(key, expected, choice.player), r, s.State())
  {
    hide FindKey, Replay, AppendPick, Before, Open, ChoiceOf, Sound, TurnOf, SnakeSlot;
    ghost var was := s.State();
    var existing := s.ExistingEvent(key);
    if existing.Some? {
      return Recorded(existing.value);
    }
    var board := ReducePicks(s.log);
    if s.config.kind != MockDraft || !s.config.automatic {
      return Failed(AutomaticDisabled);
    }
    if s.sourceMode != Manual {
      return Failed(SyntheticForbidden);
    }
    if s.status != Live {
      return Failed(SessionState);
    }
    if |board| >= TotalPicks(s.config) {
      return Failed(DraftComplete);
    }
    if SnakeSlot(|board| + 1, s.config.teamCount) == s.config.ownerSlot {
      return Failed(OwnerOnClock);
    }
    var selection := SelectOpponent(inputs, TurnOf(s.config, board));
    if selection.Exhausted? {
      return Failed(PoolExhausted);
    }
    assert IsBest(inputs, TurnOf(s.config, board), selection.choice);
    r := s.AppendPickEvent(OpponentRequest(key, expected, selection.choice.player));
  }

  // ---------------------------------------------------------------- readiness means progress

  lemma {:induction false} DraftedAtMost(board: Board)
    ensures |Drafted(board)| <= |board|
    decreases |board|
  {
    if board == map[] {
      assert Drafted(board) == {};
    } else {
      var o :| o in board;
      var rest := board - {o};
      assert rest.Keys == board.Keys - {o};
      DraftedAtMost(rest);
      assert Drafted(board) <= Drafted(rest) + {board[o].player} by {
        forall p | p in Drafted(board) ensures p in Drafted(rest) + {board[o].player} {
          var x :| x in board && board[x].player == p;
          assert x != o ==> x in rest && rest[x] == board[x];
        }
      }
      assert |Drafted(board)| <= |Drafted(rest) + {board[o].player}| by {
        SubsetSize(Drafted(board), Drafted(rest) + {board[o].player});
      }
    }
  }

  /** A pool as large as the draft leaves someone open at every unfilled turn, whoever was drafted before. */
  lemma ReadyPoolLasts(c: Config, inputs: Inputs, board: Board)
    requires ValidConfig(c) && ValidInputs(inputs)
    requires |Eligible(inputs)| >= TotalPicks(c) && |board| < TotalPicks(c)
    ensures AnyOpen(inputs, TurnOf(c, board))
  {
    hide SnakeSlot, TeamPlayers, Drafted;
    DraftedAtMost(board);
    if Eligible(inputs) <= Drafted(board) {
      SubsetSize(Eligible(inputs), Drafted(board));
      assert false;
    }
    var p :| p in Eligible(inputs) && p !in Drafted(board);
    var i :| 0 <= i < |inputs.ranking| && inputs.ranking[i].player == Some(p);
    assert Open(inputs, TurnOf(c, board), inputs.ranking[i]);
  }

  /** The last pick of the draft, when the key for its completion is taken. */
  predicate CannotClose(c: Config, room: Room, key: string) {
    |Replay(room.log)| + 1 == TotalPicks(c) && FindKey(room.log, key + ":complete").Some?
  }

  /**
    A new request with the right sequence, at an opponent's turn, is answered with that opponent's next pick,
    unless the chosen player is not an identified player of the league or the draft cannot be closed.
  */
  lemma OpponentPickIsRecorded(c: Config, room: Room, inputs: Inputs, key: string, choice: Choice)
    requires ValidConfig(c) && Sound(c, room)
    requires FindKey(room.log, key).None? && OpponentProblem(c, room).None?
    requires IsBest(inputs, TurnOf(c, Replay(room.log)), choice)
    ensures
      var r := AppendPick(c, room, OpponentRequest(key, room.currentSequence, choice.player));
      if PlayerProblem(c, choice.player).Some? then r == Refused(PlayerProblem(c, choice.player).value)
      else if CannotClose(c, room, key) then r == Refused(DraftConflict)
      else
        && r.Done?
        && |Replay(r.room.log)| == |Replay(room.log)| + 1
        && r.event.overall == Some(|Replay(room.log)| + 1)
        && r.event.player == Some(choice.player)
        && r.event.teamSlot == Some(SnakeSlot(|Replay(room.log)| + 1, c.teamCount))
  {
    hide FindKey, Replay, SnakeSlot, SnakeRound, Drafted, Before, ChoiceOf, TeamPlayers, Sound, PickOutcome,
         PlayerProblem, Finish;
    var board := Replay(room.log);
    var req := OpponentRequest(key, room.currentSequence, choice.player);
    var i :| IsChoiceOf(inputs, TurnOf(c, board), i, choice);
    ChosenPlayer(inputs, TurnOf(c, board), i, choice);
    assert RecordProblem(c, room, board, req) == PlayerProblem(c, choice.player);
    if PlayerProblem(c, choice.player).None? {
      var e := RecordEvent(c, room, board, req);
      RecordKeeps(c, room, req);
      AppendFinds(room, e, key + ":complete");
      BoundaryOf(c, room);
      RecordGrows(c, board, req, Replay(Append(room, e).log));
      FinishRecords(c, room, e, key);
      if !CannotClose(c, room, key) {
        AppendPickKeeps(c, room, req);
        RecordGrows(c, board, req, Replay(AppendPick(c, room, req).room.log));
      }
    }
  }

  lemma BoundaryOf(c: Config, room: Room)
    requires ValidConfig(c) && Sound(c, room)
    ensures Gapless(Replay(room.log))
  {
  }

  lemma ChosenPlayer(inputs: Inputs, turn: Turn, i: nat, choice: Choice)
    requires IsChoiceOf(inputs, turn, i, choice)
    ensures choice.player in inputs.projections && choice.player !in turn.drafted
  {
    hide NeedBonus, DepthPenalty, RankOf;
  }

  lemma FinishRecords(c: Config, room: Room, e: Event, key: string)
    requires room.status == Live && e.key == key
    requires |Replay(Append(room, e).log)| == |Replay(room.log)| + 1
    requires FindKey(Append(room, e).log, key + ":complete") == FindKey(room.log, key + ":complete")
    ensures
      var r := Finish(c, Append(room, e), key, e);
      if CannotClose(c, room, key) then r == Refused(DraftConflict) else r.Done? && r.event == e
  {
    hide Replay, FindKey;
  }

  lemma RecordGrows(c: Config, before: Board, req: PickRequest, after: Board)
    requires req.kind.Record? && PickOutcome(c, before, req, after) && Gapless(before)
    ensures |after| == |before| + 1
  {
  }

  /**
    A mock that starts without findings never runs out: whatever was asked in between, at every
    opponent's turn somebody can be chosen.
  */
  lemma ReadyMockNeverRunsOut(c: Config, room: Room, inputs: Inputs, cmds: seq<DraftRuns.Command>)
    requires ValidConfig(c) && Sound(c, room) && ValidInputs(inputs) && DraftRuns.AllWellFormed(cmds)
    requires Findings(c, inputs) == {}
    ensures
      var later := DraftRuns.Run(c, room, cmds);
      OpponentProblem(c, later).None? ==> AnyOpen(inputs, TurnOf(c, Replay(later.log)))
  {
    hide Replay, TurnOf, Sound, Eligible, IsShort;
    assert PoolIncomplete !in Findings(c, inputs);
    var later := DraftRuns.Run(c, room, cmds);
    if OpponentProblem(c, later).None? {
      ReadyPoolLasts(c, inputs, Replay(later.log));
    }
  }
}
