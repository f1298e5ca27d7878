/**
  The end of a draft: a full snake board gives every team the same number of players, and the
  league roster is taken over from it.
*/
module DraftRoster {
  import opened Wrappers
  import opened DraftLog
  import opened DraftRoom
  import opened DraftLaws
  import DraftRuns
  import Reconciling

  // ---------------------------------------------------------------- counting the snake

  /** The overall of a team's pick in a round. */
  function OverallAt(round: nat, slot: nat, teams: nat): (overall: nat)
    requires round >= 1 && 1 <= slot <= teams
    ensures overall >= 1
  {
    (round - 1) * teams + (if round % 2 == 1 then slot else teams - slot + 1)
  }

  lemma DivideBack(q: nat, w: nat, t: nat)
    requires w < t
    ensures (q * t + w) / t == q && (q * t + w) % t == w
  {
    var x := q * t + w;
    assert x == (x / t) * t + x % t;
    var d := x / t;
    assert d > q ==> d * t >= (q + 1) * t;
    assert d < q ==> q * t >= (d + 1) * t;
  }

  /** Each team has one pick in each round, and that is where the snake puts it. */
  lemma SnakeInverse(round: nat, slot: nat, teams: nat)
    requires round >= 1 && 1 <= slot <= teams
    ensures SnakeRound(OverallAt(round, slot, teams), teams) == round
    ensures SnakeSlot(OverallAt(round, slot, teams), teams) == slot
  {
    var w := if round % 2 == 1 then slot - 1 else teams - slot;
    DivideBack(round - 1, w, teams);
    assert OverallAt(round, slot, teams) - 1 == (round - 1) * teams + w;
  }

  lemma SnakeForward(overall: nat, teams: nat)
    requires overall >= 1 && teams >= 1
    ensures OverallAt(SnakeRound(overall, teams), SnakeSlot(overall, teams), teams) == overall
  {
    var x := overall - 1;
    assert x == (x / teams) * teams + x % teams;
  }

  /** The snake ends with the last round. */
  lemma RoundsFit(overall: nat, teams: nat, rounds: nat)
    requires overall >= 1 && teams >= 1
    ensures overall <= teams * rounds <==> SnakeRound(overall, teams) <= rounds
  {
    var x := overall - 1;
    var q := x / teams;
    assert x == q * teams + x % teams;
    if q + 1 <= rounds {
      MoreRounds(q + 1, rounds, teams);
    } else {
      MoreRounds(rounds, q, teams);
    }
  }

  lemma MoreRounds(a: nat, b: nat, teams: nat)
    requires a <= b
    ensures a * teams <= teams * b && (a + 1) * teams == a * teams + teams
    ensures a >= 1 ==> (a - 1) * teams + teams <= teams * b
  {
    assert teams * b == teams * a + teams * (b - a);
  }

  function PicksOf(board: Board, slot: nat): set<nat> {
    set o | o in board && board[o].teamSlot == slot
  }

  function TeamOveralls(rounds: nat, slot: nat, teams: nat): set<nat>
    requires 1 <= slot <= teams
  {
    if rounds == 0 then {} else TeamOveralls(rounds - 1, slot, teams) + {OverallAt(rounds, slot, teams)}
  }

  lemma {:induction false} TeamOverallsCount(rounds: nat, slot: nat, teams: nat)
    requires 1 <= slot <= teams
    ensures |TeamOveralls(rounds, slot, teams)| == rounds
    ensures forall o :: o in TeamOveralls(rounds, slot, teams) <==>
              o >= 1 && SnakeRound(o, teams) <= rounds && SnakeSlot(o, teams) == slot
  {
    hide SnakeRound, SnakeSlot, OverallAt;
    forall o | o >= 1 ensures SnakeRound(o, teams) >= 1 && OverallAt(SnakeRound(o, teams), SnakeSlot(o, teams), teams) == o {
      RoundIsPositive(o, teams);
      SnakeForward(o, teams);
    }
    if rounds > 0 {
      TeamOverallsCount(rounds - 1, slot, teams);
      SnakeInverse(rounds, slot, teams);
      var front, last := TeamOveralls(rounds - 1, slot, teams), OverallAt(rounds, slot, teams);
      assert last !in front;
      assert |front + {last}| == |front| + 1;
    }
  }

  lemma RoundIsPositive(overall: nat, teams: nat)
    requires overall >= 1 && teams >= 1
    ensures SnakeRound(overall, teams) >= 1
  {
  }

  /** On a full board every team holds exactly one pick a round. */
  lemma FullBoardIsEven(c: Config, room: Room, slot: nat)
    requires ValidConfig(c) && Sound(c, room) && 1 <= slot <= c.teamCount
    requires |Replay(room.log)| == TotalPicks(c)
    ensures |PicksOf(Replay(room.log), slot)| == c.roundCount
  {
    hide Replay, SnakeRound, SnakeSlot, InOrder;
    var board := Replay(room.log);
    TeamOverallsCount(c.roundCount, slot, c.teamCount);
    forall o | o >= 1 ensures o in board <==> SnakeRound(o, c.teamCount) <= c.roundCount {
      RoundsFit(o, c.teamCount, c.roundCount);
    }
    assert PicksOf(board, slot) == TeamOveralls(c.roundCount, slot, c.teamCount);
  }

  // ---------------------------------------------------------------- the league roster

  datatype Owner = Owner(ownership: string, rosteredBy: Option<string>, currentSlot: Option<string>)

  type Owners = map<nat, Owner>

  const Free: Owner := Owner("FA", None, None)

  function OnTeam(name: string): Owner {
    Owner("TEAM", Some(name), None)
  }

  /** Every known pick gives its player to its team, later picks last. */
  function Assign(owners: Owners, picks: seq<Pick>, teams: map<nat, string>): (after: Owners)
    ensures after.Keys == owners.Keys
  {
    if |picks| == 0 then owners
    else
      var before := Assign(owners, picks[..|picks| - 1], teams);
      var p := picks[|picks| - 1];
      if p.player in owners && p.teamSlot in teams then before[p.player := OnTeam(teams[p.teamSlot])] else before
  }

  /** Picks that gave a known player to a known team. */
  function MarkedCount(owners: Owners, picks: seq<Pick>, teams: map<nat, string>): (n: nat)
    ensures n <= |picks|
    ensures n == |picks| <==> forall i :: 0 <= i < |picks| ==> picks[i].player in owners && picks[i].teamSlot in teams
  {
    if |picks| == 0 then 0
    else
      var p := picks[|picks| - 1];
      MarkedCount(owners, picks[..|picks| - 1], teams) + (if p.player in owners && p.teamSlot in teams then 1 else 0)
  }

  function AllFree(owners: Owners): Owners {
    map p | p in owners :: Free
  }

  /** The picks of a gapless board in order. */
  function InOrderPicks(board: Board, n: nat): (picks: seq<Pick>)
    requires forall o :: 1 <= o <= n ==> o in board
    ensures |picks| == n && forall i :: 0 <= i < n ==> picks[i] == board[i + 1]
  {
    if n == 0 then [] else InOrderPicks(board, n - 1) + [board[n]]
  }

  /** The roster after a completed live draft is taken over; any other draft leaves it. */
  function TakenOver(c: Config, room: Room, teams: map<nat, string>, owners: Owners): Owners
    requires Gapless(Replay(room.log))
  {
    var board := Replay(room.log);
    if c.kind != LiveDraft || room.status != Completed then owners
    else Assign(if |board| == TotalPicks(c) then AllFree(owners) else owners, InOrderPicks(board, |board|), teams)
  }

  /** The count depends on who is known, not on where he is. */
  lemma {:induction false} MarkedSame(owners: Owners, freed: Owners, picks: seq<Pick>, teams: map<nat, string>)
    requires owners.Keys == freed.Keys
    ensures MarkedCount(owners, picks, teams) == MarkedCount(freed, picks, teams)
  {
    if |picks| > 0 {
      MarkedSame(owners, freed, picks[..|picks| - 1], teams);
      assert picks[|picks| - 1].player in owners.Keys <==> picks[|picks| - 1].player in freed.Keys;
    }
  }

  datatype Projected = Projected(marked: nat, fullBoard: bool) | Incomplete

  class LeagueRoster {
    var owners: Owners

    /** A full board first frees every player; an early end only adds. */
    method ProjectLiveRoster(c: Config, room: Room, teams: map<nat, string>) returns (r: Projected)
      requires ValidConfig(c) && Sound(c, room)
      modifies this
      ensures Gapless(Replay(room.log)) && owners == TakenOver(c, room, teams, old(owners))
      ensures c.kind != LiveDraft || room.status != Completed ==> r == Incomplete && owners == old(owners)
      ensures c.kind == LiveDraft && room.status == Completed ==>
        var board := Replay(room.log);
        && r.Projected? && r.fullBoard == (|board| == TotalPicks(c))
        && r.marked == MarkedCount(old(owners), InOrderPicks(board, |board|), teams)
    {
      hide Replay, Sound, AllFree, InOrderPicks, Assign, MarkedCount;
      Reconciling.SoundBound(c, room);
      if c.kind != LiveDraft || room.status != Completed {
        return Incomplete;
      }
      var board := ReducePicks(room.log);
      var picks := InOrderPicks(board, |board|);
      var fullBoard := |picks| == TotalPicks(c);
      if fullBoard {
        FreeEveryone();
      }
      ghost var freed := owners;
      var marked := AssignPicks(picks, teams);
      MarkedSame(old(owners), freed, picks, teams);
      r := Projected(marked, fullBoard);
    }

    /** Gives each known player to the team of his pick. */
    method AssignPicks(picks: seq<Pick>, teams: map<nat, string>) returns (marked: nat)
      modifies this
      ensures owners == Assign(old(owners), picks, teams) && marked == MarkedCount(old(owners), picks, teams)
    {
      marked := 0;
      for i := 0 to |picks|
        invariant owners == Assign(old(owners), picks[..i], teams) && marked == MarkedCount(old(owners), picks[..i], teams)
      {
        assert picks[..i + 1][..i] == picks[..i];
        if picks[i].player in owners && picks[i].teamSlot in teams {
          owners := owners[picks[i].player := OnTeam(teams[picks[i].teamSlot])];
          marked := marked + 1;
        }
      }
      assert picks[..|picks|] == picks;
    }

    method FreeEveryone()
      modifies this
      ensures owners == AllFree(old(owners)) && owners.Keys == old(owners).Keys
    {
      var left := owners.Keys;
      ghost var was := owners;
      while left != {}
        invariant left <= was.Keys == owners.Keys
        invariant forall p :: p in owners ==> owners[p] == if p in left then was[p] else Free
        decreases |left|
      {
        var p :| p in left;
        owners := owners[p := Free];
        left := left - {p};
      }
    }
  }

  // ---------------------------------------------------------------- what the projection means

  ghost predicate AllKnown(owners: Owners, picks: seq<Pick>, teams: map<nat, string>) {
    forall i :: 0 <= i < |picks| ==> picks[i].player in owners && picks[i].teamSlot in teams
  }

  ghost predicate PlayersApart(picks: seq<Pick>) {
    forall i, j :: 0 <= i < j < |picks| ==> picks[i].player != picks[j].player
  }

  /** With no player drafted twice, each drafted player belongs to the team of his pick. */
  lemma {:induction false} AssignGives(owners: Owners, picks: seq<Pick>, teams: map<nat, string>, k: nat)
    requires AllKnown(owners, picks, teams) && PlayersApart(picks) && k < |picks|
    ensures Assign(owners, picks, teams)[picks[k].player] == OnTeam(teams[picks[k].teamSlot])
  {
    var n := |picks| - 1;
    if k < n {
      assert picks[..n][k] == picks[k];
      AssignGives(owners, picks[..n], teams, k);
    }
  }

  /** A player nobody drafted keeps his place. */
  lemma {:induction false} AssignLeaves(owners: Owners, picks: seq<Pick>, teams: map<nat, string>, p: nat)
    requires p in owners && forall i :: 0 <= i < |picks| ==> picks[i].player != p
    ensures Assign(owners, picks, teams)[p] == owners[p]
  {
    if |picks| > 0 {
      AssignLeaves(owners, picks[..|picks| - 1], teams, p);
    }
  }

  /** Players of a board without repeats are as many as its picks. */
  lemma {:induction false} DraftedCount(board: Board)
    requires NoRepeat(board)
    ensures |Drafted(board)| == |board|
    decreases |board|
  {
    hide NoRepeat, Drafted;
    if board == map[] {
      NobodyDrafted();
    } else {
      var o :| o in board;
      var rest := board - {o};
      assert |rest| == |board| - 1 by {
        assert rest.Keys == board.Keys - {o};
      }
      RestApart(board, o);
      DraftedCount(rest);
    }
  }

  lemma NobodyDrafted()
    ensures Drafted(map[]) == {}
  {
  }

  lemma RestApart(board: Board, o: nat)
    requires NoRepeat(board) && o in board
    ensures NoRepeat(board - {o})
    ensures board[o].player !in Drafted(board - {o}) && Drafted(board) == Drafted(board - {o}) + {board[o].player}
  {
    var rest := board - {o};
    forall p | p in Drafted(board) ensures p in Drafted(rest) + {board[o].player} {
      var x :| x in board && board[x].player == p;
      assert x != o ==> x in rest;
    }
  }

  ghost predicate RosteredFrom(c: Config, board: Board, teams: map<nat, string>, owners: Owners)
    requires ValidConfig(c)
  {
    && (forall o :: o in board && board[o].player in owners && board[o].teamSlot in teams ==>
          owners[board[o].player] == OnTeam(teams[board[o].teamSlot]))
    && (forall p :: p in owners && p !in Drafted(board) ==> owners[p] == Free)
  }

  lemma PickOnRoster(owners: Owners, board: Board, teams: map<nat, string>, o: nat)
    requires Assignable(owners, board, teams) && o in board
    ensures board[o].player in owners && board[o].teamSlot in teams
    ensures Assign(owners, InOrderPicks(board, |board|), teams)[board[o].player] == OnTeam(teams[board[o].teamSlot])
  {
    hide Assign;
    AssignableParts(owners, board, teams);
    AssignGives(owners, InOrderPicks(board, |board|), teams, o - 1);
  }

  lemma OthersKeep(owners: Owners, board: Board, teams: map<nat, string>, p: nat)
    requires Assignable(owners, board, teams) && p in owners && p !in Drafted(board)
    ensures Assign(owners, InOrderPicks(board, |board|), teams)[p] == owners[p]
  {
    hide Assign, Drafted;
    var picks := InOrderPicks(board, |board|);
    forall i | 0 <= i < |picks| ensures picks[i].player != p {
      IsDrafted(board, i + 1);
    }
    AssignLeaves(owners, picks, teams, p);
  }

  /** A gapless board whose picks are of different players, all known, and of known teams. */
  ghost predicate Assignable(owners: Owners, board: Board, teams: map<nat, string>) {
    && Gapless(board)
    && PlayersApart(InOrderPicks(board, |board|))
    && AllKnown(owners, InOrderPicks(board, |board|), teams)
  }

  /**
    A full board without repeats rosters exactly the drafted players, one for every pick of the draft,
    each by the team of his pick, and frees every other player.
  */
  lemma FullBoardRosters(c: Config, room: Room, teams: map<nat, string>, owners: Owners)
    requires ValidConfig(c) && Sound(c, room) && NoRepeat(Replay(room.log))
    requires |Replay(room.log)| == TotalPicks(c)
    requires owners.Keys == c.players.Keys
    requires forall s :: 1 <= s <= c.teamCount ==> s in teams
    ensures
      var board := Replay(room.log);
      var after := Assign(AllFree(owners), InOrderPicks(board, |board|), teams);
      && RosteredFrom(c, board, teams, after)
      && |set p | p in after && after[p] != Free| == TotalPicks(c)
  {
    hide Replay, Sound, NoRepeat, Drafted, Assign, InOrderPicks, AllFree, RosteredFrom, Assignable, Snaked;
    var board := Replay(room.log);
    Reconciling.SoundBound(c, room);
    BoardIsAssignable(c, board, teams, owners);
    BoardRosters(c, board, teams, AllFree(owners));
  }

  lemma BoardIsAssignable(c: Config, board: Board, teams: map<nat, string>, owners: Owners)
    requires ValidConfig(c) && Gapless(board) && Snaked(c, board) && NoRepeat(board)
    requires owners.Keys == c.players.Keys
    requires forall s :: 1 <= s <= c.teamCount ==> s in teams
    ensures Assignable(AllFree(owners), board, teams)
    ensures forall p :: p in AllFree(owners) ==> AllFree(owners)[p] == Free
  {
    hide Snaked, NoRepeat, InOrderPicks, Gapless;
    PicksAreApart(c, board);
    assert AllFree(owners).Keys == c.players.Keys;
  }

  lemma BoardRosters(c: Config, board: Board, teams: map<nat, string>, free: Owners)
    requires ValidConfig(c) && Assignable(free, board, teams) && NoRepeat(board)
    requires forall p :: p in free ==> free[p] == Free
    ensures
      var after := Assign(free, InOrderPicks(board, |board|), teams);
      && RosteredFrom(c, board, teams, after)
      && |set p | p in after && after[p] != Free| == |board|
  {
    hide Drafted, Assign, NoRepeat, Assignable, InOrderPicks;
    AssignableParts(free, board, teams);
    var after := Assign(free, InOrderPicks(board, |board|), teams);
    DraftedCount(board);
    forall o | o in board ensures after[board[o].player] == OnTeam(teams[board[o].teamSlot]) {
      PickOnRoster(free, board, teams, o);
    }
    forall p | p in free && p !in Drafted(board) ensures after[p] == Free {
      OthersKeep(free, board, teams, p);
    }
    forall p | p in Drafted(board) ensures p in after && after[p] != Free {
      var o := PickOfPlayer(board, p);
      assert after[p] == OnTeam(teams[board[o].teamSlot]);
    }
    assert (set p | p in after && after[p] != Free) == Drafted(board);
  }

  lemma AssignableParts(owners: Owners, board: Board, teams: map<nat, string>)
    requires Assignable(owners, board, teams)
    ensures Gapless(board)
    ensures forall o :: o in board ==> board[o].player in owners && board[o].teamSlot in teams
  {
    var picks := InOrderPicks(board, |board|);
    forall o | o in board ensures board[o].player in owners && board[o].teamSlot in teams {
      assert picks[o - 1] == board[o];
    }
  }

  lemma IsDrafted(board: Board, o: nat)
    requires o in board
    ensures board[o].player in Drafted(board)
  {
  }

  lemma PickOfPlayer(board: Board, p: nat) returns (o: nat)
    requires p in Drafted(board)
    ensures o in board && board[o].player == p
  {
    o :| o in board && board[o].player == p;
  }

  lemma PicksAreApart(c: Config, board: Board)
    requires ValidConfig(c) && Gapless(board) && Snaked(c, board) && NoRepeat(board)
    ensures
      var picks := InOrderPicks(board, |board|);
      && PlayersApart(picks)
      && (forall i :: 0 <= i < |picks| ==> picks[i].player in c.players && 1 <= picks[i].teamSlot <= c.teamCount)
  {
    hide SnakeSlot, SnakeRound;
    var picks := InOrderPicks(board, |board|);
    forall i | 0 <= i < |picks| ensures 1 <= picks[i].teamSlot <= c.teamCount {
      assert picks[i] == board[i + 1];
    }
  }

  /**
    Whatever picks, undos, replacements and session actions led to a full board, every team has one pick a
    round and the roster marks exactly the drafted players, each for the team that drafted him.
  */
  lemma RequestsFillTheRoster(c: Config, mode: SourceMode, cmds: seq<DraftRuns.Command>, teams: map<nat, string>, owners: Owners)
    requires ValidConfig(c) && DraftRuns.AllWellFormed(cmds)
    requires forall i :: 0 <= i < |cmds| ==> DraftRuns.ByRequest(cmds[i])
    requires owners.Keys == c.players.Keys
    requires forall s :: 1 <= s <= c.teamCount ==> s in teams
    ensures Sound(c, DraftRuns.FreshRoom(mode))
    ensures
      var board := Replay(DraftRuns.Run(c, DraftRuns.FreshRoom(mode), cmds).log);
      && Gapless(board) && |board| <= TotalPicks(c)
      && (|board| == TotalPicks(c) ==>
            && (forall slot :: 1 <= slot <= c.teamCount ==> |PicksOf(board, slot)| == c.roundCount)
            && var after := Assign(AllFree(owners), InOrderPicks(board, |board|), teams);
               RosteredFrom(c, board, teams, after) && |set p | p in after && after[p] != Free| == TotalPicks(c))
  {
    hide Replay, Sound, NoRepeat, RosteredFrom, PicksOf, Assign, InOrderPicks;
    DraftRuns.FreshRoomIsSound(c, mode);
    var start := DraftRuns.FreshRoom(mode);
    var later := DraftRuns.Run(c, start, cmds);
    DraftRuns.RunNeverRepeats(c, start, cmds);
    DraftRuns.RunIsBounded(c, start, cmds);
    DraftRuns.SoundBoundary(c, later);
    if |Replay(later.log)| == TotalPicks(c) {
      forall slot | 1 <= slot <= c.teamCount ensures |PicksOf(Replay(later.log), slot)| == c.roundCount {
        FullBoardIsEven(c, later, slot);
      }
      FullBoardRosters(c, later, teams, owners);
    }
  }
}
