/**
  Where the guards of a draft end: when an accepted row or a pass over a batch drafts a player twice.
*/
module DraftLimits {
  import opened Wrappers
  import opened DraftLog
  import opened DraftRoom
  import opened DraftLaws
  import opened Reconciling
  import opened DraftRuns

  // ---------------------------------------------------------------- one pick repeats a player

  lemma TakesRepeats(before: Board, after: Board, o: nat, player: nat)
    requires NoRepeat(before) && Takes(before, after, o, player)
    ensures NoRepeat(after) <==> player !in Drafted(before - {o})
  {
    var rest := before - {o};
    if player in Drafted(rest) {
      var x :| x in rest && rest[x].player == player;
      assert x in after && after[x].player == after[o].player && x != o;
    } else {
      forall a, b | a in after && b in after && a != b ensures after[a].player != after[b].player {
        assert a != o ==> a in rest && rest[a].player in Drafted(rest);
        assert b != o ==> b in rest && rest[b].player in Drafted(rest);
      }
    }
  }

  /** An accepted row whose player is drafted at another overall. */
  predicate AcceptsDrafted(room: Room, id: nat, r: Resolution)
    requires id < |room.conflicts|
  {
    var row := room.conflicts[id];
    var player := if r.player.Some? then r.player else row.incoming.playerId;
    && row.status == Unresolved
    && (r.action == AcceptIncoming || r.action == MapPlayerAndAccept)
    && player.Some? && player.value in Drafted(Replay(room.log) - {row.incoming.overall})
  }

  /** Resolving a row has no guard against a player drafted before: it repeats one exactly when the row names one. */
  lemma ResolveRepeatsExactlyWhen(c: Config, room: Room, id: nat, r: Resolution)
    requires ValidConfig(c) && Sound(c, room) && NoRepeat(Replay(room.log))
    requires ResolveConflict(c, room, id, r).Accepted?
    ensures id < |room.conflicts|
    ensures NoRepeat(Replay(ResolveConflict(c, room, id, r).room.log)) <==> !AcceptsDrafted(room, id, r)
  {
    hide Replay, Sound, Grows, ResolveConflict, Takes, NoRepeat;
    ResolveKeeps(c, room, id, r);
    SoundBoundary(c, room);
    var row := room.conflicts[id];
    if row.status == Unresolved && (r.action == AcceptIncoming || r.action == MapPlayerAndAccept) {
      var player := if r.player.Some? then r.player else row.incoming.playerId;
      TakesRepeats(Replay(room.log), Replay(ResolveConflict(c, room, id, r).room.log), row.incoming.overall, player.value);
    }
  }

  // ---------------------------------------------------------------- a pass repeats a player

  /** What an automatic feed has to say of an overall for the pick to be applied at all. */
  predicate Usable(c: Config, room: Room, o: Observation)
    requires ValidConfig(c) && o.overall >= 1
  {
    && IsAuthoritative(room.sourceMode) && o.overall <= TotalPicks(c) && PlayerFor(c, o).Some?
    && FindKey(room.log, ObservationKey(room.sourceMode, o)).None?
    && o.teamSlot == SnakeSlot(o.overall, c.teamCount)
  }

  /** It names the player behind the placeholder that holds the overall. */
  predicate Upgradable(c: Config, room: Room, board: Board, o: Observation)
    requires ValidConfig(c) && o.overall >= 1
  {
    && Usable(c, room, o) && o.overall in board
    && board[o.overall].player != PlayerFor(c, o).value && o.teamSlot == board[o.overall].teamSlot
    && MatchesPlaceholder(c, board[o.overall].player, PlayerFor(c, o).value, o.overall)
  }

  /** An automatic feed gives this overall to a player who is drafted at another one. */
  predicate DraftsAgain(c: Config, room: Room, board: Board, o: Observation)
    requires ValidConfig(c) && o.overall >= 1
  {
    && (if o.overall in board then Upgradable(c, room, board, o) else Usable(c, room, o) && o.overall == |board| + 1)
    && PlayerFor(c, o).value in Drafted(board - {o.overall})
  }

  lemma StepRepeatsExactlyWhen(c: Config, room: Room, o: Observation)
    requires ValidConfig(c) && Sound(c, room) && o.overall >= 1 && NoRepeat(Replay(room.log))
    ensures NoRepeat(ReconcileOne(c, room, Replay(room.log), o).board) <==> !DraftsAgain(c, room, Replay(room.log), o)
  {
    hide Replay, Sound, FindKey, FindConflict, Grows, MatchesPlaceholder, NoRepeat, SnakeSlot, Takes, ObservationKey;
    var s := ReconcileOne(c, room, Replay(room.log), o);
    ReconcileOneKeeps(c, room, o);
    if s.applied.Some? {
      TakesRepeats(Replay(room.log), s.board, o.overall, PlayerFor(c, o).value);
    }
  }

  /** The pass when it comes to one of the observations. */
  function Before(c: Config, room: Room, obs: seq<Observation>, i: nat): Pass
    requires ValidConfig(c) && Positive(obs) && i <= |obs|
  {
    ReconcileAll(c, room, Replay(room.log), obs[..i])
  }

  ghost predicate NoneDraftsAgain(c: Config, room: Room, obs: seq<Observation>)
    requires ValidConfig(c) && Positive(obs)
  {
    forall i :: 0 <= i < |obs| ==> !DraftsAgain(c, Before(c, room, obs, i).room, Before(c, room, obs, i).board, obs[i])
  }

  /** No player is active twice at any point of the pass. */
  ghost predicate NeverRepeats(c: Config, room: Room, obs: seq<Observation>)
    requires ValidConfig(c) && Positive(obs)
  {
    forall i :: 0 <= i <= |obs| ==> NoRepeat(Before(c, room, obs, i).board)
  }

  /** One more observation. */
  lemma BeforeNext(c: Config, room: Room, obs: seq<Observation>, i: nat)
    requires ValidConfig(c) && Positive(obs) && i < |obs|
    ensures
      var before := Before(c, room, obs, i);
      && Before(c, room, obs, i + 1).board == ReconcileOne(c, before.room, before.board, obs[i]).board
      && Before(c, room, obs, i + 1).room == ReconcileOne(c, before.room, before.board, obs[i]).room
  {
    hide ReconcileOne;
    assert obs[..i + 1][..i] == obs[..i];
  }

  lemma BeforeIsSound(c: Config, room: Room, obs: seq<Observation>, i: nat)
    requires ValidConfig(c) && Sound(c, room) && Positive(obs) && i <= |obs|
    ensures Sound(c, Before(c, room, obs, i).room)
    ensures Before(c, room, obs, i).board == Replay(Before(c, room, obs, i).room.log)
  {
    hide Sound, Replay, Grows, ReconcileAll;
    CarriedBoardIsReplay(c, room, obs[..i]);
  }

  /** A pass never has a player active twice exactly when no observation drafts one again at its turn. */
  lemma {:induction false} PassRepeatsExactlyWhen(c: Config, room: Room, obs: seq<Observation>)
    requires ValidConfig(c) && Sound(c, room) && Positive(obs) && NoRepeat(Replay(room.log))
    ensures NeverRepeats(c, room, obs) <==> NoneDraftsAgain(c, room, obs)
  {
    hide Replay, Sound, NoRepeat, DraftsAgain, Before, ReconcileOne;
    if NeverRepeats(c, room, obs) {
      forall i | 0 <= i < |obs|
        ensures !DraftsAgain(c, Before(c, room, obs, i).room, Before(c, room, obs, i).board, obs[i])
      {
        BeforeIsSound(c, room, obs, i);
        BeforeNext(c, room, obs, i);
        StepRepeatsExactlyWhen(c, Before(c, room, obs, i).room, obs[i]);
      }
    }
    if NoneDraftsAgain(c, room, obs) {
      forall i | 0 <= i <= |obs| ensures NoRepeat(Before(c, room, obs, i).board) {
        RepeatsNowhere(c, room, obs, i);
      }
    }
  }

  lemma {:induction false} RepeatsNowhere(c: Config, room: Room, obs: seq<Observation>, i: nat)
    requires ValidConfig(c) && Sound(c, room) && Positive(obs) && NoRepeat(Replay(room.log))
    requires NoneDraftsAgain(c, room, obs) && i <= |obs|
    ensures NoRepeat(Before(c, room, obs, i).board)
  {
    hide Replay, Sound, NoRepeat, DraftsAgain, ReconcileOne, ReconcileAll;
    if i == 0 {
      NothingYet(c, room, obs);
    } else {
      RepeatsNowhere(c, room, obs, i - 1);
      BeforeIsSound(c, room, obs, i - 1);
      BeforeNext(c, room, obs, i - 1);
      StepRepeatsExactlyWhen(c, Before(c, room, obs, i - 1).room, obs[i - 1]);
    }
  }

  lemma NothingYet(c: Config, room: Room, obs: seq<Observation>)
    requires ValidConfig(c) && Positive(obs)
    ensures Before(c, room, obs, 0) == Pass(room, Replay(room.log), None)
  {
  }

  // ---------------------------------------------------------------- what the pass leaves

  /** The player stands for a pick whose player the provider does not know yet. */
  ghost predicate IsPlaceholder(c: Config, player: nat) {
    player in c.players && exists o: nat :: c.players[player].sourceId == Some("draft." + Digits(o))
  }

  ghost predicate NamesNoPlaceholder(c: Config, obs: seq<Observation>) {
    forall i :: 0 <= i < |obs| && PlayerFor(c, obs[i]).Some? ==> !IsPlaceholder(c, PlayerFor(c, obs[i]).value)
  }

  ghost predicate HeldTwice(board: Board, player: nat) {
    exists a, b :: a in board && b in board && a != b && board[a].player == player == board[b].player
  }

  /** Only a placeholder is ever taken off a pick, so another player who is active twice stays so. */
  lemma StepKeepsTwice(c: Config, room: Room, board: Board, o: Observation, player: nat)
    requires ValidConfig(c) && o.overall >= 1 && HeldTwice(board, player) && !IsPlaceholder(c, player)
    ensures HeldTwice(ReconcileOne(c, room, board, o).board, player)
  {
    hide FindKey, FindConflict, ObservationKey, SnakeSlot, Digits;
    var s := ReconcileOne(c, room, board, o);
    var a, b :| a in board && b in board && a != b && board[a].player == player == board[b].player;
    assert a in s.board && b in s.board && s.board[a] == board[a] && s.board[b] == board[b];
  }

  lemma {:induction false} StaysTwice(c: Config, room: Room, obs: seq<Observation>, i: nat, j: nat, player: nat)
    requires ValidConfig(c) && Positive(obs) && i <= j <= |obs|
    requires HeldTwice(Before(c, room, obs, i).board, player) && !IsPlaceholder(c, player)
    ensures HeldTwice(Before(c, room, obs, j).board, player)
    decreases j
  {
    hide HeldTwice, IsPlaceholder, Before, ReconcileOne;
    if i < j {
      StaysTwice(c, room, obs, i, j - 1, player);
      BeforeNext(c, room, obs, j - 1);
      StepKeepsTwice(c, Before(c, room, obs, j - 1).room, Before(c, room, obs, j - 1).board, obs[j - 1], player);
    }
  }

  lemma DraftsTwice(c: Config, room: Room, o: Observation)
    requires ValidConfig(c) && Sound(c, room) && o.overall >= 1
    requires DraftsAgain(c, room, Replay(room.log), o)
    ensures PlayerFor(c, o).Some? && HeldTwice(ReconcileOne(c, room, Replay(room.log), o).board, PlayerFor(c, o).value)
  {
    hide Replay, Sound, FindKey, FindConflict, Grows, MatchesPlaceholder, SnakeSlot, ObservationKey;
    var board, q := Replay(room.log), PlayerFor(c, o).value;
    var s := ReconcileOne(c, room, board, o);
    ReconcileOneKeeps(c, room, o);
    assert s.applied.Some?;
    var x :| x in board - {o.overall} && board[x].player == q;
    assert s.board[x].player == q && s.board[o.overall].player == q;
  }

  lemma HeldTwiceRepeats(board: Board, player: nat)
    requires HeldTwice(board, player)
    ensures !NoRepeat(board)
  {
  }

  /**
    A pass over observations that name no placeholder leaves a player active twice exactly when one of them
    drafts a player again at its turn.
  */
  lemma PassLeavesRepeatExactlyWhen(c: Config, room: Room, obs: seq<Observation>)
    requires ValidConfig(c) && Sound(c, room) && Positive(obs) && NoRepeat(Replay(room.log)) && NamesNoPlaceholder(c, obs)
    ensures NoRepeat(ReconcileAll(c, room, Replay(room.log), obs).board) <==> NoneDraftsAgain(c, room, obs)
  {
    hide Replay, Sound, NoRepeat, DraftsAgain, ReconcileAll, ReconcileOne, HeldTwice, IsPlaceholder;
    PassRepeatsExactlyWhen(c, room, obs);
    assert obs[..|obs|] == obs;
    assert Before(c, room, obs, |obs|) == ReconcileAll(c, room, Replay(room.log), obs);
    if !NoneDraftsAgain(c, room, obs) {
      var i :| 0 <= i < |obs| && DraftsAgain(c, Before(c, room, obs, i).room, Before(c, room, obs, i).board, obs[i]);
      BeforeIsSound(c, room, obs, i);
      DraftsTwice(c, Before(c, room, obs, i).room, obs[i]);
      BeforeNext(c, room, obs, i);
      StaysTwice(c, room, obs, i + 1, |obs|, PlayerFor(c, obs[i]).value);
      HeldTwiceRepeats(Before(c, room, obs, |obs|).board, PlayerFor(c, obs[i]).value);
    }
  }
}
