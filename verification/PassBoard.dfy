/**
  The board a whole batch leaves, told from the room and the batch alone: which placeholders are upgraded
  and how far the unbroken run of new picks reaches.
*/
module PassBoard {
  import opened Wrappers
  import opened DraftLog
  import opened DraftRoom
  import opened DraftLaws
  import opened Reconciling
  import opened DraftLimits

  // ---------------------------------------------------------------- the batch as a table

  /** No overall twice. */
  ghost predicate OverallsApart(obs: seq<Observation>) {
    forall i, j :: 0 <= i < j < |obs| ==> obs[i].overall != obs[j].overall
  }

  /** No key twice. */
  ghost predicate KeysApart(mode: SourceMode, obs: seq<Observation>) {
    forall i, j :: 0 <= i < j < |obs| ==> ObservationKey(mode, obs[i]) != ObservationKey(mode, obs[j])
  }

  /** What the batch says of an overall. */
  function EntryFor(obs: seq<Observation>, o: nat): (r: Option<Observation>)
    ensures r.Some? ==> r.value in obs && r.value.overall == o
    ensures r.None? ==> forall x :: x in obs ==> x.overall != o
  {
    if |obs| == 0 then None
    else if obs[|obs| - 1].overall == o then Some(obs[|obs| - 1])
    else EntryFor(obs[..|obs| - 1], o)
  }

  /** The last overall of the unbroken run of usable entries after overall `n`. */
  function Reach(c: Config, room: Room, obs: seq<Observation>, n: nat): (m: nat)
    requires ValidConfig(c)
    ensures n <= m && (m == n || m <= TotalPicks(c))
    decreases TotalPicks(c) - n
  {
    var e := EntryFor(obs, n + 1);
    if n < TotalPicks(c) && e.Some? && Usable(c, room, e.value) then Reach(c, room, obs, n + 1) else n
  }

  /** Who holds an overall after the batch. */
  function PlayerAfter(c: Config, room: Room, board: Board, obs: seq<Observation>, o: nat): Option<nat>
    requires ValidConfig(c) && o >= 1
  {
    var e := EntryFor(obs, o);
    if o in board then
      if e.Some? && Upgradable(c, room, board, e.value) then PlayerFor(c, e.value) else Some(board[o].player)
    else if o <= Reach(c, room, obs, |board|) && e.Some? then PlayerFor(c, e.value)
    else None
  }

  // ---------------------------------------------------------------- one more entry

  /** The last entry has the highest overall. */
  ghost predicate LastIsHighest(obs: seq<Observation>) {
    |obs| > 0 && forall i :: 0 <= i < |obs| - 1 ==> obs[i].overall < obs[|obs| - 1].overall
  }

  lemma EntryForLast(obs: seq<Observation>, o: nat)
    requires LastIsHighest(obs)
    ensures
      var last := obs[|obs| - 1];
      if o == last.overall then EntryFor(obs, o) == Some(last) && EntryFor(obs[..|obs| - 1], o).None?
      else EntryFor(obs, o) == EntryFor(obs[..|obs| - 1], o)
    ensures o > obs[|obs| - 1].overall ==> EntryFor(obs, o).None?
  {
  }

  /** The run reaches one further exactly when the last entry continues it. */
  lemma {:induction false} ReachLast(c: Config, room: Room, obs: seq<Observation>, n: nat)
    requires ValidConfig(c) && LastIsHighest(obs) && obs[|obs| - 1].overall >= 1
    ensures
      var front, last := Reach(c, room, obs[..|obs| - 1], n), obs[|obs| - 1];
      Reach(c, room, obs, n) == if last.overall == front + 1 && Usable(c, room, last) then front + 1 else front
    decreases TotalPicks(c) - n
  {
    hide EntryFor, Usable;
    var last := obs[|obs| - 1];
    EntryForLast(obs, n + 1);
    EntryForLast(obs, n + 2);
    UsableWithin(c, room, last);
    if n + 1 != last.overall && n < TotalPicks(c) && EntryFor(obs, n + 1).Some? && Usable(c, room, EntryFor(obs, n + 1).value) {
      ReachLast(c, room, obs, n + 1);
    }
  }

  lemma UsableWithin(c: Config, room: Room, o: Observation)
    requires ValidConfig(c) && o.overall >= 1
    ensures Usable(c, room, o) ==> o.overall <= TotalPicks(c) && PlayerFor(c, o).Some?
  {
  }

  // ---------------------------------------------------------------- what a pass sees

  /** A turn adds at most one event, under the key of its entry. */
  lemma StepLog(c: Config, room: Room, board: Board, o: Observation)
    requires ValidConfig(c) && o.overall >= 1
    ensures
      var later := ReconcileOne(c, room, board, o).room;
      && later.sourceMode == room.sourceMode
      && (later.log == room.log
          || exists e: Event :: later.log == room.log + [e] && e.key == ObservationKey(room.sourceMode, o))
  {
    hide FindKey, FindConflict, MatchesPlaceholder, SnakeSlot, SnakeRound, ObservationKey;
    match Judge(c, room, board, o)
    case Proposed =>
    case AlreadyConfirmed =>
    case Confirms =>
      var e := ProviderEvent(c, room, ProviderConfirmed, o, board[o.overall].teamSlot, PlayerFor(c, o).value, None);
      assert Append(room, e).log == room.log + [e];
    case Upgrades =>
      var e := ProviderEvent(c, room, PickReplaced, o, o.teamSlot, PlayerFor(c, o).value, Some(board[o.overall].event.id));
      assert Append(room, e).log == room.log + [e];
    case Records =>
      var e := ProviderEvent(c, room, PickRecorded, o, o.teamSlot, PlayerFor(c, o).value, None);
      assert Append(room, e).log == room.log + [e];
  }

  lemma StepFinds(c: Config, room: Room, board: Board, o: Observation, key: string)
    requires ValidConfig(c) && o.overall >= 1 && key != ObservationKey(room.sourceMode, o)
    ensures FindKey(ReconcileOne(c, room, board, o).room.log, key) == FindKey(room.log, key)
  {
    hide FindKey, ReconcileOne, ObservationKey;
    StepLog(c, room, board, o);
    var later := ReconcileOne(c, room, board, o).room;
    if later.log != room.log {
      var e: Event :| later.log == room.log + [e] && e.key == ObservationKey(room.sourceMode, o);
      AppendFinds(room, e, key);
    }
  }

  /** A key that no entry has is found as before. */
  lemma {:induction false} PassFinds(c: Config, room: Room, board: Board, obs: seq<Observation>, key: string)
    requires ValidConfig(c) && Positive(obs)
    requires forall i :: 0 <= i < |obs| ==> key != ObservationKey(room.sourceMode, obs[i])
    ensures
      var later := ReconcileAll(c, room, board, obs).room;
      later.sourceMode == room.sourceMode && FindKey(later.log, key) == FindKey(room.log, key)
  {
    hide FindKey, ReconcileOne, ObservationKey;
    if |obs| > 0 {
      var front := obs[..|obs| - 1];
      PassFinds(c, room, board, front, key);
      var p := ReconcileAll(c, room, board, front);
      StepFinds(c, p.room, p.board, obs[|obs| - 1], key);
      StepLog(c, p.room, p.board, obs[|obs| - 1]);
    }
  }

  /** What an entry is good for does not change before its turn. */
  lemma UsableAtTurn(c: Config, room: Room, later: Room, o: Observation)
    requires ValidConfig(c) && o.overall >= 1 && later.sourceMode == room.sourceMode
    requires FindKey(later.log, ObservationKey(room.sourceMode, o)) == FindKey(room.log, ObservationKey(room.sourceMode, o))
    ensures Usable(c, later, o) <==> Usable(c, room, o)
  {
    hide FindKey, ObservationKey, SnakeSlot;
  }

  // ---------------------------------------------------------------- the closed form

  /** The board of the table: its overalls, their players, and the picks no entry names. */
  ghost predicate BoardIs(c: Config, room: Room, board: Board, obs: seq<Observation>, after: Board)
    requires ValidConfig(c)
  {
    && (forall o :: o in after <==> 1 <= o <= Reach(c, room, obs, |board|))
    && (forall o :: o in after ==> o >= 1 && PlayerAfter(c, room, board, obs, o) == Some(after[o].player))
    && (forall o :: o in board && EntryFor(obs, o).None? ==> o in after && after[o] == board[o])
  }

  /** What a turn does to the board, in the terms of the table. */
  lemma TurnIs(c: Config, room: Room, o: Observation)
    requires ValidConfig(c) && Sound(c, room) && o.overall >= 1
    ensures
      var board := Replay(room.log);
      var after := ReconcileOne(c, room, board, o).board;
      if Upgradable(c, room, board, o) || (Usable(c, room, o) && o.overall == |board| + 1)
      then PlayerFor(c, o).Some? && Takes(board, after, o.overall, PlayerFor(c, o).value)
      else after == board
  {
    hide Replay, FindKey, FindConflict, Sound, Grows, MatchesPlaceholder, Takes, ObservationKey, SnakeSlot;
    ReconcileOneKeeps(c, room, o);
    SoundBound(c, room);
  }

  /** Other overalls are as the front of the batch left them. */
  lemma OthersAfterLast(c: Config, room: Room, board: Board, obs: seq<Observation>, o: nat)
    requires ValidConfig(c) && LastIsHighest(obs) && obs[|obs| - 1].overall >= 1 && o >= 1
    requires o != obs[|obs| - 1].overall && o <= Reach(c, room, obs[..|obs| - 1], |board|)
    ensures PlayerAfter(c, room, board, obs, o) == PlayerAfter(c, room, board, obs[..|obs| - 1], o)
  {
    hide EntryFor, Usable, Upgradable, Reach;
    EntryForLast(obs, o);
    ReachLast(c, room, obs, |board|);
  }

  /** The front of a batch leaves the overall of the last entry alone. */
  lemma LastIsUntouched(c: Config, room: Room, board: Board, obs: seq<Observation>, before: Board)
    requires ValidConfig(c) && LastIsHighest(obs) && Gapless(board)
    requires BoardIs(c, room, board, obs[..|obs| - 1], before)
    ensures
      var o := obs[|obs| - 1].overall;
      && (o in before <==> o in board) && (o in before ==> before[o] == board[o])
  {
    hide EntryFor, Usable, Upgradable, Reach;
    EntryForLast(obs, obs[|obs| - 1].overall);
  }

  lemma BoardSize(c: Config, room: Room, board: Board, obs: seq<Observation>, after: Board)
    requires ValidConfig(c) && BoardIs(c, room, board, obs, after)
    ensures |after| == Reach(c, room, obs, |board|) && Gapless(after)
  {
    hide Reach, PlayerAfter, EntryFor;
    GaplessWith(after, Reach(c, room, obs, |board|));
  }

  /** The last entry is passed over. */
  lemma LastPassedOver(c: Config, room: Room, board: Board, obs: seq<Observation>, before: Board)
    requires ValidConfig(c) && LastIsHighest(obs) && obs[|obs| - 1].overall >= 1 && Gapless(board)
    requires BoardIs(c, room, board, obs[..|obs| - 1], before)
    requires !Upgradable(c, room, board, obs[|obs| - 1])
    requires !(Usable(c, room, obs[|obs| - 1]) && obs[|obs| - 1].overall == |before| + 1)
    ensures BoardIs(c, room, board, obs, before)
  {
    hide EntryFor, Usable, Upgradable, Reach, PlayerAfter, Gapless;
    var x := obs[|obs| - 1];
    BoardSize(c, room, board, obs[..|obs| - 1], before);
    ReachLast(c, room, obs, |board|);
    LastIsUntouched(c, room, board, obs, before);
    forall o | o in before ensures PlayerAfter(c, room, board, obs, o) == Some(before[o].player) {
      if o == x.overall {
        NotUpgraded(c, room, board, obs);
      } else {
        OthersAfterLast(c, room, board, obs, o);
      }
    }
    forall o | o in board && EntryFor(obs, o).None? ensures o in before && before[o] == board[o] {
      EntryForLast(obs, o);
    }
  }

  lemma NotUpgraded(c: Config, room: Room, board: Board, obs: seq<Observation>)
    requires ValidConfig(c) && LastIsHighest(obs) && obs[|obs| - 1].overall in board && obs[|obs| - 1].overall >= 1
    ensures
      var x := obs[|obs| - 1];
      PlayerAfter(c, room, board, obs, x.overall)
      == if Upgradable(c, room, board, x) then PlayerFor(c, x) else Some(board[x.overall].player)
  {
    hide EntryFor, Usable, Upgradable, Reach;
    EntryForLast(obs, obs[|obs| - 1].overall);
  }

  /** The last entry is applied. */
  lemma LastApplied(c: Config, room: Room, board: Board, obs: seq<Observation>, before: Board, after: Board)
    requires ValidConfig(c) && LastIsHighest(obs) && obs[|obs| - 1].overall >= 1 && Gapless(board)
    requires BoardIs(c, room, board, obs[..|obs| - 1], before)
    requires
      var x := obs[|obs| - 1];
      && (Upgradable(c, room, board, x) || (Usable(c, room, x) && x.overall == |before| + 1))
      && PlayerFor(c, x).Some? && Takes(before, after, x.overall, PlayerFor(c, x).value)
    ensures BoardIs(c, room, board, obs, after)
  {
    hide EntryFor, Usable, Upgradable, Reach, PlayerAfter, Gapless;
    var x := obs[|obs| - 1];
    BoardSize(c, room, board, obs[..|obs| - 1], before);
    ReachLast(c, room, obs, |board|);
    LastIsUntouched(c, room, board, obs, before);
    UpgradableIsOld(c, room, board, x);
    assert forall o :: o in after <==> o in before || o == x.overall;
    forall o | o in after ensures PlayerAfter(c, room, board, obs, o) == Some(after[o].player) {
      if o == x.overall {
        AppliedIsNamed(c, room, board, obs);
      } else {
        OthersAfterLast(c, room, board, obs, o);
      }
    }
    forall o | o in board && EntryFor(obs, o).None? ensures o in after && after[o] == board[o] {
      EntryForLast(obs, o);
    }
  }

  lemma UpgradableIsOld(c: Config, room: Room, board: Board, o: Observation)
    requires ValidConfig(c) && o.overall >= 1 && Gapless(board)
    ensures Upgradable(c, room, board, o) ==> o.overall in board && o.overall <= |board|
    ensures o.overall > |board| ==> o.overall !in board
  {
  }

  lemma AppliedIsNamed(c: Config, room: Room, board: Board, obs: seq<Observation>)
    requires ValidConfig(c) && LastIsHighest(obs) && obs[|obs| - 1].overall >= 1
    requires Upgradable(c, room, board, obs[|obs| - 1]) || (obs[|obs| - 1].overall !in board
               && obs[|obs| - 1].overall <= Reach(c, room, obs, |board|))
    ensures PlayerAfter(c, room, board, obs, obs[|obs| - 1].overall) == PlayerFor(c, obs[|obs| - 1])
  {
    hide EntryFor, Usable, Reach;
    EntryForLast(obs, obs[|obs| - 1].overall);
  }

  // ---------------------------------------------------------------- the whole pass

  /** In the order of the sort. */
  ghost predicate OverallsRise(obs: seq<Observation>) {
    forall i, j :: 0 <= i < j < |obs| ==> obs[i].overall < obs[j].overall
  }

  lemma NothingInBatch(c: Config, room: Room, board: Board)
    requires ValidConfig(c) && Gapless(board)
    ensures BoardIs(c, room, board, [], board)
  {
  }

  /** A pass over a rising batch leaves the board of the table. */
  lemma {:induction false} PassBoardIs(c: Config, room: Room, obs: seq<Observation>)
    requires ValidConfig(c) && Sound(c, room) && Positive(obs) && OverallsRise(obs) && KeysApart(room.sourceMode, obs)
    ensures BoardIs(c, room, Replay(room.log), obs, ReconcileAll(c, room, Replay(room.log), obs).board)
  {
    hide Replay, Sound, Grows, BoardIs, ReconcileOne, Upgradable, Usable, FindKey, ObservationKey, Takes;
    var board := Replay(room.log);
    SoundBound(c, room);
    if |obs| == 0 {
      NothingInBatch(c, room, board);
    } else {
      var front, x := obs[..|obs| - 1], obs[|obs| - 1];
      PassBoardIs(c, room, front);
      CarriedBoardIsReplay(c, room, front);
      var p := ReconcileAll(c, room, board, front);
      PassFinds(c, room, board, front, ObservationKey(room.sourceMode, x));
      UsableAtTurn(c, room, p.room, x);
      LastIsUntouched(c, room, board, obs, p.board);
      UpgradableAtTurn(c, room, p.room, board, p.board, x);
      TurnIs(c, p.room, x);
      var after := ReconcileOne(c, p.room, p.board, x).board;
      if Upgradable(c, room, board, x) || (Usable(c, room, x) && x.overall == |p.board| + 1) {
        LastApplied(c, room, board, obs, p.board, after);
      } else {
        LastPassedOver(c, room, board, obs, p.board);
      }
    }
  }

  lemma UpgradableAtTurn(c: Config, room: Room, later: Room, board: Board, before: Board, o: Observation)
    requires ValidConfig(c) && o.overall >= 1 && (Usable(c, later, o) <==> Usable(c, room, o))
    requires o.overall in before <==> o.overall in board
    requires o.overall in before ==> before[o.overall] == board[o.overall]
    ensures Upgradable(c, later, before, o) <==> Upgradable(c, room, board, o)
  {
    hide Usable, MatchesPlaceholder;
    UsableWithin(c, room, o);
    UsableWithin(c, later, o);
  }

  // ---------------------------------------------------------------- the batch as it is sent

  lemma SortedRises(obs: seq<Observation>)
    requires OverallsApart(obs)
    ensures OverallsRise(SortObservations(obs))
  {
    hide SortObservations;
    var sorted := SortObservations(obs);
    var places := SortIsStable(obs);
    forall i, j | 0 <= i < j < |sorted| ensures sorted[i].overall < sorted[j].overall {
      var a, b := places[i], places[j];
      assert if a < b then obs[a].overall != obs[b].overall else obs[b].overall != obs[a].overall;
    }
  }

  /** Sorting keeps the keys apart. */
  lemma SortedKeysApart(mode: SourceMode, obs: seq<Observation>)
    requires OverallsApart(obs) && KeysApart(mode, obs)
    ensures KeysApart(mode, SortObservations(obs))
  {
    hide ObservationKey, SortObservations;
    SortedRises(obs);
    var sorted := SortObservations(obs);
    forall i, j | 0 <= i < j < |sorted| ensures ObservationKey(mode, sorted[i]) != ObservationKey(mode, sorted[j]) {
      assert sorted[i] in obs && sorted[j] in obs;
      var a :| 0 <= a < |obs| && obs[a] == sorted[i];
      var b :| 0 <= b < |obs| && obs[b] == sorted[j];
      assert a != b;
      assert ObservationKey(mode, obs[a]) != ObservationKey(mode, obs[b]);
    }
  }

  /** The table does not depend on the order of the batch. */
  lemma EntryForSorted(obs: seq<Observation>, o: nat)
    requires OverallsApart(obs)
    ensures EntryFor(SortObservations(obs), o) == EntryFor(obs, o)
  {
    hide SortObservations, EntryFor;
    var sorted := SortObservations(obs);
    assert forall x :: x in sorted <==> x in multiset(sorted);
    assert forall x :: x in obs <==> x in multiset(obs);
    var e, f := EntryFor(sorted, o), EntryFor(obs, o);
    if e.Some? && f.Some? {
      var a :| 0 <= a < |obs| && obs[a] == e.value;
      var b :| 0 <= b < |obs| && obs[b] == f.value;
    }
  }

  lemma {:induction false} ReachSorted(c: Config, room: Room, obs: seq<Observation>, n: nat)
    requires ValidConfig(c) && OverallsApart(obs)
    ensures Reach(c, room, SortObservations(obs), n) == Reach(c, room, obs, n)
    decreases TotalPicks(c) - n
  {
    hide SortObservations, EntryFor, Usable, OverallsApart;
    EntryForSorted(obs, n + 1);
    var e := EntryFor(obs, n + 1);
    if n < TotalPicks(c) && e.Some? && Usable(c, room, e.value) {
      ReachSorted(c, room, obs, n + 1);
    }
  }

  lemma PlayerAfterSorted(c: Config, room: Room, board: Board, obs: seq<Observation>, o: nat)
    requires ValidConfig(c) && OverallsApart(obs) && o >= 1
    ensures PlayerAfter(c, room, board, SortObservations(obs), o) == PlayerAfter(c, room, board, obs, o)
  {
    hide SortObservations, EntryFor, Upgradable, OverallsApart, Reach;
    EntryForSorted(obs, o);
    ReachSorted(c, room, obs, |board|);
  }

  /**
    A batch without an overall or a key twice leaves a board told from the room and the batch alone: it reaches
    as far as the unbroken run of usable entries, and its players are the upgraded and the new ones and the old.
  */
  lemma BatchBoard(c: Config, room: Room, obs: seq<Observation>, expected: nat)
    requires ValidConfig(c) && Sound(c, room) && Positive(obs)
    requires OverallsApart(obs) && KeysApart(room.sourceMode, obs)
    requires Reconcile(c, room, obs, expected).Accepted?
    ensures
      var board, after := Replay(room.log), Replay(Reconcile(c, room, obs, expected).room.log);
      && |after| == Reach(c, room, obs, |board|) && Gapless(after)
      && forall o :: o in after ==> o >= 1 && PlayerAfter(c, room, board, obs, o) == Some(after[o].player)
  {
    hide Replay, Sound, Grows, ReconcileAll, CloseIfFull, SortObservations, OverallsApart, KeysApart, OverallsRise,
         PlayerAfter, Reach, EntryFor, Gapless;
    var board, sorted := Replay(room.log), SortObservations(obs);
    SortedIsPositive(obs);
    SortedRises(obs);
    SortedKeysApart(room.sourceMode, obs);
    PassBoardIs(c, room, sorted);
    CarriedBoardIsReplay(c, room, sorted);
    var p := ReconcileAll(c, room, board, sorted);
    CloseIfFullKeeps(c, p);
    BoardSize(c, room, board, sorted, p.board);
    ReachSorted(c, room, obs, |board|);
    forall o | o in p.board ensures o >= 1 && PlayerAfter(c, room, board, obs, o) == Some(p.board[o].player) {
      PlayerAfterSorted(c, room, board, obs, o);
    }
  }

  // ---------------------------------------------------------------- when a batch repeats a player

  /** The players of the board that the batch leaves all differ. */
  ghost predicate PlayersDiffer(c: Config, room: Room, board: Board, obs: seq<Observation>)
    requires ValidConfig(c)
  {
    forall a: nat, b: nat :: 1 <= a < b <= Reach(c, room, obs, |board|) ==>
      PlayerAfter(c, room, board, obs, a) != PlayerAfter(c, room, board, obs, b)
  }

  lemma BatchWithoutPlaceholders(c: Config, room: Room, obs: seq<Observation>, expected: nat)
    requires ValidConfig(c) && Sound(c, room) && Positive(obs) && NoRepeat(Replay(room.log)) && NamesNoPlaceholder(c, obs)
    requires Reconcile(c, room, obs, expected).Accepted?
    ensures Positive(SortObservations(obs))
    ensures NoRepeat(Replay(Reconcile(c, room, obs, expected).room.log)) <==> NoneDraftsAgain(c, room, SortObservations(obs))
  {
    hide Replay, Sound, NoRepeat, ReconcileAll, IsPlaceholder, CloseIfFull, NoneDraftsAgain, SortObservations, Grows;
    SortedIsPositive(obs);
    var sorted := SortObservations(obs);
    forall i | 0 <= i < |sorted| && PlayerFor(c, sorted[i]).Some? ensures !IsPlaceholder(c, PlayerFor(c, sorted[i]).value) {
      assert sorted[i] in obs;
    }
    PassLeavesRepeatExactlyWhen(c, room, sorted);
    CarriedBoardIsReplay(c, room, sorted);
    CloseIfFullKeeps(c, ReconcileAll(c, room, Replay(room.log), sorted));
  }

  /**
    When a batch leaves a player active twice. Without an overall or a key twice: exactly when the table of the
    room and the batch has one; it can be told before the call. With ties too, when no entry names a placeholder:
    exactly when an entry drafts a player again at its turn.
  */
  lemma BatchRepeatsExactlyWhen(c: Config, room: Room, obs: seq<Observation>, expected: nat)
    requires ValidConfig(c) && Sound(c, room) && Positive(obs)
    requires Reconcile(c, room, obs, expected).Accepted?
    ensures Positive(SortObservations(obs))
    ensures
      var board, after := Replay(room.log), Replay(Reconcile(c, room, obs, expected).room.log);
      && (OverallsApart(obs) && KeysApart(room.sourceMode, obs) ==> (NoRepeat(after) <==> PlayersDiffer(c, room, board, obs)))
      && (NoRepeat(board) && NamesNoPlaceholder(c, obs) ==>
            (NoRepeat(after) <==> NoneDraftsAgain(c, room, SortObservations(obs))))
  {
    hide Replay, Sound, NoRepeat, OverallsApart, KeysApart, PlayersDiffer, NamesNoPlaceholder, NoneDraftsAgain, Reconcile,
         SortObservations;
    SortedIsPositive(obs);
    var board, after := Replay(room.log), Replay(Reconcile(c, room, obs, expected).room.log);
    if OverallsApart(obs) && KeysApart(room.sourceMode, obs) {
      BatchBoard(c, room, obs, expected);
      TableRepeats(c, room, board, obs, after);
    }
    if NoRepeat(board) && NamesNoPlaceholder(c, obs) {
      BatchWithoutPlaceholders(c, room, obs, expected);
    }
  }

  lemma TableRepeats(c: Config, room: Room, board: Board, obs: seq<Observation>, after: Board)
    requires ValidConfig(c) && |after| == Reach(c, room, obs, |board|) && Gapless(after)
    requires forall o :: o in after ==> o >= 1 && PlayerAfter(c, room, board, obs, o) == Some(after[o].player)
    ensures NoRepeat(after) <==> PlayersDiffer(c, room, board, obs)
  {
    hide Reach, PlayerAfter;
    if NoRepeat(after) {
      forall a: nat, b: nat | 1 <= a < b <= |after|
        ensures PlayerAfter(c, room, board, obs, a) != PlayerAfter(c, room, board, obs, b)
      {
        assert a in after && b in after;
      }
    }
    if PlayersDiffer(c, room, board, obs) {
      forall a, b | a in after && b in after && a != b ensures after[a].player != after[b].player {
        assert PlayerAfter(c, room, board, obs, a) != PlayerAfter(c, room, board, obs, b);
      }
    }
  }
}
