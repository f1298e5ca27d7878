/**
  Reconciliation with a provider: the board carried along is the replay of the log, no pick is
  ever dropped, and a second run on the same batch changes nothing.
*/
module Reconciling {
  import opened Sorting
  import opened Wrappers
  import opened DraftLog
  import opened DraftRoom
  import opened DraftLaws

  // ---------------------------------------------------------------- one observation

  lemma {:induction false} FindLocal(conflicts: seq<Conflict>, o: Observation, i: nat, row: Conflict)
    requires i < |conflicts| && row.incoming == conflicts[i].incoming
    ensures FindConflict(conflicts[i := row], o) == FindConflict(conflicts, o)
  {
    var n := |conflicts| - 1;
    if i < n {
      assert conflicts[i := row][..n] == conflicts[..n][i := row];
      FindLocal(conflicts[..n], o, i, row);
    } else {
      assert conflicts[i := row][..n] == conflicts[..n];
    }
  }

  lemma FindAppended(conflicts: seq<Conflict>, o: Observation, row: Conflict)
    ensures FindConflict(conflicts + [row], o) ==
            if SameProvider(row.incoming, o) then Some(|conflicts|) else FindConflict(conflicts, o)
  {
    assert (conflicts + [row])[..|conflicts|] == conflicts;
  }

  lemma ProposeKeeps(c: Config, room: Room, o: Observation, canonical: Option<nat>)
    requires ValidConfig(c) && Sound(c, room) && o.overall >= 1
    ensures Sound(c, Propose(room, o, canonical)) && Propose(room, o, canonical).log == room.log
  {
    hide FindConflict, Replay, Gapless, Snaked, AllComplete;
  }

  lemma AutoResolveKeeps(c: Config, room: Room, o: Observation, eventId: nat)
    requires ValidConfig(c) && Sound(c, room)
    ensures Sound(c, AutoResolve(room, o, eventId)) && AutoResolve(room, o, eventId).log == room.log
  {
    hide FindConflict, Replay, Gapless, Snaked, AllComplete;
  }

  /** The observation's player takes the pick it names, and no other pick moves. */
  ghost predicate Takes(before: Board, after: Board, o: nat, player: nat) {
    && o in after && after[o].player == player
    && after == before[o := after[o]]
  }

  lemma ConfirmKeeps(c: Config, room: Room, o: Observation)
    requires ValidConfig(c) && Sound(c, room) && o.overall >= 1
    requires Judge(c, room, Replay(room.log), o).Confirms?
    ensures
      var s := ReconcileOne(c, room, Replay(room.log), o);
      && Sound(c, s.room) && Grows(room, s.room) && s.board == Replay(s.room.log) == Replay(room.log)
      && FindKey(s.room.log, ObservationKey(room.sourceMode, o)).Some?
      && s.room.conflicts == room.conflicts
  {
    hide Replay;
    var board := Replay(room.log);
    var e := ProviderEvent(c, room, ProviderConfirmed, o, board[o.overall].teamSlot, PlayerFor(c, o).value, None);
    AppendNote(room, e);
    AppendFinds(room, e, e.key);
  }

  lemma ApplyKeeps(c: Config, room: Room, o: Observation, e: Event)
    requires ValidConfig(c) && Sound(c, room) && o.overall >= 1
    requires FindKey(room.log, e.key).None?
    requires e.kind == PickRecorded || e.kind == PickReplaced
    requires e.kind == PickRecorded ==> o.overall == |Replay(room.log)| + 1
    requires e.kind == PickReplaced ==> o.overall in Replay(room.log)
    requires e.id == room.nextEventId && e.sequence == room.currentSequence + 1
    requires e.overall == Some(o.overall) && e.round == Some(SnakeRound(o.overall, c.teamCount))
    requires e.teamSlot == Some(SnakeSlot(o.overall, c.teamCount)) && e.player.Some? && e.player.value in c.players
    ensures
      var later := AutoResolve(Append(room, e), o, e.id);
      && Sound(c, later) && Grows(room, later)
      && Replay(later.log) == Replay(room.log)[o.overall := PickOf(o.overall, e)]
      && FindKey(later.log, e.key).Some?
  {
    var board, p := Replay(room.log), PickOf(o.overall, e);
    AppendPickEvent(room, e);
    if e.kind == PickRecorded {
      ExtendsBoard(c, board, p);
    } else {
      ReplacesOnBoard(c, board, p);
    }
    AppendFinds(room, e, e.key);
    AutoResolveKeeps(c, Append(room, e), o, e.id);
  }

  /** One observation: the board carried along stays the replay, and at most its own pick changes. */
  lemma ReconcileOneKeeps(c: Config, room: Room, o: Observation)
    requires ValidConfig(c) && Sound(c, room) && o.overall >= 1
    ensures
      var s := ReconcileOne(c, room, Replay(room.log), o);
      && Sound(c, s.room) && Grows(room, s.room) && s.board == Replay(s.room.log)
      && s.room.status == room.status && s.room.sourceMode == room.sourceMode
      && (if s.applied.Some? then PlayerFor(c, o).Some? && Takes(Replay(room.log), s.board, o.overall, PlayerFor(c, o).value)
          else s.board == Replay(room.log))
      && (s.applied.Some? ==> o.overall <= TotalPicks(c))
  {
    hide Replay, FindKey, FindConflict, Sound, Grows, MatchesPlaceholder;
    var board := Replay(room.log);
    match Judge(c, room, board, o)
    case Proposed =>
      var canonical := if o.overall <= TotalPicks(c) && o.overall in board then Some(board[o.overall].event.id) else None;
      ProposeKeeps(c, room, o, canonical);
      SameLogGrows(room, Propose(room, o, canonical));
    case AlreadyConfirmed =>
      SameLogGrows(room, room);
    case Confirms =>
      ConfirmKeeps(c, room, o);
    case Upgrades =>
      var e := ProviderEvent(c, room, PickReplaced, o, o.teamSlot, PlayerFor(c, o).value, Some(board[o.overall].event.id));
      ApplyKeeps(c, room, o, e);
    case Records =>
      var e := ProviderEvent(c, room, PickRecorded, o, o.teamSlot, PlayerFor(c, o).value, None);
      ApplyKeeps(c, room, o, e);
  }

  lemma SameLogGrows(room: Room, later: Room)
    requires later.log == room.log
    ensures Grows(room, later)
  {
  }

  // ---------------------------------------------------------------- the whole batch

  ghost predicate Positive(obs: seq<Observation>) {
    forall i :: 0 <= i < |obs| ==> obs[i].overall >= 1
  }

  ghost predicate KeepsPicks(before: Board, after: Board) {
    forall o :: o in before ==> o in after
  }

  /** At every point of a batch the carried board is the replay of the whole log so far. */
  lemma {:induction false} CarriedBoardIsReplay(c: Config, room: Room, obs: seq<Observation>)
    requires ValidConfig(c) && Sound(c, room) && Positive(obs)
    ensures
      var p := ReconcileAll(c, room, Replay(room.log), obs);
      && Sound(c, p.room) && Grows(room, p.room)
      && p.board == Replay(p.room.log) && KeepsPicks(Replay(room.log), p.board)
      && p.room.status == room.status && p.room.sourceMode == room.sourceMode
      && (|Replay(room.log)| <= TotalPicks(c) ==> |p.board| <= TotalPicks(c))
  {
    hide Replay, FindKey, Sound, Grows, ReconcileOne;
    var board := Replay(room.log);
    if |obs| == 0 {
      SameLogGrows(room, room);
    } else {
      var front, o := obs[..|obs| - 1], obs[|obs| - 1];
      CarriedBoardIsReplay(c, room, front);
      var p := ReconcileAll(c, room, board, front);
      ReconcileOneKeeps(c, p.room, o);
      GrowsOn(room, p.room, ReconcileOne(c, p.room, p.board, o).room);
      SoundBound(c, ReconcileOne(c, p.room, p.board, o).room);
      SoundBound(c, p.room);
    }
  }

  lemma SoundBound(c: Config, room: Room)
    requires ValidConfig(c) && Sound(c, room)
    ensures Gapless(Replay(room.log)) && Snaked(c, Replay(room.log))
  {
  }

  lemma SortedIsPositive(obs: seq<Observation>)
    requires Positive(obs)
    ensures Positive(SortObservations(obs))
  {
    var sorted := SortObservations(obs);
    forall i | 0 <= i < |sorted| ensures sorted[i].overall >= 1 {
      assert sorted[i] in obs;
    }
  }

  lemma CloseIfFullKeeps(c: Config, p: Pass)
    requires ValidConfig(c) && Sound(c, p.room) && p.board == Replay(p.room.log)
    requires CloseIfFull(c, p).Accepted?
    ensures
      var r := CloseIfFull(c, p).room;
      && Sound(c, r) && Grows(p.room, r) && Replay(r.log) == p.board
      && r.conflicts == p.room.conflicts && r.sourceMode == p.room.sourceMode
  {
    if p.lastApplied.Some? && |p.board| == TotalPicks(c) && p.room.status == Live {
      AppendNote(p.room, Note(p.room, SessionCompleted, "yahoo-auto-complete:" + Digits(p.lastApplied.value)));
    }
  }

  /** A batch keeps the room sound, keeps every active overall, and stays within the draft. */
  lemma ReconcileKeeps(c: Config, room: Room, obs: seq<Observation>, expected: nat)
    requires ValidConfig(c) && Sound(c, room) && Positive(obs)
    requires Reconcile(c, room, obs, expected).Accepted?
    ensures
      var r := Reconcile(c, room, obs, expected).room;
      && Sound(c, r) && Grows(room, r) && expected == room.currentSequence
      && KeepsPicks(Replay(room.log), Replay(r.log))
      && (|Replay(room.log)| <= TotalPicks(c) ==> |Replay(r.log)| <= TotalPicks(c))
  {
    hide Replay, FindKey, Sound, Grows, ReconcileAll, CloseIfFull;
    SortedIsPositive(obs);
    var sorted := SortObservations(obs);
    CarriedBoardIsReplay(c, room, sorted);
    var p := ReconcileAll(c, room, Replay(room.log), sorted);
    CloseIfFullKeeps(c, p);
    GrowsOn(room, p.room, CloseIfFull(c, p).room);
  }

  // ---------------------------------------------------------------- running a batch twice

  /** The observation has nothing left to do: it is confirmed, or it has a row that stays as it is. */
  ghost predicate Quiet(c: Config, room: Room, board: Board, o: Observation)
    requires ValidConfig(c) && o.overall >= 1
  {
    || Judge(c, room, board, o).AlreadyConfirmed?
    || (&& Judge(c, room, board, o).Proposed?
        && FindConflict(room.conflicts, o).Some?
        && !Reopens(room.conflicts[FindConflict(room.conflicts, o).value]))
  }

  lemma QuietDoesNothing(c: Config, room: Room, board: Board, o: Observation)
    requires ValidConfig(c) && o.overall >= 1 && Quiet(c, room, board, o)
    ensures ReconcileOne(c, room, board, o) == Step(room, board, None)
  {
  }

  /** A quiet observation stays quiet while its own pick and row are left alone and no gap closes before it. */
  lemma QuietStays(c: Config, room: Room, board: Board, later: Room, board': Board, o: Observation)
    requires ValidConfig(c) && o.overall >= 1 && Quiet(c, room, board, o)
    requires later.sourceMode == room.sourceMode
    requires FindKey(room.log, ObservationKey(room.sourceMode, o)).Some? ==>
               FindKey(later.log, ObservationKey(room.sourceMode, o)).Some?
    requires o.overall in board <==> o.overall in board'
    requires o.overall in board ==> board[o.overall] == board'[o.overall]
    requires o.overall !in board ==> |board'| == |board| || o.overall != |board'| + 1
    requires FindConflict(room.conflicts, o).Some? ==>
               && FindConflict(later.conflicts, o) == FindConflict(room.conflicts, o)
               && later.conflicts[FindConflict(later.conflicts, o).value] == room.conflicts[FindConflict(room.conflicts, o).value]
    ensures Quiet(c, later, board', o)
  {
    hide FindKey, FindConflict, MatchesPlaceholder, SnakeSlot;
  }

  lemma ProposeSettles(room: Room, o: Observation, canonical: Option<nat>)
    ensures
      var later := Propose(room, o, canonical);
      && FindConflict(later.conflicts, o).Some?
      && !Reopens(later.conflicts[FindConflict(later.conflicts, o).value])
      && later.log == room.log && later.sourceMode == room.sourceMode
  {
    match FindConflict(room.conflicts, o)
    case None =>
      FindAppended(room.conflicts, o,
        Conflict(|room.conflicts|, Unresolved, canonical, o, room.currentSequence, None, []));
    case Some(i) =>
      FindLocal(room.conflicts, o, i, room.conflicts[i].(status := Unresolved, canonicalEvent := canonical,
          detected := room.currentSequence, action := None, resolving := []));
  }

  /** An observation is quiet right after its turn. */
  lemma StepSettles(c: Config, room: Room, o: Observation)
    requires ValidConfig(c) && Sound(c, room) && o.overall >= 1
    ensures
      var s := ReconcileOne(c, room, Replay(room.log), o);
      Quiet(c, s.room, s.board, o)
  {
    hide Replay, FindKey, FindConflict, Sound, Grows, MatchesPlaceholder, SnakeSlot;
    var board := Replay(room.log);
    match Judge(c, room, board, o)
    case Proposed =>
      var canonical := if o.overall <= TotalPicks(c) && o.overall in board then Some(board[o.overall].event.id) else None;
      ProposeSettles(room, o, canonical);
    case AlreadyConfirmed =>
    case Confirms =>
      ConfirmKeeps(c, room, o);
    case Upgrades =>
      var e := ProviderEvent(c, room, PickReplaced, o, o.teamSlot, PlayerFor(c, o).value, Some(board[o.overall].event.id));
      ApplyKeeps(c, room, o, e);
    case Records =>
      var e := ProviderEvent(c, room, PickRecorded, o, o.teamSlot, PlayerFor(c, o).value, None);
      ApplyKeeps(c, room, o, e);
  }

  /** The row of one observation is left alone by an observation of another provider entry. */
  ghost predicate SameRow(conflicts: seq<Conflict>, later: seq<Conflict>, o: Observation) {
    FindConflict(conflicts, o).Some? ==>
      && FindConflict(later, o) == FindConflict(conflicts, o)
      && later[FindConflict(later, o).value] == conflicts[FindConflict(conflicts, o).value]
  }

  lemma ProposeKeepsRow(room: Room, x: Observation, canonical: Option<nat>, o: Observation)
    requires x.providerKey != o.providerKey
    ensures SameRow(room.conflicts, Propose(room, x, canonical).conflicts, o)
  {
    match FindConflict(room.conflicts, x)
    case None =>
      FindAppended(room.conflicts, o,
        Conflict(|room.conflicts|, Unresolved, canonical, x, room.currentSequence, None, []));
    case Some(i) =>
      FindLocal(room.conflicts, o, i, room.conflicts[i].(status := Unresolved, canonicalEvent := canonical,
          detected := room.currentSequence, action := None, resolving := []));
  }

  lemma AutoResolveKeepsRow(room: Room, x: Observation, eventId: nat, o: Observation)
    requires x.providerKey != o.providerKey
    ensures SameRow(room.conflicts, AutoResolve(room, x, eventId).conflicts, o)
  {
    match FindConflict(room.conflicts, x)
    case None =>
    case Some(i) =>
      FindLocal(room.conflicts, o, i,
        room.conflicts[i].(status := Resolved, action := Some(AutoApplied), resolving := [eventId]));
  }

  lemma StepKeepsRow(c: Config, room: Room, board: Board, x: Observation, o: Observation)
    requires ValidConfig(c) && x.overall >= 1 && x.providerKey != o.providerKey
    ensures SameRow(room.conflicts, ReconcileOne(c, room, board, x).room.conflicts, o)
  {
    hide FindConflict, FindKey, Propose, AutoResolve, MatchesPlaceholder, SnakeSlot;
    match Judge(c, room, board, x)
    case Proposed =>
      var canonical := if x.overall <= TotalPicks(c) && x.overall in board then Some(board[x.overall].event.id) else None;
      ProposeKeepsRow(room, x, canonical, o);
    case AlreadyConfirmed =>
    case Confirms =>
    case Upgrades =>
      var e := ProviderEvent(c, room, PickReplaced, x, x.teamSlot, PlayerFor(c, x).value, Some(board[x.overall].event.id));
      AutoResolveKeepsRow(Append(room, e), x, e.id, o);
    case Records =>
      var e := ProviderEvent(c, room, PickRecorded, x, x.teamSlot, PlayerFor(c, x).value, None);
      AutoResolveKeepsRow(Append(room, e), x, e.id, o);
  }

  /** A later turn of another pick and another provider entry leaves it quiet. */
  lemma StepKeepsQuiet(c: Config, room: Room, x: Observation, o: Observation)
    requires ValidConfig(c) && Sound(c, room) && x.overall >= 1 && o.overall >= 1
    requires Quiet(c, room, Replay(room.log), o)
    requires o.overall < x.overall && x.providerKey != o.providerKey
    ensures
      var s := ReconcileOne(c, room, Replay(room.log), x);
      Quiet(c, s.room, s.board, o)
  {
    hide Replay, FindKey, FindConflict, Grows, InOrder, Snaked, ReconcileOne, Quiet;
    var board := Replay(room.log);
    var s := ReconcileOne(c, room, board, x);
    ReconcileOneKeeps(c, room, x);
    StepKeepsRow(c, room, board, x, o);
    var key := ObservationKey(room.sourceMode, o);
    if FindKey(room.log, key).Some? {
      InOrderIsKept(c, s.room);
      KeyStays(room, s.room, key);
    }
    QuietStays(c, room, board, s.room, s.board, o);
  }

  lemma InOrderIsKept(c: Config, room: Room)
    requires ValidConfig(c) && Sound(c, room)
    ensures WellKept(room.log)
  {
  }

  /** Rising overalls, no provider entry twice. */
  ghost predicate Rising(obs: seq<Observation>) {
    forall i, j :: 0 <= i < j < |obs| ==> obs[i].overall < obs[j].overall && obs[i].providerKey != obs[j].providerKey
  }

  ghost predicate AllQuiet(c: Config, room: Room, obs: seq<Observation>)
    requires ValidConfig(c) && Positive(obs)
  {
    forall i :: 0 <= i < |obs| ==> Quiet(c, room, Replay(room.log), obs[i])
  }

  /** After a pass over a rising batch every observation is quiet. */
  lemma {:induction false} PassSettles(c: Config, room: Room, obs: seq<Observation>)
    requires ValidConfig(c) && Sound(c, room) && Positive(obs) && Rising(obs)
    ensures AllQuiet(c, ReconcileAll(c, room, Replay(room.log), obs).room, obs)
  {
    hide Replay, Quiet, Sound, Grows, ReconcileOne;
    if |obs| > 0 {
      var front, x := obs[..|obs| - 1], obs[|obs| - 1];
      var p := ReconcileAll(c, room, Replay(room.log), front);
      CarriedBoardIsReplay(c, room, front);
      CarriedBoardIsReplay(c, room, obs);
      PassSettles(c, room, front);
      StepSettles(c, p.room, x);
      forall i | 0 <= i < |obs|
        ensures Quiet(c, ReconcileAll(c, room, Replay(room.log), obs).room,
                      ReconcileAll(c, room, Replay(room.log), obs).board, obs[i])
      {
        if i < |front| {
          assert obs[i] == front[i];
          StepKeepsQuiet(c, p.room, x, obs[i]);
        }
      }
    }
  }

  lemma {:induction false} QuietPass(c: Config, room: Room, obs: seq<Observation>)
    requires ValidConfig(c) && Positive(obs) && AllQuiet(c, room, obs)
    ensures ReconcileAll(c, room, Replay(room.log), obs) == Pass(room, Replay(room.log), None)
  {
    hide Replay, Quiet, ReconcileOne;
    if |obs| > 0 {
      QuietPass(c, room, obs[..|obs| - 1]);
      QuietDoesNothing(c, room, Replay(room.log), obs[|obs| - 1]);
    }
  }

  lemma CloseKeepsQuiet(c: Config, p: Pass, obs: seq<Observation>)
    requires ValidConfig(c) && Sound(c, p.room) && p.board == Replay(p.room.log) && Positive(obs)
    requires AllQuiet(c, p.room, obs) && CloseIfFull(c, p).Accepted?
    ensures AllQuiet(c, CloseIfFull(c, p).room, obs)
  {
    hide Replay, FindKey, FindConflict, Grows, Quiet, Sound, CloseIfFull;
    var later := CloseIfFull(c, p).room;
    CloseIfFullKeeps(c, p);
    InOrderIsKept(c, later);
    forall i | 0 <= i < |obs| ensures Quiet(c, later, Replay(later.log), obs[i]) {
      var key := ObservationKey(p.room.sourceMode, obs[i]);
      if FindKey(p.room.log, key).Some? {
        KeyStays(p.room, later, key);
      }
      QuietStays(c, p.room, p.board, later, p.board, obs[i]);
    }
  }

  // ---------------------------------------------------------------- sorting the batch

  ghost predicate Apart(x: Observation, y: Observation) {
    x.overall != y.overall && x.providerKey != y.providerKey
  }

  /** No overall and no provider entry twice. */
  ghost predicate Distinct(obs: seq<Observation>) {
    forall i, j :: 0 <= i < j < |obs| ==> Apart(obs[i], obs[j])
  }

  /**
    The sorted batch lists the entries of the batch, each once, by overall, and those of one overall in the
    order in which they came.
  */
  lemma SortIsStable(obs: seq<Observation>) returns (places: seq<nat>)
    ensures |places| == |obs| == |SortObservations(obs)|
    ensures forall i :: 0 <= i < |places| ==> places[i] < |obs| && SortObservations(obs)[i] == obs[places[i]]
    ensures forall i, j :: 0 <= i < j < |places| ==>
              && places[i] != places[j]
              && (if obs[places[i]].overall == obs[places[j]].overall then places[i] < places[j]
                  else obs[places[i]].overall < obs[places[j]].overall)
  {
    places := SortIsSorted(obs, EarlierPick);
    var sorted := SortObservations(obs);
    forall i, j | 0 <= i < j < |places|
      ensures places[i] != places[j]
      ensures if sorted[i].overall == sorted[j].overall then places[i] < places[j]
              else sorted[i].overall < sorted[j].overall
    {
      assert InTurn(sorted, places, i, j, EarlierPick);
    }
  }

  /** Without ties the sorted batch rises strictly. */
  lemma SortRises(obs: seq<Observation>)
    requires Distinct(obs)
    ensures Rising(SortObservations(obs))
  {
    hide SortObservations;
    var sorted := SortObservations(obs);
    var places := SortIsStable(obs);
    forall i, j | 0 <= i < j < |sorted|
      ensures sorted[i].overall < sorted[j].overall && sorted[i].providerKey != sorted[j].providerKey
    {
      var a, b := places[i], places[j];
      assert if a < b then Apart(obs[a], obs[b]) else Apart(obs[b], obs[a]);
    }
  }

  /** A second run of the same batch appends no event, moves no pick and touches no row, in any source mode. */
  lemma SecondRunChangesNothing(c: Config, room: Room, obs: seq<Observation>, expected: nat)
    requires ValidConfig(c) && Sound(c, room) && Positive(obs) && Distinct(obs)
    requires Reconcile(c, room, obs, expected).Accepted?
    ensures
      var once := Reconcile(c, room, obs, expected).room;
      Reconcile(c, once, obs, once.currentSequence) == Accepted(once)
  {
    hide Replay, Sound, AllQuiet, ReconcileAll, SortObservations;
    var sorted := SortObservations(obs);
    SortedIsPositive(obs);
    SortRises(obs);
    CarriedBoardIsReplay(c, room, sorted);
    PassSettles(c, room, sorted);
    var p := ReconcileAll(c, room, Replay(room.log), sorted);
    CloseKeepsQuiet(c, p, sorted);
    var once := CloseIfFull(c, p).room;
    QuietPass(c, once, sorted);
  }
}
