/**
  What every request keeps: the log stays in order, the board stays a gapless snake, and the
  board follows the log.
*/
module DraftLaws {
  import opened Wrappers
  import opened DraftLog
  import opened DraftRoom

  // ---------------------------------------------------------------- the invariant

  ghost predicate AllComplete(active: map<nat, Event>) {
    forall o :: o in active ==> Complete(active[o])
  }

  /** Sequences and event numbers count up, keys never repeat, and every active pick is complete. */
  ghost predicate InOrder(room: Room) {
    && room.currentSequence == |room.log|
    && WellKept(room.log)
    && (forall i :: 0 <= i < |room.log| ==> room.log[i].id < room.nextEventId)
    && AllComplete(Active(room.log))
  }

  /** Active picks occupy the overalls from one on, without a gap. */
  ghost predicate Gapless(board: Board) {
    forall o :: o in board <==> 1 <= o <= |board|
  }

  /** Each pick has the round and slot of the snake and a player of the league. */
  ghost predicate Snaked(c: Config, board: Board)
    requires ValidConfig(c)
  {
    forall o :: o in board ==>
      && o >= 1 && board[o].overall == o
      && board[o].round == SnakeRound(o, c.teamCount)
      && board[o].teamSlot == SnakeSlot(o, c.teamCount)
      && board[o].player in c.players
  }

  ghost predicate RowsSound(conflicts: seq<Conflict>) {
    forall i :: 0 <= i < |conflicts| ==> conflicts[i].id == i && conflicts[i].incoming.overall >= 1
  }

  ghost predicate Sound(c: Config, room: Room)
    requires ValidConfig(c)
  {
    && InOrder(room)
    && Gapless(Replay(room.log))
    && Snaked(c, Replay(room.log))
    && RowsSound(room.conflicts)
  }

  // ---------------------------------------------------------------- boards

  lemma {:induction false} IntervalSize(n: nat, s: set<nat>)
    requires forall o :: o in s <==> 1 <= o <= n
    ensures |s| == n
  {
    if n > 0 {
      assert forall o :: o in s - {n} <==> 1 <= o <= n - 1;
      IntervalSize(n - 1, s - {n});
    } else {
      assert s == {};
    }
  }

  lemma GaplessWith(board: Board, n: nat)
    requires forall o :: o in board <==> 1 <= o <= n
    ensures |board| == n && Gapless(board)
  {
    assert forall o :: o in board.Keys <==> o in board;
    IntervalSize(n, board.Keys);
  }

  /** The next overall extends the board by one. */
  lemma ExtendsBoard(c: Config, board: Board, p: Pick)
    requires ValidConfig(c) && Gapless(board) && Snaked(c, board)
    requires p.overall == |board| + 1 && p.player in c.players
    requires p.round == SnakeRound(p.overall, c.teamCount) && p.teamSlot == SnakeSlot(p.overall, c.teamCount)
    ensures Gapless(board[p.overall := p]) && Snaked(c, board[p.overall := p])
    ensures |board[p.overall := p]| == |board| + 1
  {
    var b := board[p.overall := p];
    assert forall o :: o in b <==> o in board || o == p.overall;
    GaplessWith(b, |board| + 1);
  }

  /** A replacement keeps the shape of the board. */
  lemma ReplacesOnBoard(c: Config, board: Board, p: Pick)
    requires ValidConfig(c) && Gapless(board) && Snaked(c, board)
    requires p.overall in board && p.player in c.players
    requires p.round == SnakeRound(p.overall, c.teamCount) && p.teamSlot == SnakeSlot(p.overall, c.teamCount)
    ensures Gapless(board[p.overall := p]) && Snaked(c, board[p.overall := p])
    ensures |board[p.overall := p]| == |board|
  {
    var b := board[p.overall := p];
    assert forall o :: o in b <==> o in board;
    GaplessWith(b, |board|);
  }

  /** Undoing the last pick shortens the board by one. */
  lemma ShrinksBoard(c: Config, board: Board)
    requires ValidConfig(c) && Gapless(board) && Snaked(c, board) && |board| > 0
    ensures Gapless(board - {|board|}) && Snaked(c, board - {|board|})
    ensures |board - {|board|}| == |board| - 1
  {
    GaplessWith(board - {|board|}, |board| - 1);
  }

  // ---------------------------------------------------------------- one more event

  /** Any event with a new key, numbered as the next one, that is complete if it is a pick. */
  lemma AppendInOrder(room: Room, e: Event)
    requires InOrder(room)
    requires e.id == room.nextEventId && e.sequence == room.currentSequence + 1
    requires FindKey(room.log, e.key).None?
    requires (e.kind == PickRecorded || e.kind == PickReplaced) && e.overall.Some? ==> Complete(e)
    ensures InOrder(Append(room, e))
  {
    ActiveSnoc(room.log, e);
  }

  lemma AppendPickEvent(room: Room, e: Event)
    requires InOrder(room)
    requires e.id == room.nextEventId && e.sequence == room.currentSequence + 1
    requires FindKey(room.log, e.key).None?
    requires e.kind == PickRecorded || e.kind == PickReplaced
    requires e.overall.Some? && Complete(e)
    ensures InOrder(Append(room, e))
    ensures Replay(Append(room, e).log) == Replay(room.log)[e.overall.value := PickOf(e.overall.value, e)]
  {
    AppendInOrder(room, e);
    ReplayTakes(room.log, e);
  }

  lemma AppendReversal(room: Room, e: Event, o: nat)
    requires InOrder(room)
    requires e.id == room.nextEventId && e.sequence == room.currentSequence + 1
    requires FindKey(room.log, e.key).None?
    requires e.kind == PickReversed
    requires o in Replay(room.log) && e.supersedes == Some(Replay(room.log)[o].event.id)
    ensures InOrder(Append(room, e))
    ensures Replay(Append(room, e).log) == Replay(room.log) - {o}
  {
    AppendInOrder(room, e);
    ReplayClears(room.log, e, o);
  }

  lemma AppendNote(room: Room, e: Event)
    requires InOrder(room)
    requires e.id == room.nextEventId && e.sequence == room.currentSequence + 1
    requires FindKey(room.log, e.key).None?
    requires e.kind != PickRecorded && e.kind != PickReversed && e.kind != PickReplaced
    ensures InOrder(Append(room, e))
    ensures Replay(Append(room, e).log) == Replay(room.log)
  {
    AppendInOrder(room, e);
    ReplayIgnores(room.log, e);
  }

  /** A reversal and a replacement of the same pick, in two events. */
  lemma AppendSwap(room: Room, e1: Event, e2: Event, o: nat)
    requires InOrder(room)
    requires e1.id == room.nextEventId && e1.sequence == room.currentSequence + 1
    requires e2.id == room.nextEventId + 1 && e2.sequence == room.currentSequence + 2
    requires FindKey(room.log, e1.key).None? && FindKey(room.log, e2.key).None? && e1.key != e2.key
    requires e1.kind == PickReversed && e2.kind == PickReplaced
    requires o in Replay(room.log) && e1.supersedes == Some(Replay(room.log)[o].event.id)
    requires e2.overall == Some(o) && Complete(e2)
    ensures InOrder(Append(Append(room, e1), e2))
    ensures Replay(Append(Append(room, e1), e2).log) == Replay(room.log)[o := PickOf(o, e2)]
  {
    AppendReversal(room, e1, o);
    AppendFinds(room, e1, e2.key);
    AppendPickEvent(Append(room, e1), e2);
    assert (Replay(room.log) - {o})[o := PickOf(o, e2)] == Replay(room.log)[o := PickOf(o, e2)];
  }

  lemma AppendFinds(room: Room, e: Event, key: string)
    ensures FindKey(Append(room, e).log, key) == if e.key == key then Some(e) else FindKey(room.log, key)
  {
    assert (room.log + [e])[..|room.log|] == room.log;
  }

  // ---------------------------------------------------------------- the log only grows

  ghost predicate Grows(room: Room, later: Room) {
    && |room.log| <= |later.log|
    && later.log[..|room.log|] == room.log
  }

  lemma {:induction false} FindKeyIs(log: Log, key: string, i: nat)
    requires WellKept(log) && i < |log| && log[i].key == key
    ensures FindKey(log, key) == Some(log[i])
  {
    if i < |log| - 1 {
      assert log[|log| - 1].key != log[i].key;
      FindKeyIs(log[..|log| - 1], key, i);
    }
  }

  /** A key found once names the same event in every later log. */
  lemma KeyStays(room: Room, later: Room, key: string)
    requires Grows(room, later) && WellKept(later.log)
    requires FindKey(room.log, key).Some?
    ensures FindKey(later.log, key) == FindKey(room.log, key)
  {
    var e := FindKey(room.log, key).value;
    var i :| 0 <= i < |room.log| && room.log[i] == e;
    assert later.log[i] == later.log[..|room.log|][i];
    FindKeyIs(later.log, key, i);
  }

  lemma GrowsOn(a: Room, b: Room, d: Room)
    requires Grows(a, b) && Grows(b, d)
    ensures Grows(a, d)
  {
    assert d.log[..|a.log|] == d.log[..|b.log|][..|a.log|];
  }

  // ---------------------------------------------------------------- recording and correcting

  /** No player holds two active picks. */
  ghost predicate NoRepeat(board: Board) {
    forall a, b :: a in board && b in board && a != b ==> board[a].player != board[b].player
  }

  /** What a good request does to a board. */
  ghost predicate PickOutcome(c: Config, before: Board, req: PickRequest, after: Board) {
    match req.kind
    case Record =>
      && |before| < TotalPicks(c)
      && req.player !in Drafted(before)
      && exists p: Pick :: p.player == req.player && p.overall == |before| + 1 && after == before[|before| + 1 := p]
    case Reverse =>
      && |before| in before && before[|before|].event.id == req.target
      && after == before - {|before|}
    case Replace =>
      exists o, p: Pick ::
        && o in before && before[o].event.id == req.target
        && req.player !in DraftedElsewhere(before, req.target)
        && p.player == req.player && after == before[o := p]
  }

  lemma FinishKeeps(c: Config, room: Room, key: string, event: Event)
    requires ValidConfig(c) && Sound(c, room)
    requires FindKey(room.log, key) == Some(event)
    requires Finish(c, room, key, event).Done?
    ensures
      var r := Finish(c, room, key, event);
      && r.event == event && Sound(c, r.room) && Grows(room, r.room)
      && Replay(r.room.log) == Replay(room.log)
      && FindKey(r.room.log, key) == Some(event)
  {
    if |Replay(room.log)| == TotalPicks(c) && room.status == Live {
      var note := Note(room, SessionCompleted, key + ":complete");
      AppendNote(room, note);
      AppendFinds(room, note, key);
    }
  }

  lemma RecordKeeps(c: Config, room: Room, req: PickRequest)
    requires ValidConfig(c) && Sound(c, room)
    requires req.kind.Record? && FindKey(room.log, req.key).None?
    requires RecordProblem(c, room, Replay(room.log), req).None?
    ensures
      var e := RecordEvent(c, room, Replay(room.log), req);
      && Sound(c, Append(room, e)) && FindKey(Append(room, e).log, req.key) == Some(e)
      && Grows(room, Append(room, e))
      && PickOutcome(c, Replay(room.log), req, Replay(Append(room, e).log))
  {
    var board := Replay(room.log);
    var e := RecordEvent(c, room, board, req);
    AppendPickEvent(room, e);
    ExtendsBoard(c, board, PickOf(|board| + 1, e));
    AppendFinds(room, e, req.key);
  }

  lemma ReverseKeeps(c: Config, room: Room, req: PickRequest)
    requires ValidConfig(c) && Sound(c, room)
    requires req.kind.Reverse? && FindKey(room.log, req.key).None?
    requires |Replay(room.log)| in Replay(room.log) && Replay(room.log)[|Replay(room.log)|].event.id == req.target
    ensures
      var board := Replay(room.log);
      var e := ReverseEvent(room, board[|board|], req.key);
      && Sound(c, Append(room, e)) && FindKey(Append(room, e).log, req.key) == Some(e)
      && Grows(room, Append(room, e))
      && PickOutcome(c, board, req, Replay(Append(room, e).log))
  {
    var board := Replay(room.log);
    var e := ReverseEvent(room, board[|board|], req.key);
    AppendReversal(room, e, |board|);
    ShrinksBoard(c, board);
    AppendFinds(room, e, req.key);
  }

  /** A reversal and a replacement of one pick, by a player of the league. */
  lemma SwapKeeps(c: Config, room: Room, o: nat, key: string, player: nat)
    requires ValidConfig(c) && Sound(c, room)
    requires o in Replay(room.log) && player in c.players
    requires FindKey(room.log, key).None? && FindKey(room.log, key + ":reverse").None?
    ensures
      var board := Replay(room.log);
      var room1 := Append(room, ReverseEvent(room, board[o], key + ":reverse"));
      var e := ReplaceEvent(room1, board[o], key, player);
      && Sound(c, Append(room1, e)) && FindKey(Append(room1, e).log, key) == Some(e)
      && Replay(Append(room1, e).log) == board[o := PickOf(o, e)]
      && |Replay(Append(room1, e).log)| == |board|
      && Grows(room, Append(room1, e))
  {
    var board := Replay(room.log);
    var e1 := ReverseEvent(room, board[o], key + ":reverse");
    var room1 := Append(room, e1);
    var e := ReplaceEvent(room1, board[o], key, player);
    AppendSwap(room, e1, e, o);
    ReplacesOnBoard(c, board, PickOf(o, e));
    AppendFinds(room1, e, key);
  }

  lemma SequenceIsLength(c: Config, room: Room, later: Room)
    requires ValidConfig(c) && Sound(c, room) && Sound(c, later)
    ensures room.currentSequence == |room.log| && later.currentSequence == |later.log|
    ensures Replay(room.log) == Replay(later.log) ==> |Replay(room.log)| == |Replay(later.log)|
  {
  }

  /** A pick request keeps the room sound and does to the board what it says. */
  lemma AppendPickKeeps(c: Config, room: Room, req: PickRequest)
    requires ValidConfig(c) && Sound(c, room)
    requires AppendPick(c, room, req).Done?
    ensures
      var r := AppendPick(c, room, req);
      && Sound(c, r.room) && Grows(room, r.room) && FindKey(r.room.log, req.key) == Some(r.event)
    ensures
      var r := AppendPick(c, room, req);
      if FindKey(room.log, req.key).Some? then r.room == room
      else req.expected == room.currentSequence < r.room.currentSequence
           && PickOutcome(c, Replay(room.log), req, Replay(r.room.log))
  {
    hide FindKey, Replay, Finish, Sound, PickOutcome;
    var board := Replay(room.log);
    if FindKey(room.log, req.key).None? && room.currentSequence == req.expected {
      if req.kind.Record? {
        RecordKeeps(c, room, req);
        var e := RecordEvent(c, room, board, req);
        FinishKeeps(c, Append(room, e), req.key, e);
        GrowsOn(room, Append(room, e), AppendPick(c, room, req).room);
        SequenceIsLength(c, room, AppendPick(c, room, req).room);
      } else {
        CorrectKeeps(c, room, req);
      }
    }
  }

  lemma CorrectKeeps(c: Config, room: Room, req: PickRequest)
    requires ValidConfig(c) && Sound(c, room)
    requires !req.kind.Record? && FindKey(room.log, req.key).None?
    requires CorrectPick(c, room, Replay(room.log), req).Done?
    ensures
      var r := CorrectPick(c, room, Replay(room.log), req);
      && Sound(c, r.room) && Grows(room, r.room) && FindKey(r.room.log, req.key) == Some(r.event)
      && room.currentSequence < r.room.currentSequence
      && PickOutcome(c, Replay(room.log), req, Replay(r.room.log))
  {
    hide FindKey, Replay, Finish, Sound, Grows, PickOutcome;
    var board := Replay(room.log);
    var o := ActiveTarget(board, req.target).value;
    TargetPlace(c, room, o);
    if req.kind.Reverse? {
      ReverseKeeps(c, room, req);
      var e := ReverseEvent(room, board[o], req.key);
      FinishKeeps(c, Append(room, e), req.key, e);
      GrowsOn(room, Append(room, e), CorrectPick(c, room, board, req).room);
    } else {
      ReplaceKeeps(c, room, o, req);
      var room1 := Append(room, ReverseEvent(room, board[o], req.key + ":reverse"));
      var e := ReplaceEvent(room1, board[o], req.key, req.player);
      FinishKeeps(c, Append(room1, e), req.key, e);
      GrowsOn(room, Append(room1, e), CorrectPick(c, room, board, req).room);
    }
    SequenceGrew(c, room, CorrectPick(c, room, board, req).room, req.key);
  }

  lemma TargetPlace(c: Config, room: Room, o: nat)
    requires ValidConfig(c) && Sound(c, room) && o in Replay(room.log)
    ensures Replay(room.log)[o].overall == o
  {
  }

  lemma ReplaceKeeps(c: Config, room: Room, o: nat, req: PickRequest)
    requires ValidConfig(c) && Sound(c, room)
    requires req.kind.Replace? && o in Replay(room.log) && Replay(room.log)[o].event.id == req.target
    requires req.player in c.players && req.player !in DraftedElsewhere(Replay(room.log), req.target)
    requires FindKey(room.log, req.key).None? && FindKey(room.log, req.key + ":reverse").None?
    ensures
      var board := Replay(room.log);
      var room1 := Append(room, ReverseEvent(room, board[o], req.key + ":reverse"));
      var e := ReplaceEvent(room1, board[o], req.key, req.player);
      && Sound(c, Append(room1, e)) && FindKey(Append(room1, e).log, req.key) == Some(e)
      && PickOutcome(c, board, req, Replay(Append(room1, e).log))
      && Grows(room, Append(room1, e))
  {
    hide FindKey, Replay, Sound, Grows;
    SwapKeeps(c, room, o, req.key, req.player);
  }

  /** A key that is new in a grown log came with a new event. */
  lemma SequenceGrew(c: Config, room: Room, later: Room, key: string)
    requires ValidConfig(c) && Sound(c, room) && Sound(c, later)
    requires Grows(room, later) && FindKey(room.log, key).None? && FindKey(later.log, key).Some?
    ensures room.currentSequence < later.currentSequence
  {
    assert later.log[..|later.log|] == later.log;
  }

  // ---------------------------------------------------------------- consequences for players and counts

  /** A player is drafted by one pick at most when picks come by request. */
  lemma OutcomeKeepsNoRepeat(c: Config, before: Board, req: PickRequest, after: Board)
    requires NoRepeat(before) && PickOutcome(c, before, req, after)
    requires forall a, b :: a in before && b in before && a != b ==> before[a].event.id != before[b].event.id
    ensures NoRepeat(after)
  {
    match req.kind
    case Record =>
      forall a, b | a in after && b in after && a != b ensures after[a].player != after[b].player {
        assert a in before ==> before[a].player in Drafted(before);
        assert b in before ==> before[b].player in Drafted(before);
      }
    case Reverse =>
    case Replace =>
      var o, p: Pick :| o in before && before[o].event.id == req.target
        && req.player !in DraftedElsewhere(before, req.target)
        && p.player == req.player && after == before[o := p];
      forall a, b | a in after && b in after && a != b ensures after[a].player != after[b].player {
        assert a in before && a != o ==> before[a].player in DraftedElsewhere(before, req.target);
        assert b in before && b != o ==> before[b].player in DraftedElsewhere(before, req.target);
      }
  }

  /** Two picks on the board come from two events. */
  lemma BoardEventsDiffer(room: Room, a: nat, b: nat)
    requires InOrder(room) && a in Replay(room.log) && b in Replay(room.log) && a != b
    ensures Replay(room.log)[a].event.id != Replay(room.log)[b].event.id
  {
    var i := ActiveOrigin(room.log, a);
    var j := ActiveOrigin(room.log, b);
  }

  /** The board never outgrows the draft by requests. */
  lemma OutcomeKeepsBound(c: Config, before: Board, req: PickRequest, after: Board)
    requires Gapless(before) && |before| <= TotalPicks(c) && PickOutcome(c, before, req, after)
    ensures |after| <= TotalPicks(c)
  {
  }

  // ---------------------------------------------------------------- session actions

  lemma TransitionKeeps(c: Config, room: Room, req: ActionRequest, ready: bool)
    requires ValidConfig(c) && Sound(c, room)
    requires Transition(c, room, req, ready).Done?
    ensures
      var r := Transition(c, room, req, ready);
      && Sound(c, r.room) && Grows(room, r.room) && FindKey(r.room.log, req.key) == Some(r.event)
      && Replay(r.room.log) == Replay(room.log)
      && if FindKey(room.log, req.key).Some? then r.room == room
         else req.expected == room.currentSequence < r.room.currentSequence
  {
    if FindKey(room.log, req.key).None? {
      var e := Note(room, KindOf(req.action), req.key);
      AppendNote(room, e);
      AppendFinds(room, e, req.key);
    }
  }

  lemma ChangeModeKeeps(c: Config, room: Room, mode: SourceMode, expected: nat, cleared: bool)
    requires ValidConfig(c) && Sound(c, room)
    requires ChangeMode(c, room, mode, expected, cleared).Accepted?
    ensures
      var r := ChangeMode(c, room, mode, expected, cleared);
      && Sound(c, r.room) && Grows(room, r.room) && Replay(r.room.log) == Replay(room.log)
      && expected == room.currentSequence < r.room.currentSequence
  {
    hide Replay, FindKey, Digits, ModeName;
    AppendNote(room, Note(room, SourceModeChanged, "source-mode:" + Digits(room.currentSequence + 1) + ":" + ModeName(mode)));
  }
}
