/**
  Whole runs of a draft: what every sequence of requests keeps, which requests can win, and what
  a request that is sent again gets back.
*/
module DraftRuns {
  import opened Wrappers
  import opened DraftLog
  import opened DraftRoom
  import opened DraftLaws
  import opened Reconciling

  // ---------------------------------------------------------------- conflict resolution

  /** The row is open, its pick is accepted and lies just past the end of a full board. */
  ghost predicate Overflows(c: Config, room: Room, id: nat, r: Resolution)
    requires id < |room.conflicts|
  {
    && room.conflicts[id].status == Unresolved
    && (r.action == AcceptIncoming || r.action == MapPlayerAndAccept)
    && room.conflicts[id].incoming.overall == TotalPicks(c) + 1
    && |Replay(room.log)| == TotalPicks(c)
  }

  lemma CloseRowKeeps(c: Config, room: Room, id: nat, action: ConflictAction, status: ConflictStatus, events: seq<nat>)
    requires ValidConfig(c) && Sound(c, room) && id < |room.conflicts|
    ensures Sound(c, CloseRow(room, id, action, status, events))
    ensures CloseRow(room, id, action, status, events).log == room.log
  {
    hide Replay, Gapless, Snaked, AllComplete;
  }

  lemma AcceptSwap(c: Config, room: Room, o: nat, key: string, player: nat)
    requires ValidConfig(c) && Sound(c, room) && o in Replay(room.log) && player in c.players
    requires FindKey(room.log, key).None? && FindKey(room.log, key + ":reverse").None?
    ensures
      var board := Replay(room.log);
      var e1 := ReverseEvent(room, board[o], key + ":reverse").(round := Some(SnakeRound(o, c.teamCount)));
      var room1 := Append(room, e1);
      var e2 := ReplaceEvent(room1, board[o], key, player).(round := Some(SnakeRound(o, c.teamCount)));
      && Sound(c, Append(room1, e2)) && Grows(room, Append(room1, e2))
      && Takes(board, Replay(Append(room1, e2).log), o, player)
      && |Replay(Append(room1, e2).log)| == |board|
  {
    SwapKeeps(c, room, o, key, player);
    var board := Replay(room.log);
    var e1 := ReverseEvent(room, board[o], key + ":reverse");
    assert e1.(round := Some(SnakeRound(o, c.teamCount))) == e1;
    var e2 := ReplaceEvent(Append(room, e1), board[o], key, player);
    assert e2.(round := Some(SnakeRound(o, c.teamCount))) == e2;
  }

  lemma AcceptNew(c: Config, room: Room, e: Event)
    requires ValidConfig(c) && Sound(c, room) && FindKey(room.log, e.key).None?
    requires e.kind == PickRecorded && e.id == room.nextEventId && e.sequence == room.currentSequence + 1
    requires e.overall == Some(|Replay(room.log)| + 1)
    requires e.round == Some(SnakeRound(|Replay(room.log)| + 1, c.teamCount))
    requires e.teamSlot == Some(SnakeSlot(|Replay(room.log)| + 1, c.teamCount))
    requires e.player.Some? && e.player.value in c.players
    ensures Sound(c, Append(room, e)) && Grows(room, Append(room, e))
    ensures Takes(Replay(room.log), Replay(Append(room, e).log), |Replay(room.log)| + 1, e.player.value)
    ensures |Replay(Append(room, e).log)| == |Replay(room.log)| + 1
  {
    AppendPickEvent(room, e);
    ExtendsBoard(c, Replay(room.log), PickOf(|Replay(room.log)| + 1, e));
  }

  /**
    Resolving keeps the room sound; an accepted row gives its pick to the chosen player and moves
    nothing else; the board outgrows the draft exactly in the case named above.
  */
  lemma ResolveKeeps(c: Config, room: Room, id: nat, r: Resolution)
    requires ValidConfig(c) && Sound(c, room)
    requires ResolveConflict(c, room, id, r).Accepted?
    ensures id < |room.conflicts|
    ensures
      var later := ResolveConflict(c, room, id, r).room;
      && Sound(c, later) && Grows(room, later)
      && (if room.conflicts[id].status == Unresolved && (r.action == AcceptIncoming || r.action == MapPlayerAndAccept)
          then
            var player := if r.player.Some? then r.player else room.conflicts[id].incoming.playerId;
            && player.Some?
            && Takes(Replay(room.log), Replay(later.log), room.conflicts[id].incoming.overall, player.value)
          else later.log == room.log)
      && (|Replay(room.log)| <= TotalPicks(c) ==>
            (|Replay(later.log)| > TotalPicks(c) <==> Overflows(c, room, id, r)))
      && (later.log != room.log ==> r.expected == room.currentSequence)
  {
    hide Replay, FindKey, Sound, Grows, Snaked, Takes, SnakeSlot, SnakeRound, Digits;
    var row := room.conflicts[id];
    SoundBoundary(c, room);
    if row.status != Unresolved {
      SameLogGrows(room, room);
    } else if r.action == KeepCanonical {
      CloseRowKeeps(c, room, id, KeepCanonical, Resolved, row.resolving);
      SameLogGrows(room, ResolveConflict(c, room, id, r).room);
    } else if r.action == IgnoreIncoming {
      CloseRowKeeps(c, room, id, IgnoreIncoming, Ignored, row.resolving);
      SameLogGrows(room, ResolveConflict(c, room, id, r).room);
    } else {
      AcceptKeeps(c, room, id, r);
    }
  }

  lemma SoundBoundary(c: Config, room: Room)
    requires ValidConfig(c) && Sound(c, room)
    ensures Gapless(Replay(room.log)) && RowsSound(room.conflicts)
  {
  }

  lemma AcceptKeeps(c: Config, room: Room, id: nat, r: Resolution)
    requires ValidConfig(c) && Sound(c, room) && id < |room.conflicts| && RowsSound(room.conflicts)
    requires Gapless(Replay(room.log))
    requires room.conflicts[id].status == Unresolved && (r.action == AcceptIncoming || r.action == MapPlayerAndAccept)
    requires ResolveConflict(c, room, id, r).Accepted?
    ensures
      var later := ResolveConflict(c, room, id, r).room;
      var player := if r.player.Some? then r.player else room.conflicts[id].incoming.playerId;
      && player.Some? && Sound(c, later) && Grows(room, later)
      && Takes(Replay(room.log), Replay(later.log), room.conflicts[id].incoming.overall, player.value)
      && |Replay(later.log)| == |Replay(room.log)| +
           (if room.conflicts[id].incoming.overall in Replay(room.log) then 0 else 1)
      && (room.conflicts[id].incoming.overall in Replay(room.log)
          || room.conflicts[id].incoming.overall == |Replay(room.log)| + 1)
  {
    hide Replay, FindKey, Sound, Grows, Snaked, Takes, SnakeSlot, SnakeRound, Gapless, Digits;
    var row := room.conflicts[id];
    var player := if r.player.Some? then r.player else row.incoming.playerId;
    var board, key, o := Replay(room.log), ResolutionKey(row), row.incoming.overall;
    if o in board {
      AcceptSwap(c, room, o, key, player.value);
      var e1 := ReverseEvent(room, board[o], key + ":reverse").(round := Some(SnakeRound(o, c.teamCount)));
      var room1 := Append(room, e1);
      var e2 := ReplaceEvent(room1, board[o], key, player.value).(round := Some(SnakeRound(o, c.teamCount)));
      CloseRowKeeps(c, Append(room1, e2), id, r.action, Resolved, [e1.id, e2.id]);
      SameLogGrows(Append(room1, e2), ResolveConflict(c, room, id, r).room);
      GrowsOn(room, Append(room1, e2), ResolveConflict(c, room, id, r).room);
    } else {
      var e := NextEvent(room, PickRecorded, key, Some(o), Some(SnakeRound(o, c.teamCount)),
                         Some(SnakeSlot(o, c.teamCount)), player, None);
      AcceptNew(c, room, e);
      CloseRowKeeps(c, Append(room, e), id, r.action, Resolved, [e.id]);
      SameLogGrows(Append(room, e), ResolveConflict(c, room, id, r).room);
      GrowsOn(room, Append(room, e), ResolveConflict(c, room, id, r).room);
    }
  }

  // ---------------------------------------------------------------- runs

  datatype Command =
    | PickCommand(pick: PickRequest)
    | ActionCommand(act: ActionRequest, ready: bool)
    | SyncCommand(observations: seq<Observation>, at: nat)
    | ModeCommand(mode: SourceMode, when: nat, cleared: bool)
    | ResolveCommand(row: nat, resolution: Resolution)

  ghost predicate WellFormed(cmd: Command) {
    cmd.SyncCommand? ==> Positive(cmd.observations)
  }

  function Expected(cmd: Command): nat {
    match cmd
    case PickCommand(req) => req.expected
    case ActionCommand(req, _) => req.expected
    case SyncCommand(_, at) => at
    case ModeCommand(_, when, _) => when
    case ResolveCommand(_, r) => r.expected
  }

  /** The room after one request; a refused request leaves it alone. */
  ghost function Perform(c: Config, room: Room, cmd: Command): Room
    requires ValidConfig(c) && WellFormed(cmd) && RowsSound(room.conflicts)
  {
    match cmd
    case PickCommand(req) => var r := AppendPick(c, room, req); if r.Done? then r.room else room
    case ActionCommand(req, ready) => var r := Transition(c, room, req, ready); if r.Done? then r.room else room
    case SyncCommand(obs, at) => var r := Reconcile(c, room, obs, at); if r.Accepted? then r.room else room
    case ModeCommand(mode, when, cleared) => var r := ChangeMode(c, room, mode, when,
      cleared); if r.Accepted? then r.room else room
    case ResolveCommand(row, res) => var r := ResolveConflict(c, room, row, res); if r.Accepted? then r.room else room
  }

  /** Every request keeps the room sound, only adds to the log, and adds only at the sequence it expects. */
  lemma PerformKeeps(c: Config, room: Room, cmd: Command)
    requires ValidConfig(c) && Sound(c, room) && WellFormed(cmd)
    ensures
      var later := Perform(c, room, cmd);
      && Sound(c, later) && Grows(room, later)
      && room.currentSequence == |room.log| && later.currentSequence == |later.log|
      && (later.log != room.log ==> Expected(cmd) == room.currentSequence)
  {
    hide Replay, FindKey, Sound, Grows, PickOutcome, AppendPick, Transition, Reconcile, ChangeMode, ResolveConflict, KeepsPicks;
    SoundBoundary(c, room);
    SameLogGrows(room, room);
    match cmd {
      case PickCommand(req) =>
        if AppendPick(c, room, req).Done? { AppendPickKeeps(c, room, req); }
      case ActionCommand(req, ready) =>
        if Transition(c, room, req, ready).Done? { TransitionKeeps(c, room, req, ready); }
      case SyncCommand(obs, at) =>
        if Reconcile(c, room, obs, at).Accepted? { ReconcileKeeps(c, room, obs, at); }
      case ModeCommand(mode, when, cleared) =>
        if ChangeMode(c, room, mode, when, cleared).Accepted? { ChangeModeKeeps(c, room, mode, when, cleared); }
      case ResolveCommand(row, res) =>
        if ResolveConflict(c, room, row, res).Accepted? { ResolveKeeps(c, room, row, res); }
    }
    SequenceIsLength(c, room, Perform(c, room, cmd));
  }

  ghost predicate AllWellFormed(cmds: seq<Command>) {
    forall i :: 0 <= i < |cmds| ==> WellFormed(cmds[i])
  }

  /** All requests in turn. */
  ghost function Run(c: Config, room: Room, cmds: seq<Command>): (later: Room)
    requires ValidConfig(c) && Sound(c, room) && AllWellFormed(cmds)
    ensures Sound(c, later)
  {
    if |cmds| == 0 then room
    else
      var front := Run(c, room, cmds[..|cmds| - 1]);
      PerformKeeps(c, front, cmds[|cmds| - 1]);
      Perform(c, front, cmds[|cmds| - 1])
  }

  /** Whatever is asked, the log only grows and its length is the sequence. */
  lemma {:induction false} RunGrows(c: Config, room: Room, cmds: seq<Command>)
    requires ValidConfig(c) && Sound(c, room) && AllWellFormed(cmds)
    ensures Grows(room, Run(c, room, cmds))
    ensures room.currentSequence == |room.log| <= |Run(c, room, cmds).log| == Run(c, room, cmds).currentSequence
  {
    hide Sound, Perform, Replay;
    SequenceIsLength(c, room, room);
    if |cmds| > 0 {
      var front := Run(c, room, cmds[..|cmds| - 1]);
      RunGrows(c, room, cmds[..|cmds| - 1]);
      PerformKeeps(c, front, cmds[|cmds| - 1]);
      GrowsOn(room, front, Run(c, room, cmds));
    }
  }

  /** Every run keeps a gapless snake board, sequences one to the current one, and unique keys. */
  lemma RunIsOrdered(c: Config, room: Room, cmds: seq<Command>)
    requires ValidConfig(c) && Sound(c, room) && AllWellFormed(cmds)
    ensures
      var later := Run(c, room, cmds);
      && later.currentSequence == |later.log|
      && (forall i :: 0 <= i < |later.log| ==> later.log[i].sequence == i + 1)
      && (forall i, j :: 0 <= i < j < |later.log| ==> later.log[i].key != later.log[j].key)
      && (forall o :: o in Replay(later.log) <==> 1 <= o <= |Replay(later.log)|)
      && (forall o :: o in Replay(later.log) ==>
            && o >= 1
            && Replay(later.log)[o].round == SnakeRound(o, c.teamCount)
            && Replay(later.log)[o].teamSlot == SnakeSlot(o, c.teamCount))
  {
    hide Replay, Run, AllComplete;
  }

  /** Without accepted rows the board never outgrows the draft. */
  lemma {:induction false} RunIsBounded(c: Config, room: Room, cmds: seq<Command>)
    requires ValidConfig(c) && Sound(c, room) && AllWellFormed(cmds)
    requires |Replay(room.log)| <= TotalPicks(c)
    requires forall i :: 0 <= i < |cmds| ==> !cmds[i].ResolveCommand?
    ensures |Replay(Run(c, room, cmds).log)| <= TotalPicks(c)
  {
    hide Replay, Sound, Perform;
    if |cmds| > 0 {
      RunIsBounded(c, room, cmds[..|cmds| - 1]);
      PerformIsBounded(c, Run(c, room, cmds[..|cmds| - 1]), cmds[|cmds| - 1]);
    }
  }

  lemma PerformIsBounded(c: Config, room: Room, cmd: Command)
    requires ValidConfig(c) && Sound(c, room) && WellFormed(cmd) && !cmd.ResolveCommand?
    requires |Replay(room.log)| <= TotalPicks(c)
    ensures |Replay(Perform(c, room, cmd).log)| <= TotalPicks(c)
  {
    hide Replay, FindKey, Sound, Grows, PickOutcome, AppendPick, Transition, Reconcile, ChangeMode, KeepsPicks;
    SoundBoundary(c, room);
    match cmd {
      case PickCommand(req) =>
        if AppendPick(c, room, req).Done? {
          AppendPickKeeps(c, room, req);
          if FindKey(room.log, req.key).None? {
            OutcomeKeepsBound(c, Replay(room.log), req, Replay(AppendPick(c, room, req).room.log));
          }
        }
      case ActionCommand(req, ready) =>
        if Transition(c, room, req, ready).Done? { TransitionKeeps(c, room, req, ready); }
      case SyncCommand(obs, at) =>
        if Reconcile(c, room, obs, at).Accepted? { ReconcileKeeps(c, room, obs, at); }
      case ModeCommand(mode, when, cleared) =>
        if ChangeMode(c, room, mode, when, cleared).Accepted? { ChangeModeKeeps(c, room, mode, when, cleared); }
    }
  }

  /** Requests of the room itself, without a provider. */
  ghost predicate ByRequest(cmd: Command) {
    cmd.PickCommand? || cmd.ActionCommand? || cmd.ModeCommand?
  }

  /** While picks come by request no player is active twice. */
  lemma {:induction false} RunNeverRepeats(c: Config, room: Room, cmds: seq<Command>)
    requires ValidConfig(c) && Sound(c, room) && AllWellFormed(cmds) && NoRepeat(Replay(room.log))
    requires forall i :: 0 <= i < |cmds| ==> ByRequest(cmds[i])
    ensures NoRepeat(Replay(Run(c, room, cmds).log))
  {
    hide Replay, Sound, Perform, NoRepeat;
    if |cmds| > 0 {
      RunNeverRepeats(c, room, cmds[..|cmds| - 1]);
      PerformNeverRepeats(c, Run(c, room, cmds[..|cmds| - 1]), cmds[|cmds| - 1]);
    }
  }

  lemma PerformNeverRepeats(c: Config, room: Room, cmd: Command)
    requires ValidConfig(c) && Sound(c, room) && WellFormed(cmd) && ByRequest(cmd) && NoRepeat(Replay(room.log))
    ensures NoRepeat(Replay(Perform(c, room, cmd).log))
  {
    hide Replay, FindKey, Sound, Grows, PickOutcome, AppendPick, Transition, ChangeMode, NoRepeat;
    SoundBoundary(c, room);
    match cmd {
      case PickCommand(req) =>
        if AppendPick(c, room, req).Done? {
          AppendPickKeeps(c, room, req);
          if FindKey(room.log, req.key).None? {
            BoardEvents(c, room);
            OutcomeKeepsNoRepeat(c, Replay(room.log), req, Replay(AppendPick(c, room, req).room.log));
          }
        }
      case ActionCommand(req, ready) =>
        if Transition(c, room, req, ready).Done? { TransitionKeeps(c, room, req, ready); }
      case ModeCommand(mode, when, cleared) =>
        if ChangeMode(c, room, mode, when, cleared).Accepted? { ChangeModeKeeps(c, room, mode, when, cleared); }
    }
  }

  lemma BoardEvents(c: Config, room: Room)
    requires ValidConfig(c) && Sound(c, room)
    ensures var b := Replay(room.log);
      forall x, y :: x in b && y in b && x != y ==> b[x].event.id != b[y].event.id
  {
    hide Replay, WellKept, AllComplete;
    forall x, y | x in Replay(room.log) && y in Replay(room.log) && x != y
      ensures Replay(room.log)[x].event.id != Replay(room.log)[y].event.id
    {
      BoardEventsDiffer(room, x, y);
    }
  }

  // ---------------------------------------------------------------- who wins

  /** Of two requests that expect the same sequence only one can ever add to the log. */
  lemma OneRequestWins(c: Config, room: Room, first: Command, between: seq<Command>, second: Command)
    requires ValidConfig(c) && Sound(c, room)
    requires WellFormed(first) && AllWellFormed(between) && WellFormed(second)
    requires Expected(first) == Expected(second)
    requires Perform(c, room, first).log != room.log
    ensures Sound(c, Perform(c, room, first)) && RowsSound(Run(c, Perform(c, room, first), between).conflicts)
    ensures
      var later := Run(c, Perform(c, room, first), between);
      Perform(c, later, second).log == later.log
  {
    hide Sound, Perform, Replay;
    SoundBoundary(c, room);
    PerformKeeps(c, room, first);
    var won := Perform(c, room, first);
    RunGrows(c, won, between);
    SoundBoundary(c, Run(c, won, between));
    PerformKeeps(c, Run(c, won, between), second);
    assert won.log[..|won.log|] == won.log;
  }

  /** A pick request that was accepted gets its own event back at any later point and changes nothing. */
  lemma ResentPickIsAnswered(c: Config, room: Room, req: PickRequest, between: seq<Command>)
    requires ValidConfig(c) && Sound(c, room) && AllWellFormed(between)
    requires AppendPick(c, room, req).Done?
    ensures Sound(c, AppendPick(c, room, req).room)
    ensures
      var accepted := AppendPick(c, room, req);
      var later := Run(c, accepted.room, between);
      AppendPick(c, later, req) == Done(later, accepted.event)
  {
    hide Replay, Sound, Grows, FindKey, WellKept;
    AppendPickKeeps(c, room, req);
    var accepted := AppendPick(c, room, req);
    RunGrows(c, accepted.room, between);
    InOrderIsKept(c, Run(c, accepted.room, between));
    KeyStays(accepted.room, Run(c, accepted.room, between), req.key);
  }

  /** The same for a session action. */
  lemma ResentActionIsAnswered(c: Config, room: Room, req: ActionRequest, ready: bool, between: seq<Command>, laterReady: bool)
    requires ValidConfig(c) && Sound(c, room) && AllWellFormed(between)
    requires Transition(c, room, req, ready).Done?
    ensures Sound(c, Transition(c, room, req, ready).room)
    ensures
      var accepted := Transition(c, room, req, ready);
      var later := Run(c, accepted.room, between);
      Transition(c, later, req, laterReady) == Done(later, accepted.event)
  {
    hide Replay, Sound, Grows, FindKey, WellKept;
    TransitionKeeps(c, room, req, ready);
    var accepted := Transition(c, room, req, ready);
    RunGrows(c, accepted.room, between);
    InOrderIsKept(c, Run(c, accepted.room, between));
    KeyStays(accepted.room, Run(c, accepted.room, between), req.key);
  }

  // ---------------------------------------------------------------- the first room

  function FreshRoom(mode: SourceMode): Room {
    Room(IsReady, mode, [], 0, 1, [], 0)
  }

  lemma FreshRoomIsSound(c: Config, mode: SourceMode)
    requires ValidConfig(c)
    ensures Sound(c, FreshRoom(mode)) && Replay(FreshRoom(mode).log) == map[] && NoRepeat(Replay(FreshRoom(mode).log))
  {
  }
}
