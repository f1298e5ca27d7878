/** What reaches the board of a session that is not live: the status guards pick requests, and nothing else. */
module DraftStatus {
  import opened DraftLog
  import opened DraftRoom
  import opened DraftLaws
  import opened Reconciling
  import opened DraftRuns
  import opened PassBoard

  /** The row is accepted for the next overall. */
  predicate AcceptsNext(c: Config, room: Room, id: nat, r: Resolution) {
    && room.currentSequence == r.expected && id < |room.conflicts|
    && var row := room.conflicts[id];
       var player := if r.player.Some? then r.player else row.incoming.playerId;
       && row.status == Unresolved && (r.action == AcceptIncoming || r.action == MapPlayerAndAccept)
       && row.incoming.overall == |Replay(room.log)| + 1
       && player.Some? && PlayerProblem(c, player.value).None?
       && FindKey(room.log, ResolutionKey(row)).None?
  }

  /** What adds a pick although the session is not live. */
  predicate AddsOutsideLive(c: Config, room: Room, cmd: Command)
    requires ValidConfig(c)
  {
    match cmd
    case SyncCommand(obs, at) => room.currentSequence == at && Reach(c, room, obs, |Replay(room.log)|) > |Replay(room.log)|
    case ResolveCommand(id, r) => AcceptsNext(c, room, id, r)
    case _ => false
  }

  /** A batch without an overall or a key twice, if the request is one. */
  ghost predicate WithoutTies(room: Room, cmd: Command) {
    cmd.SyncCommand? ==> OverallsApart(cmd.observations) && KeysApart(room.sourceMode, cmd.observations)
  }

  /**
    Outside a live session no pick request adds to the board. A batch does exactly when its entries reach beyond
    the board, and accepting a row does exactly when the row is for the next overall.
  */
  lemma AddsOutsideLiveExactlyWhen(c: Config, room: Room, cmd: Command)
    requires ValidConfig(c) && Sound(c, room) && WellFormed(cmd) && RowsSound(room.conflicts)
    requires room.status != Live && WithoutTies(room, cmd)
    ensures |Replay(Perform(c, room, cmd).log)| > |Replay(room.log)| <==> AddsOutsideLive(c, room, cmd)
  {
    hide Replay, FindKey, Sound, Grows, AppendPick, Transition, Reconcile, ChangeMode, ResolveConflict, Reach, Gapless,
         OverallsApart, KeysApart, AcceptsNext;
    match cmd {
      case PickCommand(req) =>
        if AppendPick(c, room, req).Done? { RequestAddsNothing(c, room, req); }
      case ActionCommand(req, ready) =>
        if Transition(c, room, req, ready).Done? { TransitionKeeps(c, room, req, ready); }
      case ModeCommand(mode, when, cleared) =>
        if ChangeMode(c, room, mode, when, cleared).Accepted? { ChangeModeKeeps(c, room, mode, when, cleared); }
      case SyncCommand(obs, at) =>
        BatchIsTaken(c, room, obs, at);
        if Reconcile(c, room, obs, at).Accepted? { BatchBoard(c, room, obs, at); }
      case ResolveCommand(id, r) => RowAdds(c, room, id, r);
    }
  }

  /** Outside a live session a batch is refused for its sequence only. */
  lemma BatchIsTaken(c: Config, room: Room, obs: seq<Observation>, at: nat)
    requires ValidConfig(c) && Sound(c, room) && Positive(obs) && room.status != Live
    ensures Reconcile(c, room, obs, at).Accepted? <==> room.currentSequence == at
  {
    hide Replay, Sound, Grows, ReconcileAll, FindKey;
    SortedIsPositive(obs);
    CarriedBoardIsReplay(c, room, SortObservations(obs));
  }

  lemma RequestAddsNothing(c: Config, room: Room, req: PickRequest)
    requires ValidConfig(c) && Sound(c, room) && room.status != Live && AppendPick(c, room, req).Done?
    ensures |Replay(AppendPick(c, room, req).room.log)| <= |Replay(room.log)|
  {
    hide Replay, FindKey, Sound, Grows, CorrectPick;
    AppendPickKeeps(c, room, req);
    SoundBoundary(c, room);
    if FindKey(room.log, req.key).None? && !req.kind.Record? {
      CorrectionAddsNothing(c, Replay(room.log), req, Replay(AppendPick(c, room, req).room.log));
    }
  }

  lemma CorrectionAddsNothing(c: Config, before: Board, req: PickRequest, after: Board)
    requires PickOutcome(c, before, req, after) && !req.kind.Record?
    ensures |after| <= |before|
  {
    if req.kind.Reverse? {
      assert before.Keys == after.Keys + {|before|};
    } else {
      var o, p: Pick :| o in before && after == before[o := p];
      assert after.Keys == before.Keys;
    }
  }

  lemma RowAdds(c: Config, room: Room, id: nat, r: Resolution)
    requires ValidConfig(c) && Sound(c, room) && RowsSound(room.conflicts)
    ensures
      var later := if ResolveConflict(c, room, id, r).Accepted? then ResolveConflict(c, room, id, r).room else room;
      |Replay(later.log)| > |Replay(room.log)| <==> AcceptsNext(c, room, id, r)
  {
    hide Replay, FindKey, Sound, Grows, Takes, SnakeSlot, SnakeRound, ResolutionKey, PlayerProblem;
    SoundBoundary(c, room);
    assert |Replay(room.log)| + 1 !in Replay(room.log);
    if ResolveConflict(c, room, id, r).Accepted? && room.conflicts[id].status == Unresolved
       && (r.action == AcceptIncoming || r.action == MapPlayerAndAccept) {
      AcceptKeeps(c, room, id, r);
    }
  }
}
