/**
  When requests to a draft are accepted and where they leave the session, told on its status, its sequence, its keys
  and its board.
*/
module RequestLaws {
  import opened Wrappers
  import opened DraftLog
  import opened DraftRoom
  import opened DraftLaws
  import opened DraftRuns

  // ---------------------------------------------------------------- keys and players

  /** No event has the key. */
  ghost predicate KeyIsNew(room: Room, key: string) {
    forall i :: 0 <= i < |room.log| ==> room.log[i].key != key
  }

  lemma NewKeyTold(room: Room, key: string)
    ensures FindKey(room.log, key).None? <==> KeyIsNew(room, key)
  {
    var e := FindKey(room.log, key);
    if e.Some? {
      assert e.value in room.log;
    }
  }

  /** A player of the league with an identity. */
  ghost predicate IsKnown(c: Config, player: nat) {
    player in c.players && c.players[player].hasAthlete
  }

  ghost predicate HoldsPick(board: Board, player: nat) {
    exists o :: o in board && board[o].player == player
  }

  // ---------------------------------------------------------------- session actions

  /** The arrows of a session. */
  ghost predicate Leads(action: Action, was: SessionStatus, after: SessionStatus) {
    || (action == Start && was == IsReady && after == Live)
    || (action == Pause && was == Live && after == Paused)
    || (action == Resume && was == Paused && after == Live)
    || (action == CompleteDraft && was in {Live, Paused} && after == Completed)
    || (action == Abandon && was in {InSetup, IsReady, Live, Paused} && after == Abandoned)
    || (action == Reopen && was == Completed && after == Live)
  }

  ghost predicate NotesAction(action: Action, kind: EventKind) {
    || (action == Start && kind == SessionStarted) || (action == Pause && kind == SessionPaused)
    || (action == Resume && kind == SessionResumed) || (action == CompleteDraft && kind == SessionCompleted)
    || (action == Abandon && kind == SessionAbandoned) || (action == Reopen && kind == SessionReopened)
  }

  /** A reason is needed to abandon, to open again, and to complete before the board is full. */
  ghost predicate NeedsReason(c: Config, room: Room, action: Action) {
    action == Abandon || action == Reopen || (action == CompleteDraft && |Replay(room.log)| < c.teamCount * c.roundCount)
  }

  /** An action with a new key is done exactly along an arrow, at the sequence it expects, with what it needs. */
  lemma ActionExactlyWhen(c: Config, room: Room, req: ActionRequest, ready: bool)
    requires KeyIsNew(room, req.key)
    ensures
      Transition(c, room, req, ready).Done? <==>
        && req.expected == room.currentSequence && (exists s :: Leads(req.action, room.status, s))
        && (req.action == Start ==> ready) && (NeedsReason(c, room, req.action) ==> req.hasReason)
  {
    hide FindKey, Replay;
    NewKeyTold(room, req.key);
    if AllowedFrom(req.action, room.status) {
      assert Leads(req.action, room.status, StatusAfter(req.action));
    }
  }

  /** It leads to the end of its arrow and leaves one event. */
  lemma ActionTold(c: Config, room: Room, req: ActionRequest, ready: bool)
    requires KeyIsNew(room, req.key) && Transition(c, room, req, ready).Done?
    ensures
      var later, e := Transition(c, room, req, ready).room, Transition(c, room, req, ready).event;
      && Leads(req.action, room.status, later.status)
      && later.log == room.log + [e] && NotesAction(req.action, e.kind) && e.key == req.key
      && later.conflicts == room.conflicts && later.sourceMode == room.sourceMode
      && later.replays == room.replays + (if req.action == Reopen then 1 else 0)
  {
    hide FindKey, Replay;
    NewKeyTold(room, req.key);
  }

  // ---------------------------------------------------------------- source modes

  /** The approval mode of the same feed. */
  ghost predicate Approves(shadow: SourceMode, mode: SourceMode) {
    || (shadow == ScrapeShadow && mode == ScrapeAuthoritative)
    || (shadow == OauthShadow && mode == OauthAuthoritative)
  }

  /** An automatic mode is entered only from its approval mode and when it is cleared; the other modes at any time. */
  lemma ModeExactlyWhen(c: Config, room: Room, mode: SourceMode, expected: nat, cleared: bool)
    ensures
      var r := ChangeMode(c, room, mode, expected, cleared);
      && (r.Accepted? <==>
            && expected == room.currentSequence
            && (mode in {ScrapeAuthoritative, OauthAuthoritative} ==> cleared && Approves(room.sourceMode, mode))
            && KeyIsNew(room, "source-mode:" + Digits(room.currentSequence + 1) + ":" + ModeName(mode)))
      && (r.Accepted? ==>
            && r.room.sourceMode == mode && r.room.status == room.status && r.room.conflicts == room.conflicts
            && |r.room.log| == |room.log| + 1 && room.log <= r.room.log
            && r.room.log[|room.log|].kind == SourceModeChanged)
  {
    hide FindKey, Digits, ModeName;
    NewKeyTold(room, "source-mode:" + Digits(room.currentSequence + 1) + ":" + ModeName(mode));
  }

  // ---------------------------------------------------------------- recording a pick

  /** The key under which the last pick would complete the draft is taken. */
  ghost predicate CannotComplete(c: Config, room: Room, key: string, size: nat) {
    size == c.teamCount * c.roundCount && room.status == Live && !KeyIsNew(room, key + ":complete")
  }

  /** What a new pick has to satisfy. */
  ghost predicate CanRecord(c: Config, room: Room, req: PickRequest)
    requires ValidConfig(c)
  {
    var board := Replay(room.log);
    var onClock := SnakeSlot(|board| + 1, c.teamCount);
    && room.status == Live && |board| < c.teamCount * c.roundCount
    && (req.overall == None || req.overall == Some(|board| + 1))
    && IsKnown(c, req.player) && !HoldsPick(board, req.player)
    && (req.manual && c.kind == SessionKind.MockDraft && c.automatic ==> onClock == c.ownerSlot)
    && (onClock == c.ownerSlot ==> req.advice == FreshAdvice)
  }

  lemma HoldsPickTold(board: Board, player: nat)
    ensures player in Drafted(board) <==> HoldsPick(board, player)
  {
  }

  lemma CanRecordTold(c: Config, room: Room, req: PickRequest)
    requires ValidConfig(c)
    ensures RecordProblem(c, room, Replay(room.log), req).None? <==> CanRecord(c, room, req)
  {
    hide Replay, SnakeSlot, Drafted, HoldsPick;
    HoldsPickTold(Replay(room.log), req.player);
  }

  lemma FinishTold(c: Config, room: Room, key: string, e: Event)
    ensures
      var r := Finish(c, room, key, e);
      var full := |Replay(room.log)| == c.teamCount * c.roundCount && room.status == Live;
      && (r.Done? <==> !CannotComplete(c, room, key, |Replay(room.log)|))
      && (r.Done? ==>
            && r.event == e && r.room.status == (if full then Completed else room.status)
            && r.room.conflicts == room.conflicts && r.room.sourceMode == room.sourceMode
            && room.log <= r.room.log && |r.room.log| == |room.log| + (if full then 1 else 0)
            && (full ==> r.room.log[|room.log|].kind == SessionCompleted))
  {
    hide FindKey, Replay;
    NewKeyTold(room, key + ":complete");
  }

  lemma StillNew(room: Room, e: Event, key: string)
    requires e.key != key
    ensures KeyIsNew(Append(room, e), key) <==> KeyIsNew(room, key)
  {
    var later := Append(room, e);
    assert forall i :: 0 <= i < |room.log| ==> later.log[i] == room.log[i];
  }

  lemma LongerKey(key: string, suffix: string)
    requires suffix != ""
    ensures key != key + suffix
  {
    assert |key + suffix| > |key|;
  }

  /** A new pick with a new key is recorded exactly when it may be, at the sequence it expects. */
  lemma RecordedExactlyWhen(c: Config, room: Room, req: PickRequest)
    requires ValidConfig(c) && Sound(c, room) && req.kind == Record && KeyIsNew(room, req.key)
    ensures
      AppendPick(c, room, req).Done? <==>
        && req.expected == room.currentSequence && CanRecord(c, room, req)
        && !CannotComplete(c, room, req.key, |Replay(room.log)| + 1)
  {
    hide Replay, Finish, Sound, RecordProblem, CanRecord, PickOutcome, CannotComplete;
    NewKeyTold(room, req.key);
    CanRecordTold(c, room, req);
    if CanRecord(c, room, req) {
      var e := RecordEvent(c, room, Replay(room.log), req);
      RecordedSize(c, room, req);
      FinishTold(c, Append(room, e), req.key, e);
      CompletionStays(c, room, e, req.key, |Replay(room.log)| + 1);
    }
  }

  lemma RecordedSize(c: Config, room: Room, req: PickRequest)
    requires ValidConfig(c) && Sound(c, room) && req.kind == Record && FindKey(room.log, req.key).None?
    requires RecordProblem(c, room, Replay(room.log), req).None?
    ensures |Replay(Append(room, RecordEvent(c, room, Replay(room.log), req)).log)| == |Replay(room.log)| + 1
  {
    hide Replay, RecordProblem, Grows, FindKey;
    RecordKeeps(c, room, req);
    SoundGapless(c, room);
  }

  lemma SoundGapless(c: Config, room: Room)
    requires ValidConfig(c) && Sound(c, room)
    ensures Gapless(Replay(room.log))
  {
  }

  lemma CompletionStays(c: Config, room: Room, e: Event, key: string, size: nat)
    requires e.key == key || e.key == key + ":reverse"
    ensures CannotComplete(c, Append(room, e), key, size) <==> CannotComplete(c, room, key, size)
  {
    hide KeyIsNew;
    LongerKey(key, ":complete");
    assert (key + ":complete")[|key| + 1] == 'c' && (e.key == key + ":reverse" ==> e.key[|key| + 1] == 'r');
    StillNew(room, e, key + ":complete");
  }

  // ---------------------------------------------------------------- undoing and replacing

  /** The overall whose active event has the number. */
  ghost predicate IsTarget(board: Board, o: nat, event: nat) {
    o in board && board[o].event.id == event
  }

  /** Undoing takes the last pick only. */
  lemma UndoneExactlyWhen(c: Config, room: Room, req: PickRequest)
    requires ValidConfig(c) && Sound(c, room) && req.kind == Reverse && KeyIsNew(room, req.key)
    ensures
      var board := Replay(room.log);
      AppendPick(c, room, req).Done? <==>
        && req.expected == room.currentSequence && room.status in {Live, Paused}
        && IsTarget(board, |board|, req.target) && !CannotComplete(c, room, req.key, |board| - 1)
  {
    hide Replay, Finish, Sound, PickOutcome, CannotComplete, ActiveTarget, NoRepeat;
    NewKeyTold(room, req.key);
    var board := Replay(room.log);
    TargetTold(c, room, req.target);
    if IsTarget(board, |board|, req.target) {
      var e := ReverseEvent(room, board[|board|], req.key);
      ReverseKeeps(c, room, req);
      ReversedSize(c, room, req, e);
      FinishTold(c, Append(room, e), req.key, e);
      CompletionStays(c, room, e, req.key, |board| - 1);
    }
  }

  lemma ReversedSize(c: Config, room: Room, req: PickRequest, e: Event)
    requires ValidConfig(c) && Sound(c, room) && req.kind == Reverse
    requires PickOutcome(c, Replay(room.log), req, Replay(Append(room, e).log))
    ensures |Replay(Append(room, e).log)| == |Replay(room.log)| - 1 && |Replay(room.log)| >= 1
  {
    hide Replay;
    SoundGapless(c, room);
    ShrinksBoard(c, Replay(room.log));
  }

  /** At most one overall has the number, and the pick there says so. */
  lemma TargetTold(c: Config, room: Room, event: nat)
    requires ValidConfig(c) && Sound(c, room)
    ensures
      var board := Replay(room.log);
      && (forall o :: IsTarget(board, o, event) ==> ActiveTarget(board, event) == Some(o) && board[o].overall == o)
      && (ActiveTarget(board, event).Some? ==> IsTarget(board, ActiveTarget(board, event).value, event))
  {
    hide Replay, ActiveTarget, Sound;
    var board := Replay(room.log);
    BoardEvents(c, room);
    forall o | IsTarget(board, o, event) ensures ActiveTarget(board, event) == Some(o) && board[o].overall == o {
      TargetPlace(c, room, o);
    }
  }

  /** A pick can be replaced while the draft is live or paused, by a player who holds no other pick. */
  lemma ReplacedExactlyWhen(c: Config, room: Room, req: PickRequest)
    requires ValidConfig(c) && Sound(c, room) && req.kind == Replace && KeyIsNew(room, req.key)
    ensures
      var board := Replay(room.log);
      AppendPick(c, room, req).Done? <==>
        && req.expected == room.currentSequence && room.status in {Live, Paused}
        && (exists o :: IsTarget(board, o, req.target))
        && IsKnown(c, req.player)
        && (forall o :: o in board && board[o].player == req.player ==> board[o].event.id == req.target)
        && KeyIsNew(room, req.key + ":reverse") && !CannotComplete(c, room, req.key, |board|)
  {
    hide Replay, Finish, Sound, PickOutcome, CannotComplete, ActiveTarget, KeyIsNew;
    NewKeyTold(room, req.key);
    NewKeyTold(room, req.key + ":reverse");
    var board := Replay(room.log);
    TargetTold(c, room, req.target);
    DraftedElsewhereTold(board, req.target, req.player);
    if o :| IsTarget(board, o, req.target) {
      if IsKnown(c, req.player) && req.player !in DraftedElsewhere(board, req.target) && KeyIsNew(room, req.key + ":reverse") {
        var e1 := ReverseEvent(room, board[o], req.key + ":reverse");
        var room1 := Append(room, e1);
        var e := ReplaceEvent(room1, board[o], req.key, req.player);
        SwapKeeps(c, room, o, req.key, req.player);
        FinishTold(c, Append(room1, e), req.key, e);
        CompletionStays(c, room, e1, req.key, |board|);
        CompletionStays(c, room1, e, req.key, |board|);
      }
    }
  }

  lemma DraftedElsewhereTold(board: Board, event: nat, player: nat)
    ensures player !in DraftedElsewhere(board, event) <==>
            forall o :: o in board && board[o].player == player ==> board[o].event.id == event
  {
  }

  // ---------------------------------------------------------------- what an accepted pick request leaves

  /** A live session whose board is full is completed; nothing but the log and the status changes. */
  ghost predicate LeavesSession(c: Config, room: Room, later: Room) {
    && later.conflicts == room.conflicts && later.sourceMode == room.sourceMode && later.replays == room.replays
    && later.status == (if room.status == Live && |Replay(later.log)| == c.teamCount * c.roundCount then Completed
                        else room.status)
  }

  lemma FinishLeaves(c: Config, room: Room, key: string, e: Event)
    requires ValidConfig(c) && Sound(c, room) && FindKey(room.log, key) == Some(e) && Finish(c, room, key, e).Done?
    ensures LeavesSession(c, room, Finish(c, room, key, e).room)
  {
    hide Replay, FindKey, Sound, Grows;
    FinishKeeps(c, room, key, e);
  }

  lemma PickLeavesSession(c: Config, room: Room, req: PickRequest)
    requires ValidConfig(c) && Sound(c, room) && KeyIsNew(room, req.key) && AppendPick(c, room, req).Done?
    ensures LeavesSession(c, room, AppendPick(c, room, req).room)
  {
    hide Replay, FindKey, Finish, Sound, PickOutcome, ActiveTarget, LeavesSession, Grows, RecordProblem;
    NewKeyTold(room, req.key);
    var board := Replay(room.log);
    if req.kind == Record {
      var e := RecordEvent(c, room, board, req);
      RecordKeeps(c, room, req);
      FinishLeaves(c, Append(room, e), req.key, e);
      SameSession(c, room, Append(room, e), AppendPick(c, room, req).room);
    } else {
      var o := ActiveTarget(board, req.target).value;
      TargetTold(c, room, req.target);
      if req.kind == Reverse {
        var e := ReverseEvent(room, board[o], req.key);
        ReverseKeeps(c, room, req);
        FinishLeaves(c, Append(room, e), req.key, e);
        SameSession(c, room, Append(room, e), AppendPick(c, room, req).room);
      } else {
        var room1 := Append(room, ReverseEvent(room, board[o], req.key + ":reverse"));
        var e := ReplaceEvent(room1, board[o], req.key, req.player);
        SwapKeeps(c, room, o, req.key, req.player);
        FinishLeaves(c, Append(room1, e), req.key, e);
        SameSession(c, room, Append(room1, e), AppendPick(c, room, req).room);
      }
    }
  }

  lemma SameSession(c: Config, room: Room, mid: Room, later: Room)
    requires LeavesSession(c, mid, later)
    requires mid.conflicts == room.conflicts && mid.sourceMode == room.sourceMode && mid.replays == room.replays
    requires mid.status == room.status
    ensures LeavesSession(c, room, later)
  {
    hide Replay;
  }

  // ---------------------------------------------------------------- rows

  /** The player whom the owner maps, or else the one the provider names, may take the pick of the row. */
  ghost predicate CanAccept(c: Config, room: Room, row: Conflict, mapped: Option<nat>) {
    var board, o := Replay(room.log), row.incoming.overall;
    && (exists player: nat :: IsKnown(c, player)
          && (mapped == Some(player) || (mapped == None && row.incoming.playerId == Some(player))))
    && (o in board || o == |board| + 1)
    && KeyIsNew(room, ResolutionKey(row)) && (o in board ==> KeyIsNew(room, ResolutionKey(row) + ":reverse"))
  }

  /** A choice is taken for every row there is, and an open row is accepted exactly when its pick can be placed. */
  lemma ChoiceExactlyWhen(c: Config, room: Room, id: nat, r: Resolution)
    requires ValidConfig(c) && RowsSound(room.conflicts)
    ensures
      ResolveConflict(c, room, id, r).Accepted? <==>
        && r.expected == room.currentSequence && id < |room.conflicts|
        && (room.conflicts[id].status == Unresolved && r.action in {AcceptIncoming, MapPlayerAndAccept} ==>
              CanAccept(c, room, room.conflicts[id], r.player))
  {
    hide Replay, FindKey, SnakeSlot, SnakeRound, KeyIsNew, ResolutionKey;
    if id < |room.conflicts| {
      NewKeyTold(room, ResolutionKey(room.conflicts[id]));
      NewKeyTold(room, ResolutionKey(room.conflicts[id]) + ":reverse");
    }
  }
}
