/**
  The draft session as an object whose fields the requests change. Every method brings the
  fields to what the value-level room says, and an error leaves them as they were.
*/
module DraftSession {
  import opened Wrappers
  import opened DraftLog
  import opened DraftRoom
  import opened DraftLaws
  import Reconciling
  import DraftRuns

  datatype Answer = Recorded(event: Event) | Failed(error: DraftError)

  datatype Reply = Committed | Conflicted(error: DraftError)

  class Session {
    const config: Config
    var status: SessionStatus
    var sourceMode: SourceMode
    var log: Log
    var currentSequence: nat
    var nextEventId: nat
    var conflicts: seq<Conflict>
    var replays: nat

    function State(): Room
      reads this
    {
      Room(status, sourceMode, log, currentSequence, nextEventId, conflicts, replays)
    }

    ghost predicate Valid()
      reads this
    {
      ValidConfig(config) && Sound(config, State())
    }

    constructor (config: Config, mode: SourceMode)
      requires ValidConfig(config)
      ensures Valid() && this.config == config && State() == DraftRuns.FreshRoom(mode)
    {
      this.config := config;
      status, sourceMode, log, currentSequence, nextEventId, conflicts, replays := IsReady, mode, [], 0, 1, [], 0;
      new;
      DraftRuns.FreshRoomIsSound(config, mode);
    }

    /** Adds the next event; its number and sequence are the next ones. */
    method AddEvent(kind: EventKind, key: string, overall: Option<nat>, round: Option<nat>, slot: Option<nat>,
                    player: Option<nat>, supersedes: Option<nat>)
      returns (e: Event)
      modifies this
      ensures e == NextEvent(old(State()), kind, key, overall, round, slot, player, supersedes)
      ensures State() == Append(old(State()), e)
    {
      currentSequence := currentSequence + 1;
      e := Event(nextEventId, currentSequence, kind, overall, round, slot, player, key, supersedes);
      nextEventId := nextEventId + 1;
      log := log + [e];
    }

    method ExistingEvent(key: string) returns (r: Option<Event>)
      ensures r == FindKey(log, key)
    {
      var i := |log|;
      assert log[..i] == log;
      while i > 0
        invariant 0 <= i <= |log| && FindKey(log, key) == FindKey(log[..i], key)
      {
        assert log[..i][..i - 1] == log[..i - 1];
        if log[i - 1].key == key {
          return Some(log[i - 1]);
        }
        i := i - 1;
      }
      r := None;
    }

    /** Undoes everything since the given state. */
    method Rollback(status: SessionStatus, log: Log, currentSequence: nat, nextEventId: nat, ghost was: Room)
      requires was == State().(status := status, log := log, currentSequence := currentSequence, nextEventId := nextEventId)
      modifies this
      ensures State() == was
    {
      this.status, this.log, this.currentSequence, this.nextEventId := status, log, currentSequence, nextEventId;
    }

    method CloseFullBoard(key: string, event: Event, status0: SessionStatus, log0: Log, sequence0: nat, next0: nat,
                          ghost was: Room)
      returns (r: Answer)
      requires was == State().(status := status0, log := log0, currentSequence := sequence0, nextEventId := next0)
      modifies this
      ensures
        match Finish(config, old(State()), key, event)
        case Done(room, e) => State() == room && r == Recorded(e)
        case Refused(error) => State() == was && r == Failed(error)
    {
      var board := ReducePicks(log);
      if |board| == TotalPicks(config) && status == Live {
        var clash := ExistingEvent(key + ":complete");
        if clash.Some? {
          Rollback(status0, log0, sequence0, next0, was);
          return Failed(DraftConflict);
        }
        var note := AddEvent(SessionCompleted, key + ":complete", None, None, None, None, None);
        status := Completed;
      }
      r := Recorded(event);
    }

    /** Records, undoes or replaces a pick. */
    method AppendPickEvent(req: PickRequest) returns (r: Answer)
      requires Valid()
      modifies this
      ensures Valid()
      ensures
        match AppendPick(config, old(State()), req)
        case Done(room, e) => State() == room && r == Recorded(e)
        case Refused(error) => State() == old(State()) && r == Failed(error)
    {
      hide FindKey, Replay, Sound, RecordProblem, ActiveTarget, PlayerProblem, Drafted, DraftedElsewhere, Finish,
           SnakeRound, SnakeSlot;
      ghost var was := State();
      if AppendPick(config, was, req).Done? {
        AppendPickKeeps(config, was, req);
      }
      var existing := ExistingEvent(req.key);
      if existing.Some? {
        return Recorded(existing.value);
      }
      if currentSequence != req.expected {
        return Failed(DraftConflict);
      }
      var status0, log0, sequence0, next0 := status, log, currentSequence, nextEventId;
      var board := ReducePicks(log);
      if req.kind.Record? {
        var problem := RecordProblem(config, State(), board, req);
        if problem.Some? {
          return Failed(problem.value);
        }
        var overall := |board| + 1;
        var event := AddEvent(PickRecorded, req.key, Some(overall), Some(SnakeRound(overall, config.teamCount)),
                              Some(SnakeSlot(overall, config.teamCount)), Some(req.player), None);
        r := CloseFullBoard(req.key, event, status0, log0, sequence0, next0, was);
        return;
      }
      if status != Live && status != Paused {
        return Failed(SessionState);
      }
      var at := ActiveTarget(board, req.target);
      if at.None? {
        return Failed(PickNotActive);
      }
      var target := board[at.value];
      if req.kind.Reverse? {
        if target.overall != |board| {
          return Failed(InvalidOrder);
        }
        var event := AddEvent(PickReversed, req.key, Some(target.overall), Some(target.round), Some(target.teamSlot), None,
                              Some(target.event.id));
        r := CloseFullBoard(req.key, event, status0, log0, sequence0, next0, was);
        return;
      }
      var problem := PlayerProblem(config, req.player);
      if problem.Some? {
        return Failed(problem.value);
      }
      if req.player in DraftedElsewhere(board, target.event.id) {
        return Failed(DuplicatePick);
      }
      var clash := ExistingEvent(req.key + ":reverse");
      if clash.Some? {
        return Failed(DraftConflict);
      }
      var undone := AddEvent(PickReversed, req.key + ":reverse", Some(target.overall), Some(target.round),
                             Some(target.teamSlot), None, Some(target.event.id));
      var event := AddEvent(PickReplaced, req.key, Some(target.overall), Some(target.round), Some(target.teamSlot),
                            Some(req.player), Some(target.event.id));
      r := CloseFullBoard(req.key, event, status0, log0, sequence0, next0, was);
    }

    /** Starts, pauses, resumes, completes, abandons or reopens the session. */
    method TransitionSession(req: ActionRequest, ready: bool) returns (r: Answer)
      requires Valid()
      modifies this
      ensures Valid()
      ensures
        match Transition(config, old(State()), req, ready)
        case Done(room, e) => State() == room && r == Recorded(e)
        case Refused(error) => State() == old(State()) && r == Failed(error)
    {
      hide FindKey, Replay, Sound;
      ghost var was := State();
      if Transition(config, was, req, ready).Done? {
        TransitionKeeps(config, was, req, ready);
      }
      var existing := ExistingEvent(req.key);
      if existing.Some? {
        return Recorded(existing.value);
      }
      if currentSequence != req.expected {
        return Failed(DraftConflict);
      }
      if !AllowedFrom(req.action, status) {
        return Failed(SessionState);
      }
      if req.action.Start? && !ready {
        return Failed(NotReady);
      }
      if (req.action.Reopen? || req.action.Abandon?) && !req.hasReason {
        return Failed(ReasonRequired);
      }
      var board := ReducePicks(log);
      var early := req.action.CompleteDraft? && |board| < TotalPicks(config);
      if early && !req.hasReason {
        return Failed(ReasonRequired);
      }
      var event := AddEvent(KindOf(req.action), req.key, None, None, None, None, None);
      status := StatusAfter(req.action);
      if req.action.Reopen? {
        replays := replays + 1;
      }
      r := Recorded(event);
    }

    /** Opens or reopens the conflict row of an observation. */
    method Proposal(o: Observation, canonical: Option<nat>)
      modifies this
      ensures State() == Propose(old(State()), o, canonical)
    {
      var at := FindConflict(conflicts, o);
      if at.None? {
        conflicts := conflicts + [Conflict(|conflicts|, Unresolved, canonical, o, currentSequence, None, [])];
      } else if Reopens(conflicts[at.value]) {
        conflicts := conflicts[at.value := conflicts[at.value].(status := Unresolved, canonicalEvent := canonical,
          detected := currentSequence, action := None, resolving := [])];
      }
    }

    /** Adds a provider's event. */
    method AddProviderEvent(kind: EventKind, o: Observation, slot: nat, player: nat, supersedes: Option<nat>)
      returns (e: Event)
      requires ValidConfig(config) && o.overall >= 1
      modifies this
      ensures e == ProviderEvent(config, old(State()), kind, o, slot, player, supersedes)
      ensures State() == Append(old(State()), e)
    {
      e := AddEvent(kind, ObservationKey(sourceMode, o), Some(o.overall), Some(SnakeRound(o.overall, config.teamCount)),
                    Some(slot), Some(player), supersedes);
    }

    /** Closes the open row of an observation that was just applied. */
    method CloseRowOf(o: Observation, eventId: nat)
      modifies this
      ensures State() == AutoResolve(old(State()), o, eventId)
    {
      var at := FindConflict(conflicts, o);
      if at.Some? && conflicts[at.value].status == Unresolved {
        conflicts := conflicts[at.value :=
          conflicts[at.value].(status := Resolved, action := Some(AutoApplied), resolving := [eventId])];
      }
    }

    /** One observation against the board carried along. */
    method Observe(canonical: Board, o: Observation) returns (board: Board, applied: Option<nat>)
      requires ValidConfig(config) && o.overall >= 1
      modifies this
      ensures ReconcileOne(config, old(State()), canonical, o) == Step(State(), board, applied)
    {
      hide FindKey, FindConflict, Propose, AutoResolve, MatchesPlaceholder, SnakeSlot, SnakeRound, PlayerFor, TotalPicks;
      board, applied := canonical, None;
      if o.overall > TotalPicks(config) {
        Proposal(o, None);
        return;
      }
      var player := PlayerFor(config, o);
      var existing := ExistingEvent(ObservationKey(sourceMode, o));
      if player.Some? && o.overall in board && board[o.overall].player == player.value {
        if existing.None? {
          var e := AddProviderEvent(ProviderConfirmed, o, board[o.overall].teamSlot, player.value, None);
        }
        return;
      }
      var safeUpgrade :=
        && IsAuthoritative(sourceMode) && player.Some? && existing.None? && o.overall in board
        && o.teamSlot == board[o.overall].teamSlot && o.teamSlot == SnakeSlot(o.overall, config.teamCount)
        && MatchesPlaceholder(config, board[o.overall].player, player.value, o.overall);
      if safeUpgrade {
        var e := AddProviderEvent(PickReplaced, o, o.teamSlot, player.value, Some(board[o.overall].event.id));
        board := board[o.overall := PickOf(o.overall, e)];
        CloseRowOf(o, e.id);
        applied := Some(e.id);
        return;
      }
      var safeNewPick :=
        && player.Some? && existing.None? && o.overall !in board && o.overall == |board| + 1
        && o.teamSlot == SnakeSlot(o.overall, config.teamCount);
      if IsAuthoritative(sourceMode) && safeNewPick {
        var e := AddProviderEvent(PickRecorded, o, o.teamSlot, player.value, None);
        board := board[o.overall := PickOf(o.overall, e)];
        CloseRowOf(o, e.id);
        applied := Some(e.id);
        return;
      }
      Proposal(o, if o.overall in board then Some(board[o.overall].event.id) else None);
    }

    /** Takes over a provider's batch, the board carried along instead of replayed. */
    method ReconcileObservations(observations: seq<Observation>, expected: nat) returns (r: Reply)
      requires Valid() && Reconciling.Positive(observations)
      modifies this
      ensures Valid()
      ensures
        match Reconcile(config, old(State()), observations, expected)
        case Accepted(room) => State() == room && r == Committed
        case Rejected(error) => State() == old(State()) && r == Conflicted(error)
      ensures Reconciling.KeepsPicks(Replay(old(log)), Replay(log))
    {
      hide FindKey, Replay, Sound, ReconcileOne, SortObservations, Grows, Reconciling.KeepsPicks;
      ghost var was := State();
      SamePicks(Replay(log));
      if Reconcile(config, was, observations, expected).Accepted? {
        Reconciling.ReconcileKeeps(config, was, observations, expected);
      }
      if currentSequence != expected {
        return Conflicted(DraftConflict);
      }
      var status0, log0, sequence0, next0, rows0 := status, log, currentSequence, nextEventId, conflicts;
      var canonical := ReducePicks(log);
      var sorted := SortObservations(observations);
      Reconciling.SortedIsPositive(observations);
      var last: Option<nat> := None;
      for i := 0 to |sorted|
        invariant ReconcileAll(config, was, Replay(was.log), sorted[..i]) == Pass(State(), canonical, last)
        invariant sourceMode == was.sourceMode && replays == was.replays && status == was.status
      {
        assert sorted[..i + 1][..i] == sorted[..i];
        StepKeepsMode(config, State(), canonical, sorted[i]);
        var applied;
        canonical, applied := Observe(canonical, sorted[i]);
        if applied.Some? {
          last := applied;
        }
      }
      assert sorted[..|sorted|] == sorted;
      if last.Some? && |canonical| == TotalPicks(config) && status == Live {
        var key := "yahoo-auto-complete:" + Digits(last.value);
        var clash := ExistingEvent(key);
        if clash.Some? {
          conflicts := rows0;
          Rollback(status0, log0, sequence0, next0, was);
          return Conflicted(KeyTaken);
        }
        var note := AddEvent(SessionCompleted, key, None, None, None, None, None);
        status := Completed;
      }
      r := Committed;
    }

    /** Moves the session to another source; automatic modes follow their approval mode. */
    method ChangeSourceMode(mode: SourceMode, expected: nat, cleared: bool) returns (r: Reply)
      requires Valid()
      modifies this
      ensures Valid()
      ensures
        match ChangeMode(config, old(State()), mode, expected, cleared)
        case Accepted(room) => State() == room && r == Committed
        case Rejected(error) => State() == old(State()) && r == Conflicted(error)
    {
      hide FindKey, Replay, Sound, Digits;
      ghost var was := State();
      if ChangeMode(config, was, mode, expected, cleared).Accepted? {
        ChangeModeKeeps(config, was, mode, expected, cleared);
      }
      if currentSequence != expected {
        return Conflicted(DraftConflict);
      }
      if IsAuthoritative(mode) {
        if sourceMode != ShadowOf(mode) {
          return Conflicted(ShadowRequired);
        }
        if !cleared {
          return Conflicted(EvidenceRequired);
        }
      }
      var key := "source-mode:" + Digits(currentSequence + 1) + ":" + ModeName(mode);
      var clash := ExistingEvent(key);
      if clash.Some? {
        return Conflicted(KeyTaken);
      }
      var event := AddEvent(SourceModeChanged, key, None, None, None, None, None);
      sourceMode := mode;
      r := Committed;
    }

    /** Settles a conflict row by keeping the board or by giving the pick away. */
    method Resolve(id: nat, choice: Resolution) returns (r: Reply)
      requires Valid()
      modifies this
      ensures Valid()
      ensures RowsSound(old(conflicts))
      ensures
        match ResolveConflict(config, old(State()), id, choice)
        case Accepted(room) => State() == room && r == Committed
        case Rejected(error) => State() == old(State()) && r == Conflicted(error)
    {
      hide FindKey, Replay, Sound, Digits, SnakeRound, SnakeSlot, Reconciling.Takes, Grows;
      ghost var was := State();
      DraftRuns.SoundBoundary(config, was);
      if ResolveConflict(config, was, id, choice).Accepted? {
        DraftRuns.ResolveKeeps(config, was, id, choice);
      }
      if currentSequence != choice.expected {
        return Conflicted(DraftConflict);
      }
      if id >= |conflicts| {
        return Conflicted(NoSuchConflict);
      }
      var row := conflicts[id];
      if row.status != Unresolved {
        return Committed;
      }
      if choice.action == KeepCanonical || choice.action == IgnoreIncoming {
        conflicts := conflicts[id := row.(status := if choice.action == IgnoreIncoming then Ignored else Resolved,
                                          action := Some(choice.action))];
        return Committed;
      }
      var player := if choice.player.Some? then choice.player else row.incoming.playerId;
      if player.None? || PlayerProblem(config, player.value).Some? {
        return Conflicted(IdentityPending);
      }
      var board := ReducePicks(log);
      var key, o := ResolutionKey(row), row.incoming.overall;
      var clash := ExistingEvent(key);
      var resolving: seq<nat>;
      if o in board {
        var reverseClash := ExistingEvent(key + ":reverse");
        if reverseClash.Some? || clash.Some? {
          return Conflicted(KeyTaken);
        }
        var target := board[o];
        var round := SnakeRound(o, config.teamCount);
        var undone := AddEvent(PickReversed, key + ":reverse", Some(target.overall), Some(round), Some(target.teamSlot),
                               None, Some(target.event.id));
        var event := AddEvent(PickReplaced, key, Some(target.overall), Some(round), Some(target.teamSlot), player,
                              Some(target.event.id));
        resolving := [undone.id, event.id];
      } else {
        if o != |board| + 1 {
          return Conflicted(InvalidOrder);
        }
        if clash.Some? {
          return Conflicted(KeyTaken);
        }
        var event := AddEvent(PickRecorded, key, Some(o), Some(SnakeRound(o, config.teamCount)),
                              Some(SnakeSlot(o, config.teamCount)), player, None);
        resolving := [event.id];
      }
      conflicts := conflicts[id := row.(status := Resolved, action := Some(choice.action), resolving := resolving)];
      r := Committed;
    }
  }

  lemma SamePicks(board: Board)
    ensures Reconciling.KeepsPicks(board, board)
  {
  }

  lemma StepKeepsMode(c: Config, room: Room, board: Board, o: Observation)
    requires ValidConfig(c) && o.overall >= 1
    ensures
      var later := ReconcileOne(c, room, board, o).room;
      later.sourceMode == room.sourceMode && later.replays == room.replays && later.status == room.status
  {
    hide FindKey, FindConflict, MatchesPlaceholder, SnakeSlot;
  }
}
