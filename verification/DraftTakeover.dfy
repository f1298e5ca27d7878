/**
  When a completed draft reaches the league roster: requests that complete it take it over in the same step,
  a batch that completes it does not.
*/
module DraftTakeover {
  import opened DraftLog
  import opened DraftRoom
  import opened DraftLaws
  import opened Reconciling
  import opened DraftRuns
  import opened DraftRoster
  import opened DraftFeeds

  datatype League = League(room: Room, owners: Owners)

  /** The roster can also be taken over later, by a request of its own. */
  datatype LeagueCommand = Ask(command: Command) | TakeOver

  lemma PerformIsSound(c: Config, room: Room, cmd: Command)
    requires ValidConfig(c) && Sound(c, room) && WellFormed(cmd)
    ensures RowsSound(room.conflicts)
    ensures Sound(c, Perform(c, room, cmd)) && Gapless(Replay(Perform(c, room, cmd).log)) && Gapless(Replay(room.log))
  {
    hide Sound, Perform, Replay, Gapless, Grows;
    SoundBoundary(c, room);
    PerformKeeps(c, room, cmd);
    SoundBoundary(c, Perform(c, room, cmd));
  }

  /** Pick requests and session actions take a draft over when they complete it. */
  ghost function LeagueStep(c: Config, teams: map<nat, string>, l: League, cmd: LeagueCommand): (next: League)
    requires ValidConfig(c) && Sound(c, l.room) && (cmd.Ask? ==> WellFormed(cmd.command))
    ensures Sound(c, next.room) && next.owners.Keys == l.owners.Keys
  {
    hide Sound, Perform, Replay, Gapless, Assign;
    SoundBoundary(c, l.room);
    match cmd
    case TakeOver => League(l.room, TakenOver(c, l.room, teams, l.owners))
    case Ask(command) =>
      PerformIsSound(c, l.room, command);
      var later := Perform(c, l.room, command);
      if (command.PickCommand? || command.ActionCommand?) && l.room.status != Completed
      then League(later, TakenOver(c, later, teams, l.owners))
      else League(later, l.owners)
  }

  ghost predicate LeagueWellFormed(cmds: seq<LeagueCommand>) {
    forall i :: 0 <= i < |cmds| ==> cmds[i].Ask? ==> WellFormed(cmds[i].command)
  }

  ghost function LeagueRun(c: Config, teams: map<nat, string>, l: League, cmds: seq<LeagueCommand>): (later: League)
    requires ValidConfig(c) && Sound(c, l.room) && LeagueWellFormed(cmds)
    ensures Sound(c, later.room) && later.owners.Keys == l.owners.Keys
  {
    if |cmds| == 0 then l
    else LeagueStep(c, teams, LeagueRun(c, teams, l, cmds[..|cmds| - 1]), cmds[|cmds| - 1])
  }

  // ---------------------------------------------------------------- requests keep the roster in step

  /** Once a live draft is completed on a full board, the roster shows it. */
  ghost predicate InStep(c: Config, teams: map<nat, string>, l: League)
    requires ValidConfig(c)
  {
    c.kind == LiveDraft && l.room.status == Completed && |Replay(l.room.log)| == TotalPicks(c) ==>
      RosteredFrom(c, Replay(l.room.log), teams, l.owners)
  }

  ghost predicate KnownLeague(c: Config, teams: map<nat, string>, owners: Owners) {
    owners.Keys == c.players.Keys && forall s :: 1 <= s <= c.teamCount ==> s in teams
  }

  lemma TakeOverIsInStep(c: Config, teams: map<nat, string>, room: Room, owners: Owners)
    requires ValidConfig(c) && Sound(c, room) && NoRepeat(Replay(room.log)) && KnownLeague(c, teams, owners)
    ensures Gapless(Replay(room.log)) && InStep(c, teams, League(room, TakenOver(c, room, teams, owners)))
  {
    hide Replay, Sound, NoRepeat, RosteredFrom, Assign, AllFree, InOrderPicks, Gapless;
    SoundBound(c, room);
    if c.kind == LiveDraft && room.status == Completed && |Replay(room.log)| == TotalPicks(c) {
      FullBoardRosters(c, room, teams, owners);
    }
  }

  /** A request on a completed session leaves the board, or reopens the session. */
  lemma CompletedStays(c: Config, room: Room, cmd: Command)
    requires ValidConfig(c) && Sound(c, room) && WellFormed(cmd) && ByRequest(cmd) && RowsSound(room.conflicts)
    requires room.status == Completed && Perform(c, room, cmd).status == Completed
    ensures Replay(Perform(c, room, cmd).log) == Replay(room.log)
  {
    hide Replay, FindKey, Sound, Grows;
    match cmd {
      case PickCommand(req) =>
      case ActionCommand(req, ready) =>
        if Transition(c, room, req, ready).Done? { TransitionKeeps(c, room, req, ready); }
      case ModeCommand(mode, when, cleared) =>
        if ChangeMode(c, room, mode, when, cleared).Accepted? { ChangeModeKeeps(c, room, mode, when, cleared); }
    }
  }

  /** Neither a mode change nor a resolved row completes a session. */
  lemma RowsKeepStatus(c: Config, room: Room, cmd: Command)
    requires ValidConfig(c) && WellFormed(cmd) && RowsSound(room.conflicts)
    ensures cmd.ModeCommand? || cmd.ResolveCommand? ==> Perform(c, room, cmd).status == room.status
  {
    hide FindKey, Replay, Digits, ResolutionKey, SnakeSlot, SnakeRound;
  }

  lemma StepStaysInStep(c: Config, teams: map<nat, string>, l: League, cmd: LeagueCommand)
    requires ValidConfig(c) && Sound(c, l.room) && NoRepeat(Replay(l.room.log)) && KnownLeague(c, teams, l.owners)
    requires cmd.Ask? ==> WellFormed(cmd.command) && ByRequest(cmd.command)
    requires InStep(c, teams, l)
    ensures InStep(c, teams, LeagueStep(c, teams, l, cmd)) && NoRepeat(Replay(LeagueStep(c, teams, l, cmd).room.log))
  {
    hide Replay, Sound, NoRepeat, RosteredFrom, TakenOver, Perform, KnownLeague, Grows;
    SoundBoundary(c, l.room);
    match cmd {
      case TakeOver => TakeOverIsInStep(c, teams, l.room, l.owners);
      case Ask(command) =>
        PerformKeeps(c, l.room, command);
        PerformNeverRepeats(c, l.room, command);
        var later := Perform(c, l.room, command);
        TakeOverIsInStep(c, teams, later, l.owners);
        if l.room.status == Completed && later.status == Completed {
          CompletedStays(c, l.room, command);
        }
        RowsKeepStatus(c, l.room, command);
    }
  }

  /** Whatever requests are made, in any order, a live draft completed on a full board is on the roster. */
  lemma {:induction false} RequestsKeepInStep(c: Config, teams: map<nat, string>, l: League, cmds: seq<LeagueCommand>)
    requires ValidConfig(c) && Sound(c, l.room) && NoRepeat(Replay(l.room.log)) && KnownLeague(c, teams, l.owners)
    requires LeagueWellFormed(cmds) && forall i :: 0 <= i < |cmds| ==> cmds[i].Ask? ==> ByRequest(cmds[i].command)
    requires InStep(c, teams, l)
    ensures
      var later := LeagueRun(c, teams, l, cmds);
      InStep(c, teams, later) && NoRepeat(Replay(later.room.log))
  {
    hide Replay, Sound, NoRepeat, InStep, LeagueStep;
    if |cmds| > 0 {
      var n := |cmds| - 1;
      RequestsKeepInStep(c, teams, l, cmds[..n]);
      StepStaysInStep(c, teams, LeagueRun(c, teams, l, cmds[..n]), cmds[n]);
    }
  }

  // ---------------------------------------------------------------- batches do not

  /**
    The step that completes a live draft on a full board of different players leaves a roster that shows it,
    except when a batch completes it and the roster did not show that board before.
  */
  lemma CompletionIsShownExactlyWhen(c: Config, teams: map<nat, string>, l: League, cmd: Command)
    requires ValidConfig(c) && Sound(c, l.room) && WellFormed(cmd) && KnownLeague(c, teams, l.owners) && c.kind == LiveDraft
    requires RowsSound(l.room.conflicts) && l.room.status != Completed && Perform(c, l.room, cmd).status == Completed
    requires var board := Replay(Perform(c, l.room, cmd).log); |board| == TotalPicks(c) && NoRepeat(board)
    ensures
      InStep(c, teams, LeagueStep(c, teams, l, Ask(cmd))) <==>
      !cmd.SyncCommand? || RosteredFrom(c, Replay(Perform(c, l.room, cmd).log), teams, l.owners)
  {
    hide Replay, Sound, NoRepeat, RosteredFrom, TakenOver, Perform, KnownLeague, Grows;
    PerformKeeps(c, l.room, cmd);
    TakeOverIsInStep(c, teams, Perform(c, l.room, cmd), l.owners);
    RowsKeepStatus(c, l.room, cmd);
  }

  function Asks(cmds: seq<Command>): (asks: seq<LeagueCommand>)
    ensures |asks| == |cmds| && forall i :: 0 <= i < |asks| ==> asks[i] == Ask(cmds[i])
  {
    seq(|cmds|, i requires 0 <= i < |cmds| => Ask(cmds[i]))
  }

  /** The room of a league run is the room of the run. */
  lemma {:induction false} LeagueRoom(c: Config, teams: map<nat, string>, l: League, cmds: seq<Command>)
    requires ValidConfig(c) && Sound(c, l.room) && AllWellFormed(cmds)
    ensures LeagueWellFormed(Asks(cmds)) && LeagueRun(c, teams, l, Asks(cmds)).room == Run(c, l.room, cmds)
  {
    hide Sound, Perform, Replay, TakenOver;
    if |cmds| > 0 {
      var n := |cmds| - 1;
      LeagueRoom(c, teams, l, cmds[..n]);
      assert Asks(cmds)[..n] == Asks(cmds[..n]);
    }
  }

  /** The roster stays while no request completes the draft. */
  lemma {:induction false} OwnersStay(c: Config, teams: map<nat, string>, l: League, cmds: seq<Command>)
    requires ValidConfig(c) && Sound(c, l.room) && AllWellFormed(cmds) && LeagueWellFormed(Asks(cmds))
    requires forall i :: 0 <= i < |cmds| ==> NotCompleted(c, l.room, cmds, i)
    ensures LeagueRun(c, teams, l, Asks(cmds)).owners == l.owners
  {
    hide Sound, Perform, Replay, Assign;
    if |cmds| > 0 {
      var n := |cmds| - 1;
      forall i | 0 <= i < n ensures NotCompleted(c, l.room, cmds[..n], i) {
        assert NotCompleted(c, l.room, cmds, i);
        assert cmds[..n][..i + 1] == cmds[..i + 1];
      }
      OwnersStay(c, teams, l, cmds[..n]);
      LeagueRoom(c, teams, l, cmds[..n]);
      assert Asks(cmds)[..n] == Asks(cmds[..n]);
      assert NotCompleted(c, l.room, cmds, n) && cmds[..n + 1] == cmds;
    }
  }

  ghost predicate NotCompleted(c: Config, room: Room, cmds: seq<Command>, i: nat)
    requires ValidConfig(c) && Sound(c, room) && AllWellFormed(cmds) && i < |cmds|
  {
    cmds[i].PickCommand? || cmds[i].ActionCommand? ==> Run(c, room, cmds[..i + 1]).status != Completed
  }

  /** A draft that a batch completes in a league without a roster leaves it without one. */
  lemma SyncedDraftIsNotTakenOver(c: Config, teams: map<nat, string>, owners: Owners, who: seq<nat>)
    requires LegalConfig(c) && c.kind == LiveDraft && Named(c, who) && |who| == TotalPicks(c)
    requires KnownLeague(c, teams, owners) && forall p :: p in owners ==> owners[p] == Free
    ensures Sound(c, FreshRoom(ScrapeShadow)) && LeagueWellFormed(Asks(FeedRun(c, Start, who)))
    ensures
      var later := LeagueRun(c, teams, League(FreshRoom(ScrapeShadow), owners), Asks(FeedRun(c, Start, who)));
      && later.room.status == Completed && Filled(Replay(later.room.log), who)
      && later.owners == owners && !InStep(c, teams, later)
  {
    hide Sound, Replay, Run, FindKey, Perform, LeagueRun, NoRepeat;
    var start, cmds := League(FreshRoom(ScrapeShadow), owners), FeedRun(c, Start, who);
    EightPicks(c);
    FullFeedCompletes(c, who);
    LeagueRoom(c, teams, start, cmds);
    forall i | 0 <= i < |cmds| ensures NotCompleted(c, start.room, cmds, i) {
      if i == 1 {
        RunOpens(c, Start, who);
      }
    }
    OwnersStay(c, teams, start, cmds);
    var later := LeagueRun(c, teams, start, Asks(cmds));
    NotRostered(c, teams, later, who);
  }

  lemma NotRostered(c: Config, teams: map<nat, string>, l: League, who: seq<nat>)
    requires ValidConfig(c) && Sound(c, l.room) && KnownLeague(c, teams, l.owners) && |who| > 0
    requires c.kind == LiveDraft && l.room.status == Completed && |who| == TotalPicks(c) && Filled(Replay(l.room.log), who)
    requires forall p :: p in l.owners ==> l.owners[p] == Free
    ensures !InStep(c, teams, l)
  {
    hide Replay;
    var board := Replay(l.room.log);
    assert 1 in board && board[1].player in l.owners && board[1].teamSlot in teams;
  }
}
