/**
  Runs from a new room in which the guards of a draft end: a player drafted twice, a board that outgrows
  the draft, picks in an abandoned session, a completed draft that no roster shows.
*/
module DraftFeeds {
  import opened Sorting
  import opened Wrappers
  import opened DraftLog
  import opened DraftRoom
  import opened DraftLaws
  import opened Reconciling
  import opened DraftRuns
  import opened DraftLimits

  // ---------------------------------------------------------------- a feed that fills the board

  /** The settings a session can have. */
  ghost predicate LegalConfig(c: Config) {
    8 <= c.teamCount <= 16 && 1 <= c.roundCount <= 30 && 1 <= c.ownerSlot <= c.teamCount
  }

  /** The players a provider names for the overalls from one on; each is an identified player of the league. */
  ghost predicate Named(c: Config, who: seq<nat>) {
    forall i :: 0 <= i < |who| ==> PlayerProblem(c, who[i]).None?
  }

  /** The provider's entry for one overall. */
  function Entry(c: Config, overall: nat, player: nat): Observation
    requires ValidConfig(c) && overall >= 1
  {
    Observation("draft-pick:" + Digits(overall), "1", overall, SnakeSlot(overall, c.teamCount), Some(player), None)
  }

  /** One entry for each overall, in order. */
  function Feed(c: Config, who: seq<nat>): (obs: seq<Observation>)
    requires ValidConfig(c)
    ensures |obs| == |who| && forall i :: 0 <= i < |obs| ==> obs[i] == Entry(c, i + 1, who[i])
    ensures Positive(obs)
  {
    seq(|who|, i requires 0 <= i < |who| => Entry(c, i + 1, who[i]))
  }

  lemma {:induction false} DigitsDiffer(m: nat, n: nat)
    requires Digits(m) == Digits(n)
    ensures m == n
  {
    var a, b := Digits(m), Digits(n);
    assert a[|a| - 1] == b[|b| - 1];
    if m >= 10 && n >= 10 {
      assert a[..|a| - 1] == Digits(m / 10) && b[..|b| - 1] == Digits(n / 10);
      DigitsDiffer(m / 10, n / 10);
    } else {
      DigitsNotEmpty(m / 10);
      DigitsNotEmpty(n / 10);
    }
  }

  lemma DigitsNotEmpty(n: nat)
    ensures |Digits(n)| >= 1
  {
  }

  /** Entries of two overalls have different keys. */
  lemma EntryKeysDiffer(c: Config, mode: SourceMode, m: nat, n: nat, p: nat, q: nat)
    requires ValidConfig(c) && m >= 1 && n >= 1 && m != n
    ensures ObservationKey(mode, Entry(c, m, p)) != ObservationKey(mode, Entry(c, n, q))
  {
    hide Digits, SnakeSlot, ModeName;
    var a, b := ObservationKey(mode, Entry(c, m, p)), ObservationKey(mode, Entry(c, n, q));
    if a == b {
      var k := |ModeName(mode)| + 12;
      assert a == ModeName(mode) + ":" + ("draft-pick:" + Digits(m)) + ":" + "1";
      assert b == ModeName(mode) + ":" + ("draft-pick:" + Digits(n)) + ":" + "1";
      assert a[k..|a| - 2] == Digits(m);
      assert b[k..|b| - 2] == Digits(n);
      DigitsDiffer(m, n);
    }
  }

  lemma SortedAlready(c: Config, who: seq<nat>)
    requires ValidConfig(c)
    ensures SortObservations(Feed(c, who)) == Feed(c, who)
  {
    hide Entry;
    var obs := Feed(c, who);
    forall i | 0 <= i < |obs| ensures obs[i].overall == i + 1 {
      EntryOverall(c, i + 1, who[i]);
    }
    SortedStays(obs, EarlierPick);
  }

  lemma EntryOverall(c: Config, overall: nat, player: nat)
    requires ValidConfig(c) && overall >= 1
    ensures Entry(c, overall, player).overall == overall
  {
  }

  /** A room on an automatic feed, before its first pick, that has seen none of the entries. */
  ghost predicate Awaiting(c: Config, room: Room, who: seq<nat>)
    requires ValidConfig(c)
  {
    && Sound(c, room) && Replay(room.log) == map[] && room.conflicts == []
    && room.sourceMode == ScrapeAuthoritative
    && forall i :: 0 <= i < |who| ==> FindKey(room.log, ObservationKey(ScrapeAuthoritative, Entry(c, i + 1, who[i]))).None?
  }

  /** The feed so far is on the board. */
  ghost predicate Filled(board: Board, who: seq<nat>) {
    |board| == |who| && forall o :: 1 <= o <= |who| ==> o in board && board[o].player == who[o - 1]
  }

  ghost predicate IsOther(c: Config, who: seq<nat>, key: string)
    requires ValidConfig(c)
  {
    forall i :: 0 <= i < |who| ==> key != ObservationKey(ScrapeAuthoritative, Entry(c, i + 1, who[i]))
  }

  /** Keys that are not those of the entries are found as before. */
  ghost predicate OtherKeys(c: Config, log: Log, later: Log, who: seq<nat>)
    requires ValidConfig(c)
  {
    forall key :: IsOther(c, who, key) ==> FindKey(later, key) == FindKey(log, key)
  }

  /** The next entry of a feed is recorded. */
  lemma NextEntry(c: Config, room: Room, player: nat)
    requires ValidConfig(c) && Sound(c, room) && room.conflicts == [] && IsAuthoritative(room.sourceMode)
    requires |Replay(room.log)| < TotalPicks(c) && PlayerProblem(c, player).None?
    requires FindKey(room.log, ObservationKey(room.sourceMode, Entry(c, |Replay(room.log)| + 1, player))).None?
    ensures
      var o := Entry(c, |Replay(room.log)| + 1, player);
      var s := ReconcileOne(c, room, Replay(room.log), o);
      && s.applied.Some? && s.room.conflicts == [] && |s.board| == |Replay(room.log)| + 1
      && Takes(Replay(room.log), s.board, |Replay(room.log)| + 1, player)
      && |s.room.log| == |room.log| + 1 && s.room.log == room.log + [s.room.log[|room.log|]]
      && s.room.log[|room.log|].key == ObservationKey(room.sourceMode, o)
  {
    hide Replay, FindKey, Grows, ObservationKey, SnakeSlot, InOrder, Snaked, RowsSound, TotalPicks;
    var board := Replay(room.log);
    var o := Entry(c, |board| + 1, player);
    assert o.overall !in board;
    assert Judge(c, room, board, o).Records?;
    ReconcileOneKeeps(c, room, o);
  }

  lemma EntryIsOther(c: Config, overall: nat, player: nat, who: seq<nat>)
    requires ValidConfig(c) && overall > |who|
    ensures IsOther(c, who, ObservationKey(ScrapeAuthoritative, Entry(c, overall, player)))
  {
    hide ObservationKey, Entry;
    forall i | 0 <= i < |who|
      ensures ObservationKey(ScrapeAuthoritative, Entry(c, overall, player))
              != ObservationKey(ScrapeAuthoritative, Entry(c, i + 1, who[i]))
    {
      EntryKeysDiffer(c, ScrapeAuthoritative, overall, i + 1, player, who[i]);
    }
  }

  /** A feed from the first overall on is recorded entry by entry, and leaves no row. */
  lemma {:induction false} FeedFills(c: Config, room: Room, who: seq<nat>)
    requires ValidConfig(c) && Awaiting(c, room, who) && Named(c, who) && |who| <= TotalPicks(c)
    ensures
      var p := ReconcileAll(c, room, Replay(room.log), Feed(c, who));
      && Filled(p.board, who) && OtherKeys(c, room.log, p.room.log, who) && p.room.conflicts == []
      && |p.room.log| == |room.log| + |who| && (p.lastApplied.Some? <==> |who| > 0)
  {
    hide Replay, FindKey, Grows, ObservationKey, Entry, ReconcileOne, Sound, PlayerProblem;
    var obs := Feed(c, who);
    if |who| > 0 {
      var n := |who| - 1;
      var front := who[..n];
      assert obs[..n] == Feed(c, front);
      FeedFills(c, room, front);
      CarriedBoardIsReplay(c, room, obs[..n]);
      var p := ReconcileAll(c, room, Replay(room.log), obs[..n]);
      EntryIsOther(c, n + 1, who[n], front);
      NextEntry(c, p.room, who[n]);
      FillsNext(c, room, p, ReconcileOne(c, p.room, p.board, obs[n]), who);
    }
  }

  lemma FillsNext(c: Config, room: Room, p: Pass, next: Step, who: seq<nat>)
    requires ValidConfig(c) && |who| > 0 && |p.board| == |who| - 1
    requires Filled(p.board, who[..|who| - 1]) && OtherKeys(c, room.log, p.room.log, who[..|who| - 1])
    requires |next.board| == |who| && Takes(p.board, next.board, |who|, who[|who| - 1])
    requires |next.room.log| == |p.room.log| + 1 && next.room.log == p.room.log + [next.room.log[|p.room.log|]]
    requires next.room.log[|p.room.log|].key == ObservationKey(ScrapeAuthoritative, Entry(c, |who|, who[|who| - 1]))
    ensures Filled(next.board, who) && OtherKeys(c, room.log, next.room.log, who)
  {
    hide FindKey, ObservationKey, Entry;
    var n := |who| - 1;
    forall key | IsOther(c, who, key) ensures FindKey(next.room.log, key) == FindKey(room.log, key) {
      FindSnoc(p.room.log, next.room.log[|p.room.log|], key);
      forall i | 0 <= i < n ensures key != ObservationKey(ScrapeAuthoritative, Entry(c, i + 1, who[..n][i])) {
        assert who[..n][i] == who[i];
      }
      assert IsOther(c, who[..n], key);
    }
  }

  lemma FindSnoc(log: Log, e: Event, key: string)
    ensures FindKey(log + [e], key) == if e.key == key then Some(e) else FindKey(log, key)
  {
    assert (log + [e])[..|log|] == log;
  }

  // ---------------------------------------------------------------- runs from a new room

  /** The session is started, or given up. */
  function Opening(action: Action): ActionRequest {
    ActionRequest(action, 1, "start", true)
  }

  predicate Opens(action: Action) {
    action == Start || action == Abandon
  }

  /** The feed is cleared to draft by itself, the session starts or is given up, and one batch comes in. */
  function FeedRun(c: Config, action: Action, who: seq<nat>): seq<Command>
    requires ValidConfig(c)
  {
    [ModeCommand(ScrapeAuthoritative, 0, true), ActionCommand(Opening(action), true), SyncCommand(Feed(c, who), 2)]
  }

  /** Every key begins with one of two letters. */
  ghost predicate KeysBegin(log: Log, x: char, y: char) {
    forall i :: 0 <= i < |log| ==> |log[i].key| > 0 && (log[i].key[0] == x || log[i].key[0] == y)
  }

  lemma KeyBeginsOtherwise(log: Log, x: char, y: char, key: string)
    requires KeysBegin(log, x, y) && |key| > 0 && key[0] != x && key[0] != y
    ensures FindKey(log, key).None?
  {
    hide FindKey;
  }

  lemma RunNext(c: Config, room: Room, cmds: seq<Command>, cmd: Command)
    requires ValidConfig(c) && Sound(c, room) && AllWellFormed(cmds + [cmd])
    ensures AllWellFormed(cmds) && RowsSound(Run(c, room, cmds).conflicts)
    ensures Run(c, room, cmds + [cmd]) == Perform(c, Run(c, room, cmds), cmd)
  {
    hide Sound, Perform, Replay, WellFormed;
    assert (cmds + [cmd])[..|cmds|] == cmds;
    forall i | 0 <= i < |cmds| ensures WellFormed(cmds[i]) {
      assert (cmds + [cmd])[i] == cmds[i];
    }
    SoundBoundary(c, Run(c, room, cmds));
  }

  /** The owner lets the feed draft by itself. */
  function ClearedRoom(): Room {
    var room := FreshRoom(ScrapeShadow);
    var key := "source-mode:" + Digits(1) + ":" + ModeName(ScrapeAuthoritative);
    Append(room, Note(room, SourceModeChanged, key)).(sourceMode := ScrapeAuthoritative)
  }

  function StartedRoom(action: Action): Room {
    Append(ClearedRoom(), Note(ClearedRoom(), KindOf(action), "start")).(status := StatusAfter(action))
  }

  lemma FeedIsCleared(c: Config)
    requires ValidConfig(c)
    ensures ChangeMode(c, FreshRoom(ScrapeShadow), ScrapeAuthoritative, 0, true) == Accepted(ClearedRoom())
    ensures Sound(c, ClearedRoom()) && Replay(ClearedRoom().log) == map[]
  {
    hide Sound, Replay, Grows, Digits, ModeName;
    var room := FreshRoom(ScrapeShadow);
    FreshRoomIsSound(c, ScrapeShadow);
    ChangeModeKeeps(c, room, ScrapeAuthoritative, 0, true);
  }

  lemma SessionIsStarted(c: Config, action: Action)
    requires ValidConfig(c) && Opens(action)
    ensures Transition(c, ClearedRoom(), Opening(action), true).Done?
    ensures Transition(c, ClearedRoom(), Opening(action), true).room == StartedRoom(action)
    ensures Sound(c, StartedRoom(action)) && Replay(StartedRoom(action).log) == map[]
  {
    hide Sound, Replay, FindKey, Grows;
    FeedIsCleared(c);
    AppendFinds(FreshRoom(ScrapeShadow), ClearedRoom().log[0], "start");
    assert FindKey(ClearedRoom().log, "start").None?;
    TransitionKeeps(c, ClearedRoom(), Opening(action), true);
  }

  lemma StartAwaits(c: Config, action: Action, who: seq<nat>)
    requires ValidConfig(c) && Opens(action)
    ensures
      var room := StartedRoom(action);
      && Awaiting(c, room, who) && |room.log| == 2 && KeysBegin(room.log, 's', 's') && room.status == StatusAfter(action)
  {
    hide Sound, Entry, Replay, FindKey;
    SessionIsStarted(c, action);
    var room := StartedRoom(action);
    assert KeysBegin(room.log, 's', 's');
    forall i | 0 <= i < |who|
      ensures FindKey(room.log, ObservationKey(ScrapeAuthoritative, Entry(c, i + 1, who[i]))).None?
    {
      KeyBeginsOtherwise(room.log, 's', 's', ObservationKey(ScrapeAuthoritative, Entry(c, i + 1, who[i])));
    }
  }

  /** The first two requests of such a run. */
  lemma RunOpens(c: Config, action: Action, who: seq<nat>)
    requires ValidConfig(c) && Opens(action)
    ensures Sound(c, FreshRoom(ScrapeShadow)) && AllWellFormed(FeedRun(c, action, who)[..2])
    ensures Run(c, FreshRoom(ScrapeShadow), FeedRun(c, action, who)[..2]) == StartedRoom(action)
  {
    hide Sound, Replay, Perform, Run, FindKey, StartedRoom, ClearedRoom;
    var room, cmds := FreshRoom(ScrapeShadow), FeedRun(c, action, who);
    FreshRoomIsSound(c, ScrapeShadow);
    FeedIsCleared(c);
    SoundBoundary(c, room);
    SoundBoundary(c, ClearedRoom());
    ModePerforms(c);
    ActionPerforms(c, action);
    assert cmds[..2] == ([] + [cmds[0]]) + [cmds[1]];
    NothingRun(c, room);
    RunNext(c, room, [], cmds[0]);
    RunNext(c, room, [] + [cmds[0]], cmds[1]);
  }

  lemma RunStarts(c: Config, action: Action, who: seq<nat>)
    requires ValidConfig(c) && Opens(action)
    ensures Sound(c, FreshRoom(ScrapeShadow)) && AllWellFormed(FeedRun(c, action, who)) && Sound(c, StartedRoom(action))
    ensures SyncCommand(Feed(c, who), 2).observations == Feed(c, who)
    ensures Run(c, FreshRoom(ScrapeShadow), FeedRun(c, action, who))
            == Perform(c, StartedRoom(action), SyncCommand(Feed(c, who), 2))
  {
    hide Sound, Replay, Perform, Run, FindKey, StartedRoom;
    var cmds := FeedRun(c, action, who);
    RunOpens(c, action, who);
    SessionIsStarted(c, action);
    assert cmds == cmds[..2] + [cmds[2]];
    RunNext(c, FreshRoom(ScrapeShadow), cmds[..2], cmds[2]);
  }

  lemma NothingRun(c: Config, room: Room)
    requires ValidConfig(c) && Sound(c, room)
    ensures Run(c, room, []) == room
  {
  }

  lemma ModePerforms(c: Config)
    requires ValidConfig(c) && RowsSound(FreshRoom(ScrapeShadow).conflicts)
    ensures Perform(c, FreshRoom(ScrapeShadow), ModeCommand(ScrapeAuthoritative, 0, true)) == ClearedRoom()
  {
    hide ChangeMode;
    FeedIsCleared(c);
  }

  lemma ActionPerforms(c: Config, action: Action)
    requires ValidConfig(c) && Opens(action) && RowsSound(ClearedRoom().conflicts)
    ensures Perform(c, ClearedRoom(), ActionCommand(Opening(action), true)) == StartedRoom(action)
  {
    hide Transition;
    SessionIsStarted(c, action);
  }

  /** The batch of the feed comes in; a live session must have picks left. */
  lemma FeedComesIn(c: Config, action: Action, who: seq<nat>)
    requires ValidConfig(c) && Opens(action) && Named(c, who) && |who| <= TotalPicks(c)
    requires action == Start ==> |who| < TotalPicks(c)
    ensures Sound(c, FreshRoom(ScrapeShadow)) && AllWellFormed(FeedRun(c, action, who))
    ensures
      var later := Run(c, FreshRoom(ScrapeShadow), FeedRun(c, action, who));
      Filled(Replay(later.log), who) && later.status == StatusAfter(action)
  {
    hide Sound, Replay, Run, Entry, ReconcileAll, FindKey, SortObservations;
    RunStarts(c, action, who);
    StartAwaits(c, action, who);
    SortedAlready(c, who);
    FeedFills(c, StartedRoom(action), who);
    CarriedBoardIsReplay(c, StartedRoom(action), Feed(c, who));
  }

  /**
    In every session a feed that names one player for the first two picks has him drafted twice: the mode change,
    the start and one batch, all from a new room.
  */
  lemma FeedCanRepeatAPlayer(c: Config, player: nat)
    requires LegalConfig(c) && PlayerProblem(c, player).None?
    ensures Sound(c, FreshRoom(ScrapeShadow)) && AllWellFormed(FeedRun(c, Start, [player, player]))
    ensures !NoRepeat(Replay(Run(c, FreshRoom(ScrapeShadow), FeedRun(c, Start, [player, player])).log))
  {
    hide Sound, Replay, Run, FeedRun, FindKey;
    EightPicks(c);
    FeedComesIn(c, Start, [player, player]);
    var board := Replay(Run(c, FreshRoom(ScrapeShadow), FeedRun(c, Start, [player, player])).log);
    assert 1 in board && 2 in board && board[1].player == board[2].player;
  }

  lemma EightPicks(c: Config)
    requires LegalConfig(c)
    ensures TotalPicks(c) >= 8
  {
    assert c.teamCount * c.roundCount >= c.teamCount * 1;
  }

  /** In every session an automatic feed fills the board, in part or in full, after the session was given up. */
  lemma AbandonedSessionTakesPicks(c: Config, who: seq<nat>)
    requires LegalConfig(c) && Named(c, who) && |who| <= TotalPicks(c)
    ensures Sound(c, FreshRoom(ScrapeShadow)) && AllWellFormed(FeedRun(c, Abandon, who))
    ensures
      var later := Run(c, FreshRoom(ScrapeShadow), FeedRun(c, Abandon, who));
      later.status == Abandoned && Filled(Replay(later.log), who)
  {
    hide Sound, Replay, Run, FeedRun, FindKey;
    FeedComesIn(c, Abandon, who);
  }

  // ---------------------------------------------------------------- accepted rows repeat a player

  /** A feed for approval names one player for the first two picks, and both rows are accepted. */
  function RowRun(c: Config, player: nat): seq<Command>
    requires ValidConfig(c)
  {
    [SyncCommand(Feed(c, [player, player]), 0),
     ResolveCommand(0, Resolution(0, AcceptIncoming, None)),
     ResolveCommand(1, Resolution(1, AcceptIncoming, None))]
  }

  function OpenRow(c: Config, id: nat, player: nat): Conflict
    requires ValidConfig(c)
  {
    Conflict(id, Unresolved, None, Entry(c, id + 1, player), 0, None, [])
  }

  /** A feed for approval only leaves a row. */
  lemma ShadowLeavesRow(c: Config, room: Room, o: Observation)
    requires ValidConfig(c) && o.overall >= 1 && room.sourceMode == ScrapeShadow && FindConflict(room.conflicts, o).None?
    ensures ReconcileOne(c, room, map[], o)
            == Step(room.(conflicts := room.conflicts +
                      [Conflict(|room.conflicts|, Unresolved, None, o, room.currentSequence, None, [])]),
                    map[], None)
  {
    hide FindKey, FindConflict, SnakeSlot, ObservationKey;
  }

  lemma TwoRows(c: Config, player: nat)
    requires ValidConfig(c)
    ensures
      var room := FreshRoom(ScrapeShadow);
      Reconcile(c, room, Feed(c, [player, player]), 0)
      == Accepted(room.(conflicts := [OpenRow(c, 0, player), OpenRow(c, 1, player)]))
  {
    hide SortObservations, FindConflict, ReconcileOne, Digits, SnakeSlot;
    var room, who := FreshRoom(ScrapeShadow), [player, player];
    var obs := Feed(c, who);
    SortedAlready(c, who);
    FreshRoomIsSound(c, ScrapeShadow);
    assert obs[..1] == [obs[0]] && obs[..1][..0] == [];
    assert ReconcileAll(c, room, map[], obs[..1][..0]) == Pass(room, map[], None);
    ShadowLeavesRow(c, room, obs[0]);
    var next := room.(conflicts := [OpenRow(c, 0, player)]);
    assert ReconcileAll(c, room, map[], obs[..1]) == Pass(next, map[], None);
    RowOfOther(c, player);
    ShadowLeavesRow(c, next, obs[1]);
    assert next.conflicts + [OpenRow(c, 1, player)] == [OpenRow(c, 0, player), OpenRow(c, 1, player)];
  }

  lemma RowOfOther(c: Config, player: nat)
    requires ValidConfig(c)
    ensures FindConflict([OpenRow(c, 0, player)], Entry(c, 2, player)).None?
  {
    hide Digits, SnakeSlot;
    var a, b := Entry(c, 1, player).providerKey, Entry(c, 2, player).providerKey;
    if a == b {
      assert a[11..] == Digits(1) && b[11..] == Digits(2);
      DigitsDiffer(1, 2);
    }
    assert [OpenRow(c, 0, player)][..0] == [];
  }

  /** Rows with different numbers have different keys. */
  lemma RowKeysDiffer(c: Config, player: nat)
    requires ValidConfig(c)
    ensures ResolutionKey(OpenRow(c, 0, player)) != ResolutionKey(OpenRow(c, 1, player))
  {
    hide SnakeSlot;
    var a, b := ResolutionKey(OpenRow(c, 0, player)), ResolutionKey(OpenRow(c, 1, player));
    assert Digits(0) == "0" && Digits(1) == "1";
    assert a[8] == '0' && b[8] == '1';
  }

  /** The first acceptance records the first pick and leaves the second row as it was. */
  lemma FirstRowIsAccepted(c: Config, player: nat)
    requires ValidConfig(c) && PlayerProblem(c, player).None?
    ensures
      var room := FreshRoom(ScrapeShadow).(conflicts := [OpenRow(c, 0, player), OpenRow(c, 1, player)]);
      var r := Resolution(0, AcceptIncoming, None);
      && Sound(c, room) && ResolveConflict(c, room, 0, r).Accepted?
      && var next := ResolveConflict(c, room, 0, r).room;
         && Sound(c, next) && |Replay(next.log)| == 1 && 1 in Replay(next.log) && Replay(next.log)[1].player == player
         && next.currentSequence == 1 && |next.conflicts| == 2 && next.conflicts[1] == OpenRow(c, 1, player)
         && FindKey(next.log, ResolutionKey(OpenRow(c, 1, player))).None?
  {
    hide Sound, Replay, SnakeSlot, SnakeRound, Digits, ResolutionKey, PlayerProblem;
    var start := FreshRoom(ScrapeShadow);
    var room := start.(conflicts := [OpenRow(c, 0, player), OpenRow(c, 1, player)]);
    FreshRoomIsSound(c, ScrapeShadow);
    RowsAreSound(c, start, room.conflicts);
    SoundBoundary(c, room);
    assert Replay(room.log) == map[];
    var r := Resolution(0, AcceptIncoming, None);
    assert FindKey(room.log, ResolutionKey(room.conflicts[0])).None?;
    AcceptKeeps(c, room, 0, r);
    RowKeysDiffer(c, player);
    var e := NextEvent(room, PickRecorded, ResolutionKey(room.conflicts[0]), Some(1), Some(SnakeRound(1, c.teamCount)),
                       Some(SnakeSlot(1, c.teamCount)), Some(player), None);
    AppendFinds(room, e, ResolutionKey(OpenRow(c, 1, player)));
  }

  lemma RowsAreSound(c: Config, room: Room, rows: seq<Conflict>)
    requires ValidConfig(c) && Sound(c, room) && RowsSound(rows)
    ensures Sound(c, room.(conflicts := rows))
  {
    hide Gapless, Snaked, Replay;
  }
  /** The second acceptance gives the second pick to the same player. */
  lemma SecondRowRepeats(c: Config, room: Room, player: nat)
    requires LegalConfig(c) && Sound(c, room) && PlayerProblem(c, player).None?
    requires |Replay(room.log)| == 1 && 1 in Replay(room.log) && Replay(room.log)[1].player == player
    requires room.currentSequence == 1 && |room.conflicts| == 2 && room.conflicts[1] == OpenRow(c, 1, player)
    requires FindKey(room.log, ResolutionKey(OpenRow(c, 1, player))).None? && RowsSound(room.conflicts)
    ensures NoRepeat(Replay(room.log))
    ensures !NoRepeat(Replay(Perform(c, room, ResolveCommand(1, Resolution(1, AcceptIncoming, None))).log))
  {
    hide Sound, Replay, SnakeSlot, SnakeRound, Digits, ResolutionKey, FindKey, PlayerProblem;
    SoundBoundary(c, room);
    var board, r := Replay(room.log), Resolution(1, AcceptIncoming, None);
    assert 2 !in board;
    assert ResolveConflict(c, room, 1, r).Accepted?;
    assert 1 in board - {2} && (board - {2})[1].player in Drafted(board - {2});
    ResolveRepeatsExactlyWhen(c, room, 1, r);
  }

  /**
    In every session two rows of a feed for approval that name one player can both be accepted: before the last
    acceptance no player is active twice, after it he is.
  */
  lemma AcceptedRowCanRepeat(c: Config, player: nat)
    requires LegalConfig(c) && PlayerProblem(c, player).None?
    ensures Sound(c, FreshRoom(ScrapeShadow)) && AllWellFormed(RowRun(c, player)) && AllWellFormed(RowRun(c, player)[..2])
    ensures NoRepeat(Replay(Run(c, FreshRoom(ScrapeShadow), RowRun(c, player)[..2]).log))
    ensures !NoRepeat(Replay(Run(c, FreshRoom(ScrapeShadow), RowRun(c, player)).log))
  {
    hide Sound, Replay, Run, NoRepeat, Perform, OpenRow, FindKey, ResolveConflict;
    var room, cmds := FreshRoom(ScrapeShadow), RowRun(c, player);
    FreshRoomIsSound(c, ScrapeShadow);
    SoundBoundary(c, room);
    SyncLeavesRows(c, player);
    FirstRowIsAccepted(c, player);
    var rows := room.(conflicts := [OpenRow(c, 0, player), OpenRow(c, 1, player)]);
    SoundBoundary(c, rows);
    var next := Perform(c, rows, cmds[1]);
    FirstPerforms(c, rows);
    SoundBoundary(c, next);
    SecondRowRepeats(c, next, player);
    assert cmds[..2] == ([] + [cmds[0]]) + [cmds[1]];
    assert cmds == (([] + [cmds[0]]) + [cmds[1]]) + [cmds[2]];
    NothingRun(c, room);
    RunNext(c, room, [], cmds[0]);
    RunNext(c, room, [] + [cmds[0]], cmds[1]);
    RunNext(c, room, [] + [cmds[0]] + [cmds[1]], cmds[2]);
  }

  lemma SyncLeavesRows(c: Config, player: nat)
    requires ValidConfig(c) && RowsSound(FreshRoom(ScrapeShadow).conflicts)
    ensures Perform(c, FreshRoom(ScrapeShadow), SyncCommand(Feed(c, [player, player]), 0))
            == FreshRoom(ScrapeShadow).(conflicts := [OpenRow(c, 0, player), OpenRow(c, 1, player)])
  {
    hide Reconcile, OpenRow;
    TwoRows(c, player);
  }

  lemma FirstPerforms(c: Config, rows: Room)
    requires ValidConfig(c) && RowsSound(rows.conflicts)
    requires ResolveConflict(c, rows, 0, Resolution(0, AcceptIncoming, None)).Accepted?
    ensures Perform(c, rows, ResolveCommand(0, Resolution(0, AcceptIncoming, None)))
            == ResolveConflict(c, rows, 0, Resolution(0, AcceptIncoming, None)).room
  {
    hide ResolveConflict;
  }

  // ---------------------------------------------------------------- one pick too many

  /** The row of the entry after the last pick. */
  function ExcessRow(c: Config, player: nat, detected: nat): Conflict
    requires ValidConfig(c)
  {
    Conflict(0, Unresolved, None, Entry(c, TotalPicks(c) + 1, player), detected, None, [])
  }

  lemma ExcessIsProposed(c: Config, room: Room, board: Board, player: nat)
    requires ValidConfig(c) && room.conflicts == []
    ensures ReconcileOne(c, room, board, Entry(c, TotalPicks(c) + 1, player))
            == Step(room.(conflicts := [ExcessRow(c, player, room.currentSequence)]), board, None)
  {
    hide FindKey, TotalPicks, Digits, SnakeSlot;
  }

  lemma FeedKeyBegins(o: Observation)
    ensures |ObservationKey(ScrapeAuthoritative, o)| > 5
    ensures ObservationKey(ScrapeAuthoritative, o)[0] == 'y' && ObservationKey(ScrapeAuthoritative, o)[5] == '_'
  {
  }

  /** A key of neither kind is unseen after the feed. */
  lemma KeyIsNew(c: Config, log: Log, who: seq<nat>, key: string)
    requires ValidConfig(c) && OtherKeys(c, StartedRoom(Start).log, log, who)
    requires |key| > 5 && key[0] != 's' && (key[0] != 'y' || key[5] != '_')
    ensures FindKey(log, key).None?
  {
    hide FindKey, Entry, StartedRoom, Awaiting, ObservationKey, KeysBegin;
    StartAwaits(c, Start, who);
    KeyBeginsOtherwise(StartedRoom(Start).log, 's', 's', key);
    forall i | 0 <= i < |who| ensures key != ObservationKey(ScrapeAuthoritative, Entry(c, i + 1, who[i])) {
      FeedKeyBegins(Entry(c, i + 1, who[i]));
    }
    assert IsOther(c, who, key);
  }

  /** What a feed with one entry too many leaves: a full board, a completed session and an open row. */
  ghost predicate Overfed(c: Config, room: Room, who: seq<nat>)
    requires ValidConfig(c) && |who| == TotalPicks(c) + 1
  {
    && Sound(c, room) && |Replay(room.log)| == TotalPicks(c)
    && room.status == Completed && room.currentSequence == TotalPicks(c) + 3
    && room.conflicts == [ExcessRow(c, who[TotalPicks(c)], TotalPicks(c) + 2)]
    && FindKey(room.log, ResolutionKey(room.conflicts[0])).None?
  }

  /** The pass over such a feed. */
  lemma PassOverfeeds(c: Config, who: seq<nat>) returns (p: Pass)
    requires ValidConfig(c) && Named(c, who) && |who| == TotalPicks(c) + 1 && TotalPicks(c) > 0
    ensures p == ReconcileAll(c, StartedRoom(Start), Replay(StartedRoom(Start).log), Feed(c, who))
    ensures Sound(c, p.room) && p.board == Replay(p.room.log) && |p.board| == TotalPicks(c) && p.room.status == Live
    ensures p.room.conflicts == [ExcessRow(c, who[TotalPicks(c)], TotalPicks(c) + 2)]
    ensures p.room.currentSequence == |p.room.log| == TotalPicks(c) + 2 && p.lastApplied.Some?
    ensures OtherKeys(c, StartedRoom(Start).log, p.room.log, who[..TotalPicks(c)])
  {
    hide Sound, Replay, Entry, ReconcileOne, FindKey, StartedRoom, ExcessRow, OtherKeys, TotalPicks, Grows;
    var n, start, obs := TotalPicks(c), StartedRoom(Start), Feed(c, who);
    StartAwaits(c, Start, who[..n]);
    FeedFills(c, start, who[..n]);
    assert obs[..n] == Feed(c, who[..n]);
    var front := ReconcileAll(c, start, Replay(start.log), obs[..n]);
    CarriedBoardIsReplay(c, start, obs[..n]);
    CarriedBoardIsReplay(c, start, obs);
    SequenceIsLength(c, front.room, front.room);
    ExcessIsProposed(c, front.room, front.board, who[n]);
    p := ReconcileAll(c, start, Replay(start.log), obs);
  }

  /** The full board completes the session. */
  lemma OverfedIsClosed(c: Config, p: Pass, who: seq<nat>)
    requires ValidConfig(c) && |who| == TotalPicks(c) + 1
    requires Sound(c, p.room) && p.board == Replay(p.room.log) && |p.board| == TotalPicks(c) && p.room.status == Live
    requires p.room.conflicts == [ExcessRow(c, who[TotalPicks(c)], TotalPicks(c) + 2)]
    requires p.room.currentSequence == |p.room.log| == TotalPicks(c) + 2 && p.lastApplied.Some?
    requires OtherKeys(c, StartedRoom(Start).log, p.room.log, who[..TotalPicks(c)])
    ensures CloseIfFull(c, p).Accepted? && Overfed(c, CloseIfFull(c, p).room, who)
  {
    hide Sound, Replay, Entry, FindKey, StartedRoom, ExcessRow, OtherKeys, TotalPicks, ResolutionKey, Digits;
    var key := "yahoo-auto-complete:" + Digits(p.lastApplied.value);
    KeyIsNew(c, p.room.log, who[..TotalPicks(c)], key);
    CloseIfFullKeeps(c, p);
    var r := ResolutionKey(p.room.conflicts[0]);
    ResolutionKeyBegins(p.room.conflicts[0]);
    KeyIsNew(c, p.room.log, who[..TotalPicks(c)], r);
    AppendFinds(p.room, Note(p.room, SessionCompleted, key), r);
  }

  lemma ResolutionKeyBegins(row: Conflict)
    ensures |ResolutionKey(row)| > 5 && ResolutionKey(row)[0] == 'r'
  {
    hide Digits;
  }

  lemma FeedOverfeeds(c: Config, who: seq<nat>)
    requires ValidConfig(c) && Named(c, who) && |who| == TotalPicks(c) + 1 && TotalPicks(c) > 0
    ensures Sound(c, FreshRoom(ScrapeShadow)) && AllWellFormed(FeedRun(c, Start, who))
    ensures Overfed(c, Run(c, FreshRoom(ScrapeShadow), FeedRun(c, Start, who)), who)
  {
    hide Sound, Replay, Run, Entry, ReconcileAll, FindKey, SortObservations, StartedRoom, ExcessRow, OtherKeys,
         TotalPicks, Overfed, CloseIfFull, Named;
    RunStarts(c, Start, who);
    SortedAlready(c, who);
    StartAwaits(c, Start, []);
    var p := PassOverfeeds(c, who);
    OverfedIsClosed(c, p, who);
    SequenceIsLength(c, StartedRoom(Start), StartedRoom(Start));
  }

  /** The open row is accepted. */
  function OverflowRun(c: Config, who: seq<nat>): seq<Command>
    requires ValidConfig(c)
  {
    FeedRun(c, Start, who) + [ResolveCommand(0, Resolution(TotalPicks(c) + 3, AcceptIncoming, None))]
  }

  /** Accepting that row adds a pick to the full board. */
  lemma OverfedOverflows(c: Config, room: Room, who: seq<nat>)
    requires ValidConfig(c) && Named(c, who) && |who| == TotalPicks(c) + 1 && Overfed(c, room, who) && RowsSound(room.conflicts)
    ensures |Replay(Perform(c, room, ResolveCommand(0, Resolution(TotalPicks(c) + 3, AcceptIncoming, None))).log)|
            == TotalPicks(c) + 1
  {
    hide Sound, Replay, FindKey, ResolutionKey, TotalPicks, SnakeSlot, SnakeRound, Digits;
    SoundBoundary(c, room);
    var r := Resolution(TotalPicks(c) + 3, AcceptIncoming, None);
    assert TotalPicks(c) + 1 !in Replay(room.log);
    assert ResolveConflict(c, room, 0, r).Accepted?;
    AcceptKeeps(c, room, 0, r);
  }

  /**
    In every session a feed with an entry after the last pick leaves an open row, and accepting it gives the
    board one pick more than the draft has. A provider numbers at most 480 picks.
  */
  lemma AcceptedRowCanOverflow(c: Config, who: seq<nat>)
    requires LegalConfig(c) && Named(c, who) && |who| == TotalPicks(c) + 1 <= 480
    ensures Sound(c, FreshRoom(ScrapeShadow)) && AllWellFormed(OverflowRun(c, who))
    ensures |Replay(Run(c, FreshRoom(ScrapeShadow), OverflowRun(c, who)).log)| == TotalPicks(c) + 1
  {
    hide Sound, Replay, Run, FeedRun, Named, Overfed, FindKey, Perform, ResolveConflict;
    EightPicks(c);
    FeedOverfeeds(c, who);
    var accept := ResolveCommand(0, Resolution(TotalPicks(c) + 3, AcceptIncoming, None));
    RunNext(c, FreshRoom(ScrapeShadow), FeedRun(c, Start, who), accept);
    OverfedOverflows(c, Run(c, FreshRoom(ScrapeShadow), FeedRun(c, Start, who)), who);
  }

  // ---------------------------------------------------------------- a draft that a batch completes

  /** A batch with an entry for every pick completes a started session. */
  lemma FullFeedCompletes(c: Config, who: seq<nat>)
    requires LegalConfig(c) && Named(c, who) && |who| == TotalPicks(c)
    ensures Sound(c, FreshRoom(ScrapeShadow)) && AllWellFormed(FeedRun(c, Start, who))
    ensures
      var later := Run(c, FreshRoom(ScrapeShadow), FeedRun(c, Start, who));
      later.status == Completed && Filled(Replay(later.log), who)
  {
    hide Sound, Replay, Run, Entry, ReconcileAll, FindKey, SortObservations, StartedRoom, OtherKeys, TotalPicks, Digits;
    EightPicks(c);
    RunStarts(c, Start, who);
    StartAwaits(c, Start, who);
    SortedAlready(c, who);
    var start := StartedRoom(Start);
    SequenceIsLength(c, start, start);
    FeedFills(c, start, who);
    CarriedBoardIsReplay(c, start, Feed(c, who));
    var p := ReconcileAll(c, start, Replay(start.log), Feed(c, who));
    KeyIsNew(c, p.room.log, who, "yahoo-auto-complete:" + Digits(p.lastApplied.value));
    CloseIfFullKeeps(c, p);
  }
}
