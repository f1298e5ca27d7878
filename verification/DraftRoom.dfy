/**
  The draft room as a value: its log, its conflict rows and its status, and what each request
  does to them. A refused request leaves the room as it was.
*/
module DraftRoom {
  import opened Sorting
  import opened Wrappers
  import opened DraftLog

  datatype SessionStatus = InSetup | IsReady | Live | Paused | Completed | Abandoned
  datatype SessionKind = LiveDraft | MockDraft
  datatype SourceMode = Manual | ScrapeShadow | OauthShadow | ScrapeAuthoritative | OauthAuthoritative

  /** A league player; names, teams and positions are kept trimmed and folded. */
  datatype PlayerRow = PlayerRow(hasAthlete: bool, sourceId: Option<string>, name: string, proTeam: string, position: string)

  /** What stays fixed while a draft runs. */
  datatype Config = Config(
    teamCount: nat,
    roundCount: nat,
    ownerSlot: nat,
    kind: SessionKind,
    automatic: bool,
    players: map<nat, PlayerRow>,
    bySource: map<string, nat>)

  datatype Observation = Observation(
    providerKey: string,
    providerRevision: string,
    overall: nat,
    teamSlot: nat,
    playerId: Option<nat>,
    externalId: Option<string>)

  datatype ConflictStatus = Unresolved | Resolved | Ignored
  datatype ConflictAction = KeepCanonical | AcceptIncoming | MapPlayerAndAccept | IgnoreIncoming | AutoApplied

  datatype Conflict = Conflict(
    id: nat,
    status: ConflictStatus,
    canonicalEvent: Option<nat>,
    incoming: Observation,
    detected: nat,
    action: Option<ConflictAction>,
    resolving: seq<nat>)

  datatype Room = Room(
    status: SessionStatus,
    sourceMode: SourceMode,
    log: Log,
    currentSequence: nat,
    nextEventId: nat,
    conflicts: seq<Conflict>,
    replays: nat)

  datatype DraftError =
    | DraftConflict | SessionState | DraftComplete | InvalidOrder | PlayerNotInLeague | IdentityPending
    | DuplicatePick | AutomaticTurn | AdvicePending | StaleRecommendation | PickNotActive
    | ReasonRequired | NotReady | NoSuchConflict | ShadowRequired | EvidenceRequired
    | KeyTaken | AutomaticDisabled | SyntheticForbidden | OwnerOnClock | PoolExhausted

  datatype Outcome = Done(room: Room, event: Event) | Refused(error: DraftError)

  ghost predicate ValidConfig(c: Config) {
    c.teamCount >= 1 && 1 <= c.ownerSlot <= c.teamCount
  }

  function TotalPicks(c: Config): nat {
    c.teamCount * c.roundCount
  }

  // ---------------------------------------------------------------- the log

  function FindKey(log: Log, key: string): (r: Option<Event>)
    ensures r.Some? ==> r.value in log && r.value.key == key
    ensures r.None? ==> forall i :: 0 <= i < |log| ==> log[i].key != key
  {
    if |log| == 0 then None
    else if log[|log| - 1].key == key then Some(log[|log| - 1])
    else FindKey(log[..|log| - 1], key)
  }

  function NextEvent(room: Room, kind: EventKind, key: string, overall: Option<nat>, round: Option<nat>,
                     slot: Option<nat>, player: Option<nat>, supersedes: Option<nat>): Event
  {
    Event(room.nextEventId, room.currentSequence + 1, kind, overall, round, slot, player, key, supersedes)
  }

  function Append(room: Room, e: Event): Room {
    room.(log := room.log + [e], currentSequence := room.currentSequence + 1, nextEventId := room.nextEventId + 1)
  }

  /** An event that is no pick. */
  function Note(room: Room, kind: EventKind, key: string): Event {
    NextEvent(room, kind, key, None, None, None, None, None)
  }

  // ---------------------------------------------------------------- recording and correcting

  datatype PickKind = Record | Reverse | Replace
  datatype Advice = NoAdvice | StaleAdvice | FreshAdvice

  /** A missing player or target is zero, which names nobody. */
  datatype PickRequest = PickRequest(
    kind: PickKind,
    expected: nat,
    key: string,
    player: nat,
    overall: Option<nat>,
    target: nat,
    advice: Advice,
    manual: bool)

  function PlayerProblem(c: Config, player: nat): Option<DraftError> {
    if player !in c.players then Some(PlayerNotInLeague)
    else if !c.players[player].hasAthlete then Some(IdentityPending)
    else None
  }

  function Drafted(board: Board): set<nat> {
    set o | o in board :: board[o].player
  }

  function DraftedElsewhere(board: Board, eventId: nat): set<nat> {
    set o | o in board && board[o].event.id != eventId :: board[o].player
  }

  function RecordProblem(c: Config, room: Room, board: Board, req: PickRequest): Option<DraftError>
    requires ValidConfig(c)
  {
    var overall := |board| + 1;
    if room.status != Live then Some(SessionState)
    else if overall > TotalPicks(c) then Some(DraftComplete)
    else if req.overall.Some? && req.overall.value != overall then Some(InvalidOrder)
    else if PlayerProblem(c, req.player).Some? then PlayerProblem(c, req.player)
    else if req.player in Drafted(board) then Some(DuplicatePick)
    else
      var slot := SnakeSlot(overall, c.teamCount);
      if req.manual && c.kind.MockDraft? && c.automatic && slot != c.ownerSlot then Some(AutomaticTurn)
      else if slot == c.ownerSlot && req.advice.NoAdvice? then Some(AdvicePending)
      else if slot == c.ownerSlot && req.advice.StaleAdvice? then Some(StaleRecommendation)
      else None
  }

  function RecordEvent(c: Config, room: Room, board: Board, req: PickRequest): Event
    requires ValidConfig(c)
  {
    var overall := |board| + 1;
    NextEvent(room, PickRecorded, req.key, Some(overall), Some(SnakeRound(overall, c.teamCount)),
              Some(SnakeSlot(overall, c.teamCount)), Some(req.player), None)
  }

  /** The overall pick whose active event has this number; the board holds each number once. */
  function ActiveTarget(board: Board, eventId: nat): (r: Option<nat>)
    ensures r.Some? ==> r.value in board && board[r.value].event.id == eventId
    ensures r.None? ==> forall o :: o in board ==> board[o].event.id != eventId
  {
    var hits := set o | o in board && board[o].event.id == eventId;
    assert forall o :: o in board && board[o].event.id == eventId ==> o in hits;
    if hits == {} then None else Some(Smallest(hits))
  }

  predicate Least(s: set<nat>, m: nat) {
    m in s && forall x :: x in s ==> m <= x
  }

  function Smallest(s: set<nat>): (m: nat)
    requires s != {}
    ensures Least(s, m)
  {
    var a :| a in s;
    SmallestExists(s, a);
    var m :| Least(s, m);
    LeastIsOne(s);
    m
  }

  lemma LeastIsOne(s: set<nat>)
    ensures forall m, n :: Least(s, m) && Least(s, n) ==> m == n
  {
  }

  lemma {:induction false} SmallestExists(s: set<nat>, bound: nat)
    requires bound in s
    ensures exists m :: Least(s, m)
    decreases bound
  {
    if x :| x in s && x < bound {
      SmallestExists(s, x);
    } else {
      assert Least(s, bound);
    }
  }

  function ReverseEvent(room: Room, target: Pick, key: string): Event {
    NextEvent(room, PickReversed, key, Some(target.overall), Some(target.round), Some(target.teamSlot), None,
              Some(target.event.id))
  }

  function ReplaceEvent(room: Room, target: Pick, key: string, player: nat): Event {
    NextEvent(room, PickReplaced, key, Some(target.overall), Some(target.round), Some(target.teamSlot), Some(player),
              Some(target.event.id))
  }

  /** The last pick of a full live board completes the session in the same step. */
  function Finish(c: Config, room: Room, key: string, event: Event): Outcome {
    if |Replay(room.log)| == TotalPicks(c) && room.status == Live then
      if FindKey(room.log, key + ":complete").Some? then Refused(DraftConflict)
      else Done(Append(room, Note(room, SessionCompleted, key + ":complete")).(status := Completed), event)
    else Done(room, event)
  }

  function CorrectPick(c: Config, room: Room, board: Board, req: PickRequest): Outcome {
    if room.status != Live && room.status != Paused then Refused(SessionState)
    else
      var at := ActiveTarget(board, req.target);
      if at.None? then Refused(PickNotActive)
      else
        var target := board[at.value];
        if req.kind.Reverse? then
          if target.overall != |board| then Refused(InvalidOrder)
          else
            var e := ReverseEvent(room, target, req.key);
            Finish(c, Append(room, e), req.key, e)
        else if PlayerProblem(c, req.player).Some? then Refused(PlayerProblem(c, req.player).value)
        else if req.player in DraftedElsewhere(board, target.event.id) then Refused(DuplicatePick)
        else if FindKey(room.log, req.key + ":reverse").Some? then Refused(DraftConflict)
        else
          var room1 := Append(room, ReverseEvent(room, target, req.key + ":reverse"));
          var e := ReplaceEvent(room1, target, req.key, req.player);
          Finish(c, Append(room1, e), req.key, e)
  }

  /** Records, undoes or replaces a pick; a key that was used before returns its event. */
  function AppendPick(c: Config, room: Room, req: PickRequest): Outcome
    requires ValidConfig(c)
  {
    var existing := FindKey(room.log, req.key);
    if existing.Some? then Done(room, existing.value)
    else if room.currentSequence != req.expected then Refused(DraftConflict)
    else
      var board := Replay(room.log);
      if req.kind.Record? then
        var problem := RecordProblem(c, room, board, req);
        if problem.Some? then Refused(problem.value)
        else
          var e := RecordEvent(c, room, board, req);
          Finish(c, Append(room, e), req.key, e)
      else CorrectPick(c, room, board, req)
  }

  // ---------------------------------------------------------------- session actions

  datatype Action = Start | Pause | Resume | CompleteDraft | Abandon | Reopen

  datatype ActionRequest = ActionRequest(action: Action, expected: nat, key: string, hasReason: bool)

  predicate AllowedFrom(action: Action, status: SessionStatus) {
    match action
    case Start => status == IsReady
    case Pause => status == Live
    case Resume => status == Paused
    case CompleteDraft => status == Live || status == Paused
    case Abandon => status == InSetup || status == IsReady || status == Live || status == Paused
    case Reopen => status == Completed
  }

  function StatusAfter(action: Action): SessionStatus {
    match action
    case Start => Live
    case Pause => Paused
    case Resume => Live
    case CompleteDraft => Completed
    case Abandon => Abandoned
    case Reopen => Live
  }

  function KindOf(action: Action): EventKind {
    match action
    case Start => SessionStarted
    case Pause => SessionPaused
    case Resume => SessionResumed
    case CompleteDraft => SessionCompleted
    case Abandon => SessionAbandoned
    case Reopen => SessionReopened
  }

  /** `ready` says that the readiness check of a start has no findings. */
  function Transition(c: Config, room: Room, req: ActionRequest, ready: bool): Outcome {
    var existing := FindKey(room.log, req.key);
    if existing.Some? then Done(room, existing.value)
    else if room.currentSequence != req.expected then Refused(DraftConflict)
    else if !AllowedFrom(req.action, room.status) then Refused(SessionState)
    else if req.action.Start? && !ready then Refused(NotReady)
    else if (req.action.Reopen? || req.action.Abandon?) && !req.hasReason then Refused(ReasonRequired)
    else if req.action.CompleteDraft? && |Replay(room.log)| < TotalPicks(c) && !req.hasReason then Refused(ReasonRequired)
    else
      var e := Note(room, KindOf(req.action), req.key);
      Done(Append(room, e).(status := StatusAfter(req.action),
                            replays := room.replays + (if req.action.Reopen? then 1 else 0)), e)
  }

  // ---------------------------------------------------------------- reconciliation

  predicate IsAuthoritative(mode: SourceMode) {
    mode == ScrapeAuthoritative || mode == OauthAuthoritative
  }

  function ModeName(mode: SourceMode): string {
    match mode
    case Manual => "manual"
    case ScrapeShadow => "yahoo_scrape_shadow"
    case OauthShadow => "yahoo_oauth_shadow"
    case ScrapeAuthoritative => "yahoo_scrape_authoritative"
    case OauthAuthoritative => "yahoo_oauth_authoritative"
  }

  function ObservationKey(mode: SourceMode, o: Observation): string {
    ModeName(mode) + ":" + o.providerKey + ":" + o.providerRevision
  }

  /** The league player an observation names, if any. */
  function PlayerFor(c: Config, o: Observation): (player: Option<nat>)
    ensures player.Some? ==> player.value in c.players
  {
    if o.playerId.Some? then
      if o.playerId.value in c.players then o.playerId else None
    else if o.externalId.Some? && o.externalId.value in c.bySource && c.bySource[o.externalId.value] in c.players
    then Some(c.bySource[o.externalId.value])
    else None
  }

  function Digits(n: nat): string {
    if n < 10 then [('0' as int + n) as char] else Digits(n / 10) + [('0' as int + n % 10) as char]
  }

  /** The current player is the provider's placeholder for this pick and describes the incoming player. */
  predicate MatchesPlaceholder(c: Config, current: nat, incoming: nat, overall: nat)
    requires incoming in c.players
  {
    && current in c.players
    && c.players[current].sourceId == Some("draft." + Digits(overall))
    && c.players[current].name == c.players[incoming].name
    && c.players[current].proTeam == c.players[incoming].proTeam
    && c.players[current].position == c.players[incoming].position
  }

  predicate SameProvider(x: Observation, o: Observation) {
    x.providerKey == o.providerKey && x.providerRevision == o.providerRevision
  }

  /** The position of the conflict row of an observation. */
  function FindConflict(conflicts: seq<Conflict>, o: Observation): (r: Option<nat>)
    ensures r.Some? ==> r.value < |conflicts| && SameProvider(conflicts[r.value].incoming, o)
    ensures r.None? ==> forall i :: 0 <= i < |conflicts| ==> !SameProvider(conflicts[i].incoming, o)
  {
    if |conflicts| == 0 then None
    else if SameProvider(conflicts[|conflicts| - 1].incoming, o) then Some(|conflicts| - 1)
    else FindConflict(conflicts[..|conflicts| - 1], o)
  }

  /** A row that was settled by accepting the incoming pick is reopened when the pick is seen again. */
  predicate Reopens(row: Conflict) {
    && row.status == Resolved
    && (row.action == Some(AcceptIncoming) || row.action == Some(MapPlayerAndAccept) || row.action == Some(AutoApplied))
  }

  function Propose(room: Room, o: Observation, canonical: Option<nat>): Room {
    match FindConflict(room.conflicts, o)
    case None =>
      room.(conflicts := room.conflicts +
        [Conflict(|room.conflicts|, Unresolved, canonical, o, room.currentSequence, None, [])])
    case Some(i) =>
      if Reopens(room.conflicts[i]) then
        room.(conflicts := room.conflicts[i := room.conflicts[i].(status := Unresolved, canonicalEvent := canonical,
          detected := room.currentSequence, action := None, resolving := [])])
      else room
  }

  /** An unresolved row of an observation that was applied is closed. */
  function AutoResolve(room: Room, o: Observation, eventId: nat): Room {
    match FindConflict(room.conflicts, o)
    case None => room
    case Some(i) =>
      if room.conflicts[i].status == Unresolved then
        room.(conflicts := room.conflicts[i :=
          room.conflicts[i].(status := Resolved, action := Some(AutoApplied), resolving := [eventId])])
      else room
  }

  function ProviderEvent(c: Config, room: Room, kind: EventKind, o: Observation, slot: nat, player: nat,
                         supersedes: Option<nat>): Event
    requires ValidConfig(c) && o.overall >= 1
  {
    NextEvent(room, kind, ObservationKey(room.sourceMode, o), Some(o.overall), Some(SnakeRound(o.overall, c.teamCount)),
              Some(slot), Some(player), supersedes)
  }

  datatype Verdict = Proposed | AlreadyConfirmed | Confirms | Upgrades | Records

  /** What an observation amounts to against the board. */
  function Judge(c: Config, room: Room, board: Board, o: Observation): Verdict
    requires ValidConfig(c) && o.overall >= 1
  {
    var player := PlayerFor(c, o);
    var seen := FindKey(room.log, ObservationKey(room.sourceMode, o)).Some?;
    if o.overall > TotalPicks(c) || player.None? then Proposed
    else if o.overall in board && board[o.overall].player == player.value then
      if seen then AlreadyConfirmed else Confirms
    else if && IsAuthoritative(room.sourceMode) && !seen && o.overall in board
            && o.teamSlot == board[o.overall].teamSlot && o.teamSlot == SnakeSlot(o.overall, c.teamCount)
            && MatchesPlaceholder(c, board[o.overall].player, player.value, o.overall)
    then Upgrades
    else if && IsAuthoritative(room.sourceMode) && !seen && o.overall !in board && o.overall == |board| + 1
            && o.teamSlot == SnakeSlot(o.overall, c.teamCount)
    then Records
    else Proposed
  }

  datatype Step = Step(room: Room, board: Board, applied: Option<nat>)

  /** One observation against the board kept so far. */
  function ReconcileOne(c: Config, room: Room, board: Board, o: Observation): Step
    requires ValidConfig(c) && o.overall >= 1
  {
    match Judge(c, room, board, o)
    case Proposed =>
      var canonical := if o.overall <= TotalPicks(c) && o.overall in board then Some(board[o.overall].event.id) else None;
      Step(Propose(room, o, canonical), board, None)
    case AlreadyConfirmed => Step(room, board, None)
    case Confirms =>
      var e := ProviderEvent(c, room, ProviderConfirmed, o, board[o.overall].teamSlot, PlayerFor(c, o).value, None);
      Step(Append(room, e), board, None)
    case Upgrades =>
      var e := ProviderEvent(c, room, PickReplaced, o, o.teamSlot, PlayerFor(c, o).value, Some(board[o.overall].event.id));
      Step(AutoResolve(Append(room, e), o, e.id), board[o.overall := PickOf(o.overall, e)], Some(e.id))
    case Records =>
      var e := ProviderEvent(c, room, PickRecorded, o, o.teamSlot, PlayerFor(c, o).value, None);
      Step(AutoResolve(Append(room, e), o, e.id), board[o.overall := PickOf(o.overall, e)], Some(e.id))
  }

  datatype Pass = Pass(room: Room, board: Board, lastApplied: Option<nat>)

  /** All observations in turn, the board carried along. */
  function ReconcileAll(c: Config, room: Room, board: Board, obs: seq<Observation>): Pass
    requires ValidConfig(c) && forall i :: 0 <= i < |obs| ==> obs[i].overall >= 1
  {
    if |obs| == 0 then Pass(room, board, None)
    else
      var before := ReconcileAll(c, room, board, obs[..|obs| - 1]);
      var step := ReconcileOne(c, before.room, before.board, obs[|obs| - 1]);
      Pass(step.room, step.board, if step.applied.Some? then step.applied else before.lastApplied)
  }

  predicate EarlierPick(a: Observation, b: Observation) {
    a.overall < b.overall
  }

  /** By overall pick, ties in arrival order. */
  function SortObservations(s: seq<Observation>): (r: seq<Observation>)
    ensures multiset(r) == multiset(s) && forall x :: x in r ==> x in s
  {
    var r := SortBy(s, EarlierPick);
    assert forall x :: x in r <==> x in multiset(r);
    r
  }

  datatype Reconciled = Accepted(room: Room) | Rejected(error: DraftError)

  /** Closes a live session whose board the provider just filled. */
  function CloseIfFull(c: Config, pass: Pass): Reconciled {
    if pass.lastApplied.Some? && |pass.board| == TotalPicks(c) && pass.room.status == Live then
      var key := "yahoo-auto-complete:" + Digits(pass.lastApplied.value);
      if FindKey(pass.room.log, key).Some? then Rejected(KeyTaken)
      else Accepted(Append(pass.room, Note(pass.room, SessionCompleted, key)).(status := Completed))
    else Accepted(pass.room)
  }

  function Reconcile(c: Config, room: Room, obs: seq<Observation>, expected: nat): Reconciled
    requires ValidConfig(c) && forall i :: 0 <= i < |obs| ==> obs[i].overall >= 1
  {
    if room.currentSequence != expected then Rejected(DraftConflict)
    else
      var sorted := SortObservations(obs);
      assert forall i :: 0 <= i < |sorted| ==> sorted[i] in obs;
      CloseIfFull(c, ReconcileAll(c, room, Replay(room.log), sorted))
  }

  // ---------------------------------------------------------------- source mode

  /** The approval mode that has to come before an automatic one. */
  function ShadowOf(mode: SourceMode): SourceMode {
    match mode
    case ScrapeAuthoritative => ScrapeShadow
    case OauthAuthoritative => OauthShadow
    case _ => mode
  }

  /** `cleared` says that the owner confirmed the feed or that valid evidence was given. */
  function ChangeMode(c: Config, room: Room, mode: SourceMode, expected: nat, cleared: bool): Reconciled {
    if room.currentSequence != expected then Rejected(DraftConflict)
    else if IsAuthoritative(mode) && room.sourceMode != ShadowOf(mode) then Rejected(ShadowRequired)
    else if IsAuthoritative(mode) && !cleared then Rejected(EvidenceRequired)
    else
      var key := "source-mode:" + Digits(room.currentSequence + 1) + ":" + ModeName(mode);
      if FindKey(room.log, key).Some? then Rejected(KeyTaken)
      else
        Accepted(Append(room, Note(room, SourceModeChanged, key)).(sourceMode := mode))
  }

  // ---------------------------------------------------------------- conflict resolution

  /** What the owner may choose; closing a row automatically is the provider's. */
  type Choice = a: ConflictAction | a != AutoApplied witness KeepCanonical

  datatype Resolution = Resolution(expected: nat, action: Choice, player: Option<nat>)

  function ResolutionKey(row: Conflict): string {
    "resolve:" + Digits(row.id) + ":" + Digits(row.detected) + ":" + row.incoming.providerRevision
  }

  function CloseRow(room: Room, id: nat, action: ConflictAction, status: ConflictStatus, events: seq<nat>): Room
    requires id < |room.conflicts|
  {
    room.(conflicts := room.conflicts[id := room.conflicts[id].(status := status, action := Some(action), resolving := events)])
  }

  function ResolveConflict(c: Config, room: Room, id: nat, r: Resolution): Reconciled
    requires ValidConfig(c)
    requires forall i :: 0 <= i < |room.conflicts| ==> room.conflicts[i].incoming.overall >= 1
  {
    if room.currentSequence != r.expected then Rejected(DraftConflict)
    else if id >= |room.conflicts| then Rejected(NoSuchConflict)
    else
      var row := room.conflicts[id];
      if row.status != Unresolved then Accepted(room)
      else if r.action == KeepCanonical then Accepted(CloseRow(room, id, KeepCanonical, Resolved, row.resolving))
      else if r.action == IgnoreIncoming then Accepted(CloseRow(room, id, IgnoreIncoming, Ignored, row.resolving))
      else
        var player := if r.player.Some? then r.player else row.incoming.playerId;
        if player.None? || PlayerProblem(c, player.value).Some? then Rejected(IdentityPending)
        else
          var board, key, o := Replay(room.log), ResolutionKey(row), row.incoming.overall;
          if o in board then
            if FindKey(room.log, key + ":reverse").Some? || FindKey(room.log, key).Some? then Rejected(KeyTaken)
            else
              var e1 := ReverseEvent(room, board[o], key + ":reverse").(round := Some(SnakeRound(o, c.teamCount)));
              var room1 := Append(room, e1);
              var e2 := ReplaceEvent(room1, board[o], key, player.value).(round := Some(SnakeRound(o, c.teamCount)));
              Accepted(CloseRow(Append(room1, e2), id, r.action, Resolved, [e1.id, e2.id]))
          else if o != |board| + 1 then Rejected(InvalidOrder)
          else if FindKey(room.log, key).Some? then Rejected(KeyTaken)
          else
            var e := NextEvent(room, PickRecorded, key, Some(o), Some(SnakeRound(o, c.teamCount)),
                               Some(SnakeSlot(o, c.teamCount)), player, None);
            Accepted(CloseRow(Append(room, e), id, r.action, Resolved, [e.id]))
  }
}
