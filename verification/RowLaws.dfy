/**
  The conflict rows of a draft, told on their status and their action: which rows a batch opens, closes and opens
  again, which it never touches, and that no disagreement with the provider stays hidden.
*/
module RowLaws {
  import opened Wrappers
  import opened DraftLog
  import opened DraftRoom
  import opened DraftLaws
  import opened Reconciling
  import opened DraftRuns
  import opened DraftLimits
  import opened PassBoard

  // ---------------------------------------------------------------- what a turn finds

  /** The pick of the observation is its player's. */
  ghost predicate OnBoard(c: Config, board: Board, o: Observation) {
    && o.overall <= TotalPicks(c) && PlayerFor(c, o).Some?
    && o.overall in board && board[o.overall].player == PlayerFor(c, o).value
  }

  /** An automatic feed applies it: it names the player behind a placeholder, or the next pick. */
  ghost predicate Applies(c: Config, room: Room, board: Board, o: Observation)
    requires ValidConfig(c) && o.overall >= 1
  {
    if o.overall in board then Upgradable(c, room, board, o) else Usable(c, room, o) && o.overall == |board| + 1
  }

  /** The event that is active at the overall of the observation, if it is one of the draft. */
  ghost predicate ActiveAt(c: Config, board: Board, o: Observation, event: Option<nat>) {
    if o.overall <= TotalPicks(c) && o.overall in board then event == Some(board[o.overall].event.id) else event == None
  }

  // ---------------------------------------------------------------- placeholders

  predicate IsDigit(c: char) {
    '0' <= c <= '9'
  }

  /** The number that decimal digits stand for. */
  function NumberOf(s: string): nat
    requires forall i :: 0 <= i < |s| ==> IsDigit(s[i])
  {
    if |s| == 0 then 0
    else
      assert IsDigit(s[|s| - 1]);
      10 * NumberOf(s[..|s| - 1]) + (s[|s| - 1] as int - '0' as int)
  }

  /** A number is written in decimal digits, without zeros in front. */
  lemma {:induction false} DigitsTold(n: nat)
    ensures forall i :: 0 <= i < |Digits(n)| ==> IsDigit(Digits(n)[i])
    ensures NumberOf(Digits(n)) == n && Digits(n) != "" && (n > 0 ==> Digits(n)[0] != '0')
  {
    if n >= 10 {
      DigitsTold(n / 10);
      assert Digits(n)[..|Digits(n)| - 1] == Digits(n / 10);
    }
  }

  /** Up to the first colon two texts that start with digits agree. */
  lemma SameUpToColon(a: string, b: string, c: string, d: string)
    requires (forall i :: 0 <= i < |a| ==> IsDigit(a[i])) && forall i :: 0 <= i < |c| ==> IsDigit(c[i])
    requires a + ":" + b == c + ":" + d
    ensures a == c && b == d
  {
    var s := a + ":" + b;
    assert s[|a|] == ':' && s[|c|] == ':';
    assert |c| > |a| ==> !IsDigit(c[|a|]);
    assert |a| > |c| ==> !IsDigit(a[|c|]);
    assert a == s[..|a|] && c == s[..|c|] && b == s[|a| + 1..] && d == s[|c| + 1..];
  }

  lemma SameDigits(m: nat, n: nat)
    requires Digits(m) == Digits(n)
    ensures m == n
  {
    DigitsTold(m);
    DigitsTold(n);
  }

  /** The events of a choice have a key of their own for the row, the sequence at which it was opened and the revision. */
  lemma ChoiceKeysDiffer(row: Conflict, other: Conflict)
    requires ResolutionKey(row) == ResolutionKey(other)
    ensures row.id == other.id && row.detected == other.detected
    ensures row.incoming.providerRevision == other.incoming.providerRevision
  {
    hide Digits;
    var a, b := Digits(row.id), Digits(row.detected) + ":" + row.incoming.providerRevision;
    var c, d := Digits(other.id), Digits(other.detected) + ":" + other.incoming.providerRevision;
    assert ResolutionKey(row) == "resolve:" + (a + ":" + b) && ResolutionKey(other) == "resolve:" + (c + ":" + d);
    assert ResolutionKey(row)[8..] == a + ":" + b && ResolutionKey(other)[8..] == c + ":" + d;
    DigitsTold(row.id);
    DigitsTold(other.id);
    DigitsTold(row.detected);
    DigitsTold(other.detected);
    SameUpToColon(a, b, c, d);
    SameUpToColon(Digits(row.detected), row.incoming.providerRevision, Digits(other.detected), other.incoming.providerRevision);
    SameDigits(row.id, other.id);
    SameDigits(row.detected, other.detected);
  }

  /** The player stands for the pick, and is described as the other one. */
  ghost predicate StandsIn(c: Config, current: nat, incoming: nat, overall: nat) {
    && current in c.players && incoming in c.players
    && var p, q := c.players[current], c.players[incoming];
       && p.sourceId == Some("draft." + Digits(overall))
       && (p.name, p.proTeam, p.position) == (q.name, q.proTeam, q.position)
  }

  lemma PlaceholderTold(c: Config, current: nat, incoming: nat, overall: nat)
    requires incoming in c.players
    ensures MatchesPlaceholder(c, current, incoming, overall) <==> StandsIn(c, current, incoming, overall)
  {
  }

  // ---------------------------------------------------------------- what a turn leaves

  /** The owner or the feed settled the row by taking the provider's pick. */
  ghost predicate TookIncoming(row: Conflict) {
    row.status == Resolved && row.action in {Some(AcceptIncoming), Some(MapPlayerAndAccept), Some(AutoApplied)}
  }

  /** The owner settled the row against the provider. */
  ghost predicate KeptOwn(row: Conflict) {
    || (row.status == Resolved && row.action == Some(KeepCanonical))
    || (row.status == Ignored && row.action == Some(IgnoreIncoming))
  }

  /** The row is open on what the room holds now. */
  ghost predicate OpenedAt(c: Config, room: Room, board: Board, row: Conflict) {
    && row.status == Unresolved && row.action == None && row.resolving == []
    && row.detected == room.currentSequence && ActiveAt(c, board, row.incoming, row.canonicalEvent)
  }

  /** What the turn of its observation makes of a row. */
  ghost predicate RowAfterTurn(c: Config, room: Room, board: Board, o: Observation, was: Conflict, now: Conflict)
    requires ValidConfig(c) && o.overall >= 1
  {
    if OnBoard(c, board, o) then now == was
    else if Applies(c, room, board, o) then
      if was.status == Unresolved then
        now == was.(status := Resolved, action := Some(AutoApplied), resolving := [room.nextEventId])
      else now == was
    else if TookIncoming(was) then
      now.id == was.id && now.incoming == was.incoming
      && OpenedAt(c, room, board, now.(incoming := o))
    else now == was
  }

  ghost predicate RowsApart(rows: seq<Conflict>) {
    forall i, j :: 0 <= i < j < |rows| ==> !SameProvider(rows[i].incoming, rows[j].incoming)
  }

  ghost predicate HasRow(rows: seq<Conflict>, o: Observation) {
    exists i :: 0 <= i < |rows| && SameProvider(rows[i].incoming, o)
  }

  /** The row at `i` after the turn of `o`. */
  ghost predicate RowFollows(c: Config, room: Room, board: Board, o: Observation, later: seq<Conflict>, i: nat)
    requires ValidConfig(c) && o.overall >= 1 && i < |room.conflicts|
  {
    && i < |later|
    && (if SameProvider(room.conflicts[i].incoming, o) then RowAfterTurn(c, room, board, o, room.conflicts[i], later[i])
        else later[i] == room.conflicts[i])
  }

  /** A new row is opened exactly for an observation that has none, is not on the board and is not applied. */
  ghost predicate NewRowFollows(c: Config, room: Room, board: Board, o: Observation, later: seq<Conflict>)
    requires ValidConfig(c) && o.overall >= 1
  {
    var n := |room.conflicts|;
    if HasRow(room.conflicts, o) || OnBoard(c, board, o) || Applies(c, room, board, o) then |later| == n
    else |later| == n + 1 && later[n].id == n && later[n].incoming == o && OpenedAt(c, room, board, later[n])
  }

  lemma FindsOwnRow(rows: seq<Conflict>, o: Observation)
    requires RowsApart(rows)
    ensures FindConflict(rows, o).Some? <==> HasRow(rows, o)
    ensures forall i :: 0 <= i < |rows| && SameProvider(rows[i].incoming, o) ==> FindConflict(rows, o) == Some(i)
  {
    hide FindConflict;
  }

  lemma JudgeIs(c: Config, room: Room, board: Board, o: Observation)
    requires ValidConfig(c) && o.overall >= 1
    ensures
      var v := Judge(c, room, board, o);
      && (v.AlreadyConfirmed? || v.Confirms? <==> OnBoard(c, board, o))
      && (v.Upgrades? || v.Records? <==> !OnBoard(c, board, o) && Applies(c, room, board, o))
  {
    hide FindKey, MatchesPlaceholder, ObservationKey, SnakeSlot;
  }

  /** One turn, for every row. */
  lemma TurnOfRows(c: Config, room: Room, board: Board, o: Observation)
    requires ValidConfig(c) && o.overall >= 1 && RowsApart(room.conflicts)
    ensures
      var later := ReconcileOne(c, room, board, o).room.conflicts;
      && (forall i :: 0 <= i < |room.conflicts| ==> RowFollows(c, room, board, o, later, i))
      && NewRowFollows(c, room, board, o, later)
  {
    hide FindConflict, FindKey, MatchesPlaceholder, ObservationKey, SnakeSlot, Judge, OnBoard, Applies, RowsApart, HasRow;
    JudgeIs(c, room, board, o);
    FindsOwnRow(room.conflicts, o);
  }

  lemma TurnKeepsApart(c: Config, room: Room, board: Board, o: Observation)
    requires ValidConfig(c) && o.overall >= 1 && RowsApart(room.conflicts)
    ensures RowsApart(ReconcileOne(c, room, board, o).room.conflicts)
  {
    hide ReconcileOne, OnBoard, Applies, OpenedAt;
    TurnOfRows(c, room, board, o);
    var rows, later := room.conflicts, ReconcileOne(c, room, board, o).room.conflicts;
    forall i | 0 <= i < |rows| ensures later[i].incoming == rows[i].incoming || SameProvider(rows[i].incoming, o) {
      assert RowFollows(c, room, board, o, later, i);
    }
    forall i | 0 <= i < |rows| ensures later[i].incoming == rows[i].incoming {
      assert RowFollows(c, room, board, o, later, i);
    }
  }

  // ---------------------------------------------------------------- a whole pass

  /** No provider entry twice. */
  ghost predicate ProvidersApart(obs: seq<Observation>) {
    forall i, j :: 0 <= i < j < |obs| ==> !SameProvider(obs[i], obs[j])
  }

  /** Rows as they were until the turn of their observation, if it has one. */
  ghost predicate Untouched(rows: seq<Conflict>, later: seq<Conflict>, obs: seq<Observation>, start: nat, end: nat) {
    && |rows| <= |later|
    && forall i :: 0 <= i < |rows| && NotAmong(rows[i].incoming, obs, start, end) ==> later[i] == rows[i]
  }

  ghost predicate NotAmong(x: Observation, obs: seq<Observation>, start: nat, end: nat) {
    forall k :: start <= k < end && k < |obs| ==> !SameProvider(x, obs[k])
  }

  lemma {:induction false} RowsUntilTurn(c: Config, room: Room, obs: seq<Observation>, start: nat, end: nat)
    requires ValidConfig(c) && Positive(obs) && RowsApart(room.conflicts) && start <= end <= |obs|
    ensures RowsApart(Before(c, room, obs, start).room.conflicts) && RowsApart(Before(c, room, obs, end).room.conflicts)
    ensures Untouched(Before(c, room, obs, start).room.conflicts, Before(c, room, obs, end).room.conflicts, obs, start, end)
    decreases end
  {
    hide Before, ReconcileOne, RowsApart, OnBoard, Applies, OpenedAt, RowAfterTurn;
    if end == 0 {
      NothingYet(c, room, obs);
    } else {
      var mid := Before(c, room, obs, end - 1);
      RowsUntilTurn(c, room, obs, if start < end then start else end - 1, end - 1);
      BeforeNext(c, room, obs, end - 1);
      TurnOfRows(c, mid.room, mid.board, obs[end - 1]);
      TurnKeepsApart(c, mid.room, mid.board, obs[end - 1]);
      if start < end {
        var rows, later := Before(c, room, obs, start).room.conflicts, Before(c, room, obs, end).room.conflicts;
        forall i | 0 <= i < |rows| && NotAmong(rows[i].incoming, obs, start, end) ensures later[i] == rows[i] {
          assert NotAmong(rows[i].incoming, obs, start, end - 1);
          assert RowFollows(c, mid.room, mid.board, obs[end - 1], later, i);
        }
      }
    }
  }

  lemma ProviderOnce(x: Observation, obs: seq<Observation>, j: nat)
    requires ProvidersApart(obs) && j < |obs| && SameProvider(x, obs[j])
    ensures NotAmong(x, obs, 0, j) && NotAmong(x, obs, j + 1, |obs|)
  {
    forall k | 0 <= k < |obs| && k != j ensures !SameProvider(x, obs[k]) {
      assert if k < j then !SameProvider(obs[k], obs[j]) else !SameProvider(obs[j], obs[k]);
    }
  }

  /**
    A pass over a batch without a provider entry twice leaves a row as the turn of its observation does, and every
    other row as it was.
  */
  lemma PassOfRows(c: Config, room: Room, obs: seq<Observation>, i: nat)
    requires ValidConfig(c) && Positive(obs) && RowsApart(room.conflicts) && ProvidersApart(obs) && i < |room.conflicts|
    ensures
      var rows, later := room.conflicts, Before(c, room, obs, |obs|).room.conflicts;
      && i < |later|
      && (NotAmong(rows[i].incoming, obs, 0, |obs|) ==> later[i] == rows[i])
      && forall j :: 0 <= j < |obs| && SameProvider(rows[i].incoming, obs[j]) ==>
           RowAfterTurn(c, Before(c, room, obs, j).room, Before(c, room, obs, j).board, obs[j], rows[i], later[i])
  {
    hide Before, ReconcileOne, RowsApart, ProvidersApart, RowAfterTurn, OnBoard, Applies, NotAmong;
    var rows := room.conflicts;
    NothingYet(c, room, obs);
    RowsUntilTurn(c, room, obs, 0, |obs|);
    forall j | 0 <= j < |obs| && SameProvider(rows[i].incoming, obs[j])
      ensures RowAfterTurn(c, Before(c, room, obs, j).room, Before(c, room, obs, j).board, obs[j], rows[i],
                           Before(c, room, obs, |obs|).room.conflicts[i])
    {
      var b := Before(c, room, obs, j);
      ProviderOnce(rows[i].incoming, obs, j);
      RowsUntilTurn(c, room, obs, 0, j);
      RowsUntilTurn(c, room, obs, j + 1, |obs|);
      BeforeNext(c, room, obs, j);
      TurnOfRows(c, b.room, b.board, obs[j]);
      var now := Before(c, room, obs, j + 1).room.conflicts;
      assert RowFollows(c, b.room, b.board, obs[j], now, i);
      RowKeepsEntry(c, b.room, b.board, obs[j], rows[i], now[i]);
      assert SameProvider(now[i].incoming, obs[j]);
      ProviderOnce(now[i].incoming, obs, j);
    }
  }

  lemma RowKeepsEntry(c: Config, room: Room, board: Board, o: Observation, was: Conflict, now: Conflict)
    requires ValidConfig(c) && o.overall >= 1 && RowAfterTurn(c, room, board, o, was, now)
    ensures now.incoming == was.incoming && now.id == was.id
  {
    hide OnBoard, Applies;
  }

  /** An observation without a row has one after the pass exactly when it was neither on the board nor applied. */
  lemma PassOpensRows(c: Config, room: Room, obs: seq<Observation>, j: nat)
    requires ValidConfig(c) && Positive(obs) && RowsApart(room.conflicts) && ProvidersApart(obs) && j < |obs|
    requires !HasRow(room.conflicts, obs[j])
    ensures
      var b, later := Before(c, room, obs, j), Before(c, room, obs, |obs|).room.conflicts;
      && (HasRow(later, obs[j]) <==> !OnBoard(c, b.board, obs[j]) && !Applies(c, b.room, b.board, obs[j]))
      && forall i :: 0 <= i < |later| && SameProvider(later[i].incoming, obs[j]) ==>
           later[i].incoming == obs[j] && OpenedAt(c, b.room, b.board, later[i])
  {
    hide Before, ReconcileOne, ProvidersApart, RowAfterTurn, OnBoard, Applies, NotAmong, OpenedAt;
    NothingYet(c, room, obs);
    NoRowBeforeTurn(c, room, obs, j, j);
    var b := Before(c, room, obs, j);
    RowsUntilTurn(c, room, obs, 0, j);
    BeforeNext(c, room, obs, j);
    TurnOpensRow(c, b.room, b.board, obs[j]);
    NewRowStays(c, room, obs, j, |obs|);
  }

  lemma TurnOpensRow(c: Config, room: Room, board: Board, o: Observation)
    requires ValidConfig(c) && o.overall >= 1 && RowsApart(room.conflicts) && !HasRow(room.conflicts, o)
    ensures
      var later := ReconcileOne(c, room, board, o).room.conflicts;
      && (HasRow(later, o) <==> !OnBoard(c, board, o) && !Applies(c, room, board, o))
      && forall i :: 0 <= i < |later| && SameProvider(later[i].incoming, o) ==>
           later[i].incoming == o && OpenedAt(c, room, board, later[i])
  {
    hide ReconcileOne, OnBoard, Applies, OpenedAt, RowsApart;
    TurnOfRows(c, room, board, o);
    var rows, later := room.conflicts, ReconcileOne(c, room, board, o).room.conflicts;
    forall i | 0 <= i < |rows| ensures later[i] == rows[i] && !SameProvider(rows[i].incoming, o) {
      assert RowFollows(c, room, board, o, later, i);
    }
    if |later| > |rows| {
      assert SameProvider(later[|rows|].incoming, o);
    }
  }

  /** Before its turn an observation gets no row. */
  lemma {:induction false} NoRowBeforeTurn(c: Config, room: Room, obs: seq<Observation>, j: nat, k: nat)
    requires ValidConfig(c) && Positive(obs) && RowsApart(room.conflicts) && ProvidersApart(obs) && k <= j < |obs|
    requires !HasRow(room.conflicts, obs[j])
    ensures !HasRow(Before(c, room, obs, k).room.conflicts, obs[j])
  {
    hide Before, ReconcileOne, OnBoard, Applies, NotAmong, OpenedAt, RowsApart;
    NothingYet(c, room, obs);
    if k > 0 {
      NoRowBeforeTurn(c, room, obs, j, k - 1);
      RowsUntilTurn(c, room, obs, 0, k - 1);
      BeforeNext(c, room, obs, k - 1);
      NoRowOfOthers(c, Before(c, room, obs, k - 1).room, Before(c, room, obs, k - 1).board, obs[k - 1], obs[j]);
    }
  }

  lemma NoRowOfOthers(c: Config, room: Room, board: Board, x: Observation, o: Observation)
    requires ValidConfig(c) && x.overall >= 1 && RowsApart(room.conflicts) && !SameProvider(x, o)
    ensures
      var later := ReconcileOne(c, room, board, x).room.conflicts;
      && |room.conflicts| <= |later|
      && forall i :: 0 <= i < |later| && SameProvider(later[i].incoming, o) ==>
           i < |room.conflicts| && later[i] == room.conflicts[i]
  {
    hide ReconcileOne, OnBoard, Applies, OpenedAt, RowsApart;
    TurnOfRows(c, room, board, x);
    var rows, later := room.conflicts, ReconcileOne(c, room, board, x).room.conflicts;
    forall i | 0 <= i < |later| && SameProvider(later[i].incoming, o) ensures i < |rows| && later[i] == rows[i] {
      if i < |rows| {
        assert RowFollows(c, room, board, x, later, i);
      }
    }
  }

  /** After its turn only its own row is the row of an observation, and it stays. */
  lemma {:induction false} NewRowStays(c: Config, room: Room, obs: seq<Observation>, j: nat, k: nat)
    requires ValidConfig(c) && Positive(obs) && RowsApart(room.conflicts) && ProvidersApart(obs) && j < k <= |obs|
    ensures
      var now, later := Before(c, room, obs, j + 1).room.conflicts, Before(c, room, obs, k).room.conflicts;
      && |now| <= |later|
      && (HasRow(later, obs[j]) <==> HasRow(now, obs[j]))
      && forall i :: 0 <= i < |later| && SameProvider(later[i].incoming, obs[j]) ==> i < |now| && later[i] == now[i]
    decreases k
  {
    hide Before, ReconcileOne, OnBoard, Applies, OpenedAt, RowsApart;
    if j + 1 < k {
      NewRowStays(c, room, obs, j, k - 1);
      RowsUntilTurn(c, room, obs, 0, k - 1);
      RowsUntilTurn(c, room, obs, k - 1, k);
      BeforeNext(c, room, obs, k - 1);
      var before, later := Before(c, room, obs, k - 1).room.conflicts, Before(c, room, obs, k).room.conflicts;
      NoRowOfOthers(c, Before(c, room, obs, k - 1).room, Before(c, room, obs, k - 1).board, obs[k - 1], obs[j]);
      forall i | 0 <= i < |before| && SameProvider(before[i].incoming, obs[j]) ensures later[i] == before[i] {
        assert NotAmong(before[i].incoming, obs, k - 1, k);
      }
    }
  }

  // ---------------------------------------------------------------- rows told by status and action

  /** Status, action and events of a row fit each other. */
  ghost predicate Told(row: Conflict) {
    || (row.status == Unresolved && row.action == None && row.resolving == [])
    || (TookIncoming(row) && row.resolving != [])
    || (KeptOwn(row) && row.resolving == [])
  }

  ghost predicate AllTold(rows: seq<Conflict>) {
    forall i :: 0 <= i < |rows| ==> Told(rows[i])
  }

  ghost predicate KeepsKept(rows: seq<Conflict>, later: seq<Conflict>) {
    |rows| <= |later| && forall i :: 0 <= i < |rows| && KeptOwn(rows[i]) ==> later[i] == rows[i]
  }

  lemma TurnKeepsTold(c: Config, room: Room, board: Board, o: Observation)
    requires ValidConfig(c) && o.overall >= 1 && RowsApart(room.conflicts) && AllTold(room.conflicts)
    ensures
      var later := ReconcileOne(c, room, board, o).room.conflicts;
      AllTold(later) && KeepsKept(room.conflicts, later)
  {
    hide ReconcileOne, OnBoard, Applies, RowsApart, HasRow;
    TurnOfRows(c, room, board, o);
    var rows, later := room.conflicts, ReconcileOne(c, room, board, o).room.conflicts;
    forall i | 0 <= i < |rows| ensures Told(later[i]) && (KeptOwn(rows[i]) ==> later[i] == rows[i]) {
      assert RowFollows(c, room, board, o, later, i);
      assert Told(rows[i]);
    }
  }

  lemma {:induction false} PassKeepsTold(c: Config, room: Room, obs: seq<Observation>, k: nat)
    requires ValidConfig(c) && Positive(obs) && RowsApart(room.conflicts) && AllTold(room.conflicts) && k <= |obs|
    ensures
      var later := Before(c, room, obs, k).room.conflicts;
      RowsApart(later) && AllTold(later) && KeepsKept(room.conflicts, later)
  {
    hide Before, ReconcileOne, RowsApart, Told, KeptOwn;
    NothingYet(c, room, obs);
    if k > 0 {
      var mid := Before(c, room, obs, k - 1);
      PassKeepsTold(c, room, obs, k - 1);
      BeforeNext(c, room, obs, k - 1);
      TurnKeepsTold(c, mid.room, mid.board, obs[k - 1]);
      TurnKeepsApart(c, mid.room, mid.board, obs[k - 1]);
    }
  }

  // ---------------------------------------------------------------- the owner's choice

  /** What the owner's choice makes of an open row, and the events it adds. */
  ghost predicate RowAfterChoice(was: Conflict, now: Conflict, action: Choice, added: seq<Event>) {
    if action == KeepCanonical then now == was.(status := Resolved, action := Some(KeepCanonical)) && added == []
    else if action == IgnoreIncoming then now == was.(status := Ignored, action := Some(IgnoreIncoming)) && added == []
    else
      && now == was.(status := Resolved, action := Some(action), resolving := now.resolving)
      && 1 <= |added| <= 2 && |now.resolving| == |added|
      && forall k :: 0 <= k < |added| ==> now.resolving[k] == added[k].id
  }

  lemma ChoiceOfRow(c: Config, room: Room, id: nat, r: Resolution)
    requires ValidConfig(c) && RowsSound(room.conflicts) && ResolveConflict(c, room, id, r).Accepted?
    ensures
      var rows, later := room.conflicts, ResolveConflict(c, room, id, r).room;
      && id < |rows| == |later.conflicts|
      && (forall i :: 0 <= i < |rows| && i != id ==> later.conflicts[i] == rows[i])
      && (rows[id].status != Unresolved ==> later == room)
      && room.log <= later.log
      && (rows[id].status == Unresolved ==>
            RowAfterChoice(rows[id], later.conflicts[id], r.action, later.log[|room.log|..]))
  {
    hide Replay, FindKey, SnakeSlot, SnakeRound, Digits;
  }

  // ---------------------------------------------------------------- whole runs

  /** The rows are apart and told, and rows the owner kept are as they were. */
  ghost predicate RowsKept(rows: seq<Conflict>, later: seq<Conflict>) {
    RowsApart(later) && AllTold(later) && KeepsKept(rows, later)
  }

  lemma SyncKeepsRows(c: Config, room: Room, obs: seq<Observation>, expected: nat)
    requires ValidConfig(c) && Positive(obs) && RowsApart(room.conflicts) && AllTold(room.conflicts)
    requires Reconcile(c, room, obs, expected).Accepted?
    ensures RowsKept(room.conflicts, Reconcile(c, room, obs, expected).room.conflicts)
  {
    hide Replay, FindKey, ReconcileAll, RowsApart, AllTold, KeepsKept, SortObservations;
    var sorted := SortObservations(obs);
    SortedIsPositive(obs);
    PassKeepsTold(c, room, sorted, |sorted|);
    assert sorted[..|sorted|] == sorted;
  }

  lemma ChoiceKeepsRows(c: Config, room: Room, id: nat, r: Resolution)
    requires ValidConfig(c) && RowsSound(room.conflicts) && RowsApart(room.conflicts) && AllTold(room.conflicts)
    requires ResolveConflict(c, room, id, r).Accepted?
    ensures RowsKept(room.conflicts, ResolveConflict(c, room, id, r).room.conflicts)
  {
    hide ResolveConflict;
    ChoiceOfRow(c, room, id, r);
    var rows, later := room.conflicts, ResolveConflict(c, room, id, r).room;
    forall i | 0 <= i < |rows|
      ensures Told(later.conflicts[i]) && later.conflicts[i].incoming == rows[i].incoming
      ensures KeptOwn(rows[i]) ==> later.conflicts[i] == rows[i]
    {
      assert Told(rows[i]);
    }
  }

  lemma PickKeepsRows(c: Config, room: Room, req: PickRequest)
    requires ValidConfig(c) && AppendPick(c, room, req).Done?
    ensures AppendPick(c, room, req).room.conflicts == room.conflicts
  {
    hide Replay, FindKey, ActiveTarget, SnakeSlot, SnakeRound;
  }

  lemma PerformKeepsRows(c: Config, room: Room, cmd: Command)
    requires ValidConfig(c) && WellFormed(cmd) && RowsSound(room.conflicts)
    requires RowsApart(room.conflicts) && AllTold(room.conflicts)
    ensures RowsKept(room.conflicts, Perform(c, room, cmd).conflicts)
  {
    hide AppendPick, Reconcile, ResolveConflict, Replay, FindKey, RowsApart, AllTold, KeptOwn;
    match cmd {
      case PickCommand(req) =>
        if AppendPick(c, room, req).Done? { PickKeepsRows(c, room, req); }
      case SyncCommand(obs, at) =>
        if Reconcile(c, room, obs, at).Accepted? { SyncKeepsRows(c, room, obs, at); }
      case ResolveCommand(row, res) =>
        if ResolveConflict(c, room, row, res).Accepted? { ChoiceKeepsRows(c, room, row, res); }
      case _ =>
    }
  }

  /**
    Over every run a provider entry has one row, its status, action and events fit, and a row the owner settled
    against the provider stays as it is, through every later batch and choice.
  */
  lemma {:induction false} KeptRowsStay(c: Config, room: Room, cmds: seq<Command>)
    requires ValidConfig(c) && Sound(c, room) && AllWellFormed(cmds)
    requires RowsApart(room.conflicts) && AllTold(room.conflicts)
    ensures RowsKept(room.conflicts, Run(c, room, cmds).conflicts)
  {
    hide Sound, Perform, Replay, RowsApart, AllTold, KeptOwn;
    if |cmds| > 0 {
      var front := Run(c, room, cmds[..|cmds| - 1]);
      KeptRowsStay(c, room, cmds[..|cmds| - 1]);
      SoundBoundary(c, front);
      PerformKeepsRows(c, front, cmds[|cmds| - 1]);
    }
  }

  /** From a new room on. */
  lemma RowsOverRuns(c: Config, mode: SourceMode, cmds: seq<Command>)
    requires ValidConfig(c) && AllWellFormed(cmds)
    ensures Sound(c, FreshRoom(mode))
    ensures RowsApart(Run(c, FreshRoom(mode), cmds).conflicts) && AllTold(Run(c, FreshRoom(mode), cmds).conflicts)
  {
    FreshRoomIsSound(c, mode);
    KeptRowsStay(c, FreshRoom(mode), cmds);
  }

  // ---------------------------------------------------------------- a batch

  lemma SortedProvidersApart(obs: seq<Observation>)
    requires ProvidersApart(obs)
    ensures ProvidersApart(SortObservations(obs))
  {
    hide SortObservations;
    var sorted := SortObservations(obs);
    var places := SortIsStable(obs);
    forall i, j | 0 <= i < j < |sorted| ensures !SameProvider(sorted[i], sorted[j]) {
      var a, b := places[i], places[j];
      assert if a < b then !SameProvider(obs[a], obs[b]) else !SameProvider(obs[b], obs[a]);
    }
  }

  /** The row at `i` after a pass: as the turn of its observation leaves it, or as it was. */
  ghost predicate RowTurned(c: Config, room: Room, obs: seq<Observation>, later: seq<Conflict>, i: nat)
    requires ValidConfig(c) && Positive(obs) && i < |room.conflicts|
  {
    && i < |later|
    && (NotAmong(room.conflicts[i].incoming, obs, 0, |obs|) ==> later[i] == room.conflicts[i])
    && forall j :: 0 <= j < |obs| && SameProvider(room.conflicts[i].incoming, obs[j]) ==>
         RowAfterTurn(c, Before(c, room, obs, j).room, Before(c, room, obs, j).board, obs[j], room.conflicts[i], later[i])
  }

  /** An observation without a row has one exactly when it was neither on the board nor applied at its turn. */
  ghost predicate RowOpened(c: Config, room: Room, obs: seq<Observation>, later: seq<Conflict>, j: nat)
    requires ValidConfig(c) && Positive(obs) && j < |obs|
  {
    var b := Before(c, room, obs, j);
    && (HasRow(later, obs[j]) <==> !OnBoard(c, b.board, obs[j]) && !Applies(c, b.room, b.board, obs[j]))
    && forall i :: 0 <= i < |later| && SameProvider(later[i].incoming, obs[j]) ==>
         later[i].incoming == obs[j] && OpenedAt(c, b.room, b.board, later[i])
  }

  /** The rows after a batch in which no provider entry comes twice. Its observations take their turns by overall. */
  lemma BatchOfRows(c: Config, room: Room, obs: seq<Observation>, expected: nat)
    requires ValidConfig(c) && Positive(obs) && RowsApart(room.conflicts) && ProvidersApart(obs)
    requires Reconcile(c, room, obs, expected).Accepted?
    ensures Positive(SortObservations(obs))
    ensures
      var sorted, later := SortObservations(obs), Reconcile(c, room, obs, expected).room.conflicts;
      && (forall i :: 0 <= i < |room.conflicts| ==> RowTurned(c, room, sorted, later, i))
      && (forall j :: 0 <= j < |sorted| && !HasRow(room.conflicts, sorted[j]) ==> RowOpened(c, room, sorted, later, j))
  {
    hide Replay, ReconcileAll, OnBoard, Applies, RowsApart, ProvidersApart, SortObservations, RowAfterTurn, OpenedAt, HasRow,
         NotAmong;
    var sorted := SortObservations(obs);
    SortedIsPositive(obs);
    SortedProvidersApart(obs);
    assert sorted[..|sorted|] == sorted;
    var later := Reconcile(c, room, obs, expected).room.conflicts;
    assert later == Before(c, room, sorted, |sorted|).room.conflicts;
    forall i | 0 <= i < |room.conflicts| ensures RowTurned(c, room, sorted, later, i) {
      PassOfRows(c, room, sorted, i);
    }
    forall j | 0 <= j < |sorted| && !HasRow(room.conflicts, sorted[j]) ensures RowOpened(c, room, sorted, later, j) {
      PassOpensRows(c, room, sorted, j);
    }
  }

  // ---------------------------------------------------------------- nothing stays hidden

  /** The disagreement has an open row, or one that the owner settled against the provider. */
  ghost predicate Shown(rows: seq<Conflict>, o: Observation) {
    exists i :: 0 <= i < |rows| && SameProvider(rows[i].incoming, o) && (rows[i].status == Unresolved || KeptOwn(rows[i]))
  }

  lemma TurnShows(c: Config, room: Room, board: Board, o: Observation)
    requires ValidConfig(c) && o.overall >= 1 && RowsApart(room.conflicts) && AllTold(room.conflicts)
    requires !OnBoard(c, board, o) && !Applies(c, room, board, o)
    ensures Shown(ReconcileOne(c, room, board, o).room.conflicts, o)
  {
    hide ReconcileOne, OnBoard, Applies, RowsApart;
    TurnOfRows(c, room, board, o);
    var rows, later := room.conflicts, ReconcileOne(c, room, board, o).room.conflicts;
    if HasRow(rows, o) {
      var i :| 0 <= i < |rows| && SameProvider(rows[i].incoming, o);
      assert RowFollows(c, room, board, o, later, i) && Told(rows[i]);
    } else {
      assert SameProvider(later[|rows|].incoming, o);
    }
  }

  /** What is on the board or applied is on the board after the turn. */
  lemma TurnPlaces(c: Config, room: Room, o: Observation)
    requires ValidConfig(c) && Sound(c, room) && o.overall >= 1
    requires OnBoard(c, Replay(room.log), o) || Applies(c, room, Replay(room.log), o)
    ensures OnBoard(c, ReconcileOne(c, room, Replay(room.log), o).board, o)
  {
    hide Replay, Sound, ReconcileOne, FindKey, ObservationKey, SnakeSlot, MatchesPlaceholder;
    TurnIs(c, room, o);
  }

  /** Turns of other overalls leave it there. */
  lemma {:induction false} PlaceStays(c: Config, room: Room, obs: seq<Observation>, j: nat, k: nat)
    requires ValidConfig(c) && Sound(c, room) && Positive(obs) && OverallsRise(obs) && j < k <= |obs|
    requires OnBoard(c, Before(c, room, obs, j + 1).board, obs[j])
    ensures OnBoard(c, Before(c, room, obs, k).board, obs[j])
    decreases k
  {
    hide Replay, Sound, ReconcileOne, Before, Upgradable, Usable;
    if j + 1 < k {
      PlaceStays(c, room, obs, j, k - 1);
      BeforeIsSound(c, room, obs, k - 1);
      BeforeNext(c, room, obs, k - 1);
      TurnIs(c, Before(c, room, obs, k - 1).room, obs[k - 1]);
    }
  }

  lemma PassShows(c: Config, room: Room, obs: seq<Observation>, j: nat)
    requires ValidConfig(c) && Sound(c, room) && Positive(obs) && OverallsRise(obs) && ProvidersApart(obs) && j < |obs|
    requires RowsApart(room.conflicts) && AllTold(room.conflicts)
    ensures
      var p := Before(c, room, obs, |obs|);
      OnBoard(c, p.board, obs[j]) || Shown(p.room.conflicts, obs[j])
  {
    hide Sound, Before, ReconcileOne, OnBoard, Applies, RowsApart, AllTold, ProvidersApart, OverallsRise, NotAmong;
    var b := Before(c, room, obs, j);
    BeforeIsSound(c, room, obs, j);
    BeforeNext(c, room, obs, j);
    PassKeepsTold(c, room, obs, j);
    if OnBoard(c, b.board, obs[j]) || Applies(c, b.room, b.board, obs[j]) {
      TurnPlaces(c, b.room, obs[j]);
      PlaceStays(c, room, obs, j, |obs|);
    } else {
      TurnShows(c, b.room, b.board, obs[j]);
      RowsUntilTurn(c, room, obs, 0, j);
      RowsUntilTurn(c, room, obs, j + 1, |obs|);
      var now := Before(c, room, obs, j + 1).room.conflicts;
      var i :| 0 <= i < |now| && SameProvider(now[i].incoming, obs[j]) && (now[i].status == Unresolved || KeptOwn(now[i]));
      ProviderOnce(now[i].incoming, obs, j);
    }
  }

  /**
    After a batch without an overall or a provider entry twice, each of its picks is the player's on the board, or
    has a row that is open or that the owner settled against the provider.
  */
  lemma DifferencesAreShown(c: Config, room: Room, obs: seq<Observation>, expected: nat, o: Observation)
    requires ValidConfig(c) && Sound(c, room) && Positive(obs) && OverallsApart(obs) && ProvidersApart(obs) && o in obs
    requires RowsApart(room.conflicts) && AllTold(room.conflicts)
    requires Reconcile(c, room, obs, expected).Accepted?
    ensures
      var later := Reconcile(c, room, obs, expected).room;
      OnBoard(c, Replay(later.log), o) || Shown(later.conflicts, o)
  {
    hide Sound, Replay, ReconcileAll, OnBoard, Shown, RowsApart, AllTold, ProvidersApart, OverallsApart, OverallsRise,
         CloseIfFull, SortObservations;
    var sorted := SortObservations(obs);
    SortedIsPositive(obs);
    SortedRises(obs);
    SortedProvidersApart(obs);
    assert o in multiset(sorted);
    var j :| 0 <= j < |sorted| && sorted[j] == o;
    PassShows(c, room, sorted, j);
    BeforeIsSound(c, room, sorted, |sorted|);
    assert sorted[..|sorted|] == sorted;
    CloseIfFullKeeps(c, ReconcileAll(c, room, Replay(room.log), sorted));
  }
}
