/**
  A schedule import told on the fields of games and rows: which lines are taken over, which game a row updates,
  and what each game is afterwards.
*/
module ScheduleLaws {
  import opened Wrappers
  import opened PoolModel
  import opened Schedule

  // ---------------------------------------------------------------- the lines taken over

  /** A line of the season, of an accepted kind, with two different teams and a week. */
  ghost predicate TakenOver(l: Line, season: int) {
    && l.season == season && l.accepted && l.row.week != 0
    && |l.row.away| > 0 && |l.row.home| > 0 && l.row.away != l.row.home
  }

  lemma {:induction false} KeptRowsTold(lines: seq<Line>, season: int, r: Row)
    ensures r in KeptRows(lines, season) <==> exists l :: l in lines && TakenOver(l, season) && l.row == r
  {
    if |lines| > 0 {
      var front, last := lines[..|lines| - 1], lines[|lines| - 1];
      KeptRowsTold(front, season, r);
      assert lines == front + [last];
    }
  }

  // ---------------------------------------------------------------- the game of a row

  /** The game has the feed's name of the row. */
  ghost predicate HasName(g: Game, season: int, r: Row) {
    g.season == season && r.identity != None && g.identity == r.identity
  }

  /** The game is the one the row's teams play in its week. */
  ghost predicate HasTeams(g: Game, season: int, r: Row) {
    g.season == season && g.week == r.week && g.away == r.away && g.home == r.home
  }

  /** The row may take the game over: one of them has no name, or the game's is the provisional one of the row. */
  ghost predicate MayTakeOver(g: Game, r: Row) {
    || r.identity == None || g.identity == None
    || (g.fromFeed && g.identity.value.kind == GameId && r.identity.value.kind == Gsis
        && r.fallback == Some(g.identity.value.key))
  }

  lemma OneName(games: seq<Game>, season: int, r: Row, i: nat, j: nat)
    requires SeasonUnique(games, season) && i < |games| && j < |games|
    requires HasName(games[i], season, r) && HasName(games[j], season, r)
    ensures i == j
  {
  }

  lemma OneMatchup(games: seq<Game>, season: int, r: Row, i: nat, j: nat)
    requires SeasonUnique(games, season) && i < |games| && j < |games|
    requires HasTeams(games[i], season, r) && HasTeams(games[j], season, r)
    ensures i == j
  {
  }

  /** The only game of that name, or of those teams. */
  lemma FoundAre(games: seq<Game>, season: int, r: Row)
    requires SeasonUnique(games, season)
    ensures forall i :: 0 <= i < |games| && HasName(games[i], season, r) ==> FindNamed(games, season, r) == Some(i)
    ensures forall i :: 0 <= i < |games| && HasTeams(games[i], season, r) ==> FindAt(games, season, r) == Some(i)
  {
    hide FindNamed, FindAt, SeasonUnique;
    forall i | 0 <= i < |games| && HasName(games[i], season, r) ensures FindNamed(games, season, r) == Some(i) {
      assert Named(games[i], season, r);
      OneName(games, season, r, i, FindNamed(games, season, r).value);
    }
    forall i | 0 <= i < |games| && HasTeams(games[i], season, r) ensures FindAt(games, season, r) == Some(i) {
      assert At(games[i], season, r);
      OneMatchup(games, season, r, i, FindAt(games, season, r).value);
    }
  }

  /** The game that a row updates: the one of its name unless another has its teams, or the one of its teams. */
  ghost predicate Updates(games: seq<Game>, season: int, r: Row, i: nat)
    requires i < |games|
  {
    || (HasName(games[i], season, r) && forall j :: 0 <= j < |games| && HasTeams(games[j], season, r) ==> j == i)
    || (HasTeams(games[i], season, r) && MayTakeOver(games[i], r)
        && forall j :: 0 <= j < |games| ==> !HasName(games[j], season, r))
  }

  /** No game has the name or the teams of the row. */
  ghost predicate IsUnknown(games: seq<Game>, season: int, r: Row) {
    forall j :: 0 <= j < |games| ==> !HasName(games[j], season, r) && !HasTeams(games[j], season, r)
  }

  /** A row updates its game, is written as a new one if it is unknown, and is refused otherwise. */
  lemma TargetTold(games: seq<Game>, season: int, r: Row)
    requires SeasonUnique(games, season)
    ensures
      match TargetOf(games, season, r)
      case Existing(i) => i < |games| && Updates(games, season, r, i)
      case NewGame => IsUnknown(games, season, r)
      case Conflicting => !IsUnknown(games, season, r) && forall i :: 0 <= i < |games| ==> !Updates(games, season, r, i)
  {
    hide FindNamed, FindAt;
    FoundAre(games, season, r);
    var named, at := FindNamed(games, season, r), FindAt(games, season, r);
    if named.Some? {
      assert HasName(games[named.value], season, r);
    }
    if at.Some? {
      assert HasTeams(games[at.value], season, r);
    }
  }

  // ---------------------------------------------------------------- the games afterwards

  /** The game as it was, but with what the row says, and stamped if its kickoff had come. */
  ghost predicate UpdatedFrom(was: Game, g: Game, season: int, r: Row, now: int) {
    && Carries(g, season, r, now) && g.id == was.id
    && g.lockedAt == (if was.lockedAt == None && was.kickoff <= now then Some(now) else was.lockedAt)
  }

  /** The row that updates each game, if any, and the one that is written as each new game. */
  ghost predicate Imports(games: seq<Game>, season: int, rows: seq<Row>, firstId: int, now: int, after: seq<Game>, t: nat)
    requires t < |after|
  {
    if t < |games| then
      || (after[t] == games[t] && forall k :: 0 <= k < |rows| ==> TargetOf(games, season, rows[k]) != Existing(t))
      || exists k :: 0 <= k < |rows| && TargetOf(games, season, rows[k]) == Existing(t)
                     && UpdatedFrom(games[t], after[t], season, rows[k], now)
    else
      exists k :: 0 <= k < |rows| && TargetOf(games, season, rows[k]) == NewGame
        && Carries(after[t], season, rows[k], now) && after[t].id == firstId + t - |games| && after[t].lockedAt == None
  }

  lemma RowWrites(was: Game, season: int, id: int, r: Row, now: int)
    ensures was.season == season ==> UpdatedFrom(was, FromRow(StampDue(was, now), r, now), season, r, now)
    ensures
      var g := FromRow(Blank(season, id), r, now);
      Carries(g, season, r, now) && g.id == id && g.lockedAt == None
  {
  }

  lemma FrontApart(games: seq<Game>, season: int, rows: seq<Row>)
    requires |rows| > 0 && Plannable(games, season, rows) && !Collide(games, season, rows)
    ensures Plannable(games, season, rows[..|rows| - 1]) && !Collide(games, season, rows[..|rows| - 1])
    ensures TargetOf(games, season, rows[|rows| - 1]).Existing? ==>
              forall k :: 0 <= k < |rows| - 1 ==>
                TargetOf(games, season, rows[k]) != TargetOf(games, season, rows[|rows| - 1])
  {
    hide TargetOf;
    var front := rows[..|rows| - 1];
    assert forall k :: 0 <= k < |front| ==> front[k] == rows[k];
  }

  /**
    Without two rows for one game an import leaves a game that no row updates as it was, gives every other one what
    its row says, stamps those whose kickoff had come, and adds the unknown rows as new games that are not locked.
  */
  lemma {:induction false} GamesAfterImport(games: seq<Game>, season: int, rows: seq<Row>, firstId: int, now: int)
    requires Plannable(games, season, rows) && !Collide(games, season, rows)
    ensures
      var after := WriteAll(games, season, rows, firstId, now);
      forall t :: 0 <= t < |after| ==> Imports(games, season, rows, firstId, now, after, t)
  {
    hide TargetOf, Write, Carries, UpdatedFrom, Collide;
    var after := WriteAll(games, season, rows, firstId, now);
    if |rows| > 0 {
      var n := |rows| - 1;
      var front := rows[..n];
      assert forall k :: 0 <= k < n ==> front[k] == rows[k];
      FrontApart(games, season, rows);
      GamesAfterImport(games, season, front, firstId, now);
      var before := WriteAll(games, season, front, firstId, now);
      WriteIs(games, season, rows, firstId, now);
      TargetInSeason(games, season, rows[n]);
      var target := TargetOf(games, season, rows[n]);
      forall t | 0 <= t < |after| ensures Imports(games, season, rows, firstId, now, after, t) {
        if target == Existing(t) {
          assert Imports(games, season, front, firstId, now, before, t);
          assert before[t] == games[t];
          RowWrites(games[t], season, 0, rows[n], now);
          assert UpdatedFrom(games[t], after[t], season, rows[n], now);
        } else if t < |before| {
          assert Imports(games, season, front, firstId, now, before, t);
          StaysImported(games, season, rows, firstId, now, before, after, t);
        } else {
          RowWrites(Blank(season, 0), season, firstId + |before| - |games|, rows[n], now);
          assert target == NewGame && Carries(after[t], season, rows[n], now);
        }
      }
    }
  }

  lemma StaysImported(games: seq<Game>, season: int, rows: seq<Row>, firstId: int, now: int, before: seq<Game>,
                      after: seq<Game>, t: nat)
    requires |rows| > 0 && t < |before| && t < |after| && after[t] == before[t]
    requires Imports(games, season, rows[..|rows| - 1], firstId, now, before, t)
    requires TargetOf(games, season, rows[|rows| - 1]) != Existing(t)
    ensures Imports(games, season, rows, firstId, now, after, t)
  {
    hide TargetOf, Carries, UpdatedFrom;
    var front := rows[..|rows| - 1];
    assert forall k :: 0 <= k < |front| ==> front[k] == rows[k];
    if t < |games| {
      if k :| 0 <= k < |front| && TargetOf(games, season, front[k]) == Existing(t)
              && UpdatedFrom(games[t], before[t], season, front[k], now) {
        assert rows[k] == front[k];
      }
    } else {
      var k :| 0 <= k < |front| && TargetOf(games, season, front[k]) == NewGame && Carries(before[t], season, front[k], now);
      assert rows[k] == front[k];
    }
  }
}
