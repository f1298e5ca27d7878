/**
  Import of a season schedule: every row finds its game first, and only when no row conflicts
  are the games written. Two keys stay unique, the matchup and the feed's identity.
*/
module Schedule {
  import opened Wrappers
  import opened PoolModel
  import opened PoolOutcomes

  datatype Row = Row(
    week: int,
    away: string,
    home: string,
    kickoff: int,
    homeWin: real,
    homeCover: real,
    winKind: ProbabilityKind,
    coverKind: ProbabilityKind,
    spreadHome: Option<real>,
    homeScore: Option<int>,
    awayScore: Option<int>,
    identity: Option<Identity>,
    fallback: Option<string>)

  /** A line of the feed before it is taken over. */
  datatype Line = Line(season: int, accepted: bool, row: Row)

  predicate SameMatchup(x: Row, y: Row) {
    x.week == y.week && x.away == y.away && x.home == y.home
  }

  predicate SameIdentity(x: Row, y: Row) {
    x.identity.Some? && x.identity == y.identity
  }

  // ---------------------------------------------------------------- reading the feed

  predicate Kept(l: Line, season: int) {
    && l.season == season && l.accepted
    && l.row.away != "" && l.row.home != "" && l.row.away != l.row.home && l.row.week != 0
  }

  function KeptRows(lines: seq<Line>, season: int): seq<Row> {
    if |lines| == 0 then []
    else
      var l := lines[|lines| - 1];
      KeptRows(lines[..|lines| - 1], season) + (if Kept(l, season) then [l.row] else [])
  }

  /** No matchup twice, no identity twice. */
  ghost predicate RowsApart(rows: seq<Row>) {
    forall i, j :: 0 <= i < j < |rows| ==> !SameMatchup(rows[i], rows[j]) && !SameIdentity(rows[i], rows[j])
  }

  datatype Feed = Rows(rows: seq<Row>) | Clash

  type Matchup = (int, string, string)

  function MatchupOf(r: Row): Matchup {
    (r.week, r.away, r.home)
  }

  function Matchups(rows: seq<Row>): set<Matchup> {
    if |rows| == 0 then {} else Matchups(rows[..|rows| - 1]) + {MatchupOf(rows[|rows| - 1])}
  }

  /** The matchup under which each identity was read. */
  function Identities(rows: seq<Row>): map<Identity, Matchup> {
    if |rows| == 0 then map[]
    else
      var r := rows[|rows| - 1];
      var front := Identities(rows[..|rows| - 1]);
      if r.identity.Some? then front[r.identity.value := MatchupOf(r)] else front
  }

  lemma {:induction false} MatchupRow(rows: seq<Row>, m: Matchup) returns (k: nat)
    requires m in Matchups(rows)
    ensures k < |rows| && MatchupOf(rows[k]) == m
  {
    k := |rows| - 1;
    if MatchupOf(rows[k]) != m {
      k := MatchupRow(rows[..k], m);
    }
  }

  lemma {:induction false} IdentityRow(rows: seq<Row>, d: Identity) returns (k: nat)
    requires d in Identities(rows)
    ensures k < |rows| && rows[k].identity == Some(d) && MatchupOf(rows[k]) == Identities(rows)[d]
  {
    k := |rows| - 1;
    if rows[k].identity != Some(d) {
      k := IdentityRow(rows[..k], d);
    }
  }

  lemma {:induction false} RowIsKnown(rows: seq<Row>, k: nat)
    requires k < |rows|
    ensures MatchupOf(rows[k]) in Matchups(rows)
    ensures rows[k].identity.Some? ==> rows[k].identity.value in Identities(rows)
  {
    if k < |rows| - 1 {
      RowIsKnown(rows[..|rows| - 1], k);
    }
  }

  /** A row with a new matchup and no known identity keeps the rows apart. */
  lemma ApartSnoc(rows: seq<Row>, r: Row)
    requires RowsApart(rows) && MatchupOf(r) !in Matchups(rows)
    requires r.identity.Some? ==> r.identity.value !in Identities(rows)
    ensures RowsApart(rows + [r])
  {
    forall k | 0 <= k < |rows| ensures !SameMatchup(rows[k], r) && !SameIdentity(rows[k], r) {
      RowIsKnown(rows, k);
    }
  }

  /** Reads the lines of a season; a repeated matchup or identity refuses the feed. */
  method ParsedSchedule(lines: seq<Line>, season: int) returns (feed: Feed)
    ensures feed.Rows? <==> RowsApart(KeptRows(lines, season))
    ensures feed.Rows? ==> feed.rows == KeptRows(lines, season)
  {
    hide RowsApart, Kept;
    var parsed: seq<Row> := [];
    var matchups: set<Matchup> := {};
    var identities: map<Identity, Matchup> := map[];
    NoRowsApart();
    for i := 0 to |lines|
      invariant parsed == KeptRows(lines[..i], season) && RowsApart(parsed)
      invariant matchups == Matchups(parsed) && identities == Identities(parsed)
    {
      assert lines[..i + 1][..i] == lines[..i];
      if !Kept(lines[i], season) {
        continue;
      }
      var row := lines[i].row;
      if MatchupOf(row) in matchups {
        var k := MatchupRow(parsed, MatchupOf(row));
        ClashStays(lines, season, i, k);
        return Clash;
      }
      if row.identity.Some? {
        if row.identity.value in identities {
          var k := IdentityRow(parsed, row.identity.value);
          RowIsKnown(parsed, k);
          if identities[row.identity.value] != MatchupOf(row) {
            ClashStays(lines, season, i, k);
            return Clash;
          }
        }
        identities := identities[row.identity.value := MatchupOf(row)];
      }
      ApartSnoc(parsed, row);
      matchups := matchups + {MatchupOf(row)};
      assert (parsed + [row])[..|parsed|] == parsed;
      parsed := parsed + [row];
    }
    assert lines[..|lines|] == lines;
    feed := Rows(parsed);
  }

  lemma NoRowsApart()
    ensures RowsApart([])
  {
  }

  lemma {:induction false} KeptPrefix(lines: seq<Line>, season: int, i: nat)
    requires i <= |lines|
    ensures KeptRows(lines[..i], season) <= KeptRows(lines, season)
  {
    if i < |lines| {
      KeptPrefix(lines[..|lines| - 1], season, i);
      assert lines[..|lines| - 1][..i] == lines[..i];
    } else {
      assert lines[..i] == lines;
    }
  }

  /** Two rows that clash in a prefix clash in the whole feed. */
  lemma ClashStays(lines: seq<Line>, season: int, i: nat, k: nat)
    requires i < |lines| && Kept(lines[i], season) && k < |KeptRows(lines[..i], season)|
    requires
      var x := KeptRows(lines[..i], season)[k];
      SameMatchup(x, lines[i].row) || SameIdentity(x, lines[i].row)
    ensures !RowsApart(KeptRows(lines, season))
  {
    var front := KeptRows(lines[..i], season);
    assert lines[..i + 1][..i] == lines[..i];
    assert KeptRows(lines[..i + 1], season) == front + [lines[i].row];
    KeptPrefix(lines, season, i + 1);
    assert KeptRows(lines, season)[k] == front[k];
    assert KeptRows(lines, season)[|front|] == lines[i].row;
  }

  // ---------------------------------------------------------------- finding the games

  predicate At(g: Game, season: int, r: Row) {
    g.season == season && g.week == r.week && g.away == r.away && g.home == r.home
  }

  predicate Named(g: Game, season: int, r: Row) {
    g.season == season && r.identity.Some? && g.identity == r.identity
  }

  /** The last game that carries the row's identity. */
  function FindNamed(games: seq<Game>, season: int, r: Row): (at: Option<nat>)
    ensures at.Some? ==> at.value < |games| && Named(games[at.value], season, r)
    ensures at.None? ==> forall i :: 0 <= i < |games| ==> !Named(games[i], season, r)
  {
    if |games| == 0 then None
    else if Named(games[|games| - 1], season, r) then Some(|games| - 1)
    else FindNamed(games[..|games| - 1], season, r)
  }

  /** The last game at the row's matchup. */
  function FindAt(games: seq<Game>, season: int, r: Row): (at: Option<nat>)
    ensures at.Some? ==> at.value < |games| && At(games[at.value], season, r)
    ensures at.None? ==> forall i :: 0 <= i < |games| ==> !At(games[i], season, r)
  {
    if |games| == 0 then None
    else if At(games[|games| - 1], season, r) then Some(|games| - 1)
    else FindAt(games[..|games| - 1], season, r)
  }

  datatype Target = Conflicting | NewGame | Existing(index: nat)

  /** A game known by the feed's own fallback key may take the final key. */
  predicate Promotes(g: Game, r: Row) {
    && g.fromFeed && g.identity.Some? && g.identity.value.kind == GameId
    && r.identity.Some? && r.identity.value.kind == Gsis
    && r.fallback == Some(g.identity.value.key)
  }

  /** The game a row updates, against the games before the import. */
  function TargetOf(games: seq<Game>, season: int, r: Row): Target {
    var named := FindNamed(games, season, r);
    var occupant := FindAt(games, season, r);
    if named.Some? && occupant.Some? && named != occupant then Conflicting
    else if named.Some? then Existing(named.value)
    else if occupant.Some? then
      var g := games[occupant.value];
      if r.identity.Some? && g.identity.Some? && !Promotes(g, r) then Conflicting else Existing(occupant.value)
    else NewGame
  }

  // ---------------------------------------------------------------- writing the games

  function FromRow(g: Game, r: Row, now: int): Game {
    g.(week := r.week, away := r.away, home := r.home, kickoff := r.kickoff,
       homeWin := r.homeWin, homeCover := r.homeCover, winKind := r.winKind, coverKind := r.coverKind,
       spreadHome := r.spreadHome, homeScore := r.homeScore, awayScore := r.awayScore,
       completed := r.homeScore.Some? && r.awayScore.Some? && r.kickoff < now,
       sourceTimestamp := now, fromFeed := true, identity := r.identity)
  }

  /** A game whose kickoff has come is stamped before its kickoff is overwritten. */
  function StampDue(g: Game, now: int): Game {
    if g.lockedAt.None? && g.kickoff <= now then g.(lockedAt := Some(now)) else g
  }

  function Blank(season: int, id: int): Game {
    Game(id, season, 0, "", "", 0, None, 0.5, 0.5, LegacyUnknown, LegacyUnknown, None, None, None, false, 0, true, None)
  }

  function Write(games: seq<Game>, season: int, r: Row, target: Target, id: int, now: int): seq<Game> {
    match target
    case Existing(i) => if i < |games| then games[i := FromRow(StampDue(games[i], now), r, now)] else games
    case _ => games + [FromRow(Blank(season, id), r, now)]
  }

  /** The games after the first rows are written; targets were found before any was. */
  function WriteAll(games: seq<Game>, season: int, rows: seq<Row>, firstId: int, now: int): (after: seq<Game>)
    ensures |after| >= |games|
  {
    if |rows| == 0 then games
    else
      var before := WriteAll(games, season, rows[..|rows| - 1], firstId, now);
      var r := rows[|rows| - 1];
      Write(before, season, r, TargetOf(games, season, r), firstId + |before| - |games|, now)
  }

  lemma WriteAllNone(games: seq<Game>, season: int, rows: seq<Row>, firstId: int, now: int)
    ensures WriteAll(games, season, rows[..0], firstId, now) == games
  {
  }

  /** One more row. */
  lemma {:induction false} WriteAllNext(games: seq<Game>, season: int, rows: seq<Row>, i: nat, firstId: int, now: int)
    requires i < |rows|
    ensures
      var before := WriteAll(games, season, rows[..i], firstId, now);
      WriteAll(games, season, rows[..i + 1], firstId, now)
      == Write(before, season, rows[i], TargetOf(games, season, rows[i]), firstId + |before| - |games|, now)
  {
    hide Write, TargetOf;
    assert rows[..i + 1][..i] == rows[..i];
  }

  ghost predicate Plannable(games: seq<Game>, season: int, rows: seq<Row>) {
    forall i :: 0 <= i < |rows| ==> TargetOf(games, season, rows[i]) != Conflicting
  }

  datatype Import = Imported(created: nat, updated: nat) | Refused

  class Season {
    var games: seq<Game>
    var nextId: int
    var entries: seq<Settled>

    /** Plans every row, then writes them all and settles the season, or writes nothing. */
    method ParseSchedule(lines: seq<Line>, season: int, now: int) returns (r: Import)
      requires AllMatching(entries)
      modifies this
      ensures r.Refused? <==> !RowsApart(KeptRows(lines, season)) || !Plannable(old(games), season, KeptRows(lines, season))
      ensures r.Refused? ==> games == old(games) && nextId == old(nextId) && entries == old(entries)
      ensures r.Imported? ==>
        && games == WriteAll(old(games), season, KeptRows(lines, season), old(nextId), now)
        && r.created == |games| - |old(games)| && r.created + r.updated == |KeptRows(lines, season)|
        && nextId == old(nextId) + r.created
        && AllSettled(old(entries), entries, games, season)
    {
      hide AllSettled, AllMatching, TargetOf, FromRow, StampDue, Blank, KeptRows, RowsApart, WriteAll;
      var feed := ParsedSchedule(lines, season);
      if feed.Clash? {
        return Refused;
      }
      var rows := feed.rows;
      ghost var was, first := games, nextId;
      var plans: seq<Target> := [];
      for i := 0 to |rows|
        invariant |plans| == i && games == was && nextId == first && entries == old(entries)
        invariant forall k :: 0 <= k < i ==> plans[k] == TargetOf(was, season, rows[k]) && plans[k] != Conflicting
      {
        var target := TargetOf(games, season, rows[i]);
        if target.Conflicting? {
          return Refused;
        }
        plans := plans + [target];
      }
      var created, updated := 0, 0;
      WriteAllNone(was, season, rows, first, now);
      for i := 0 to |rows|
        invariant games == WriteAll(was, season, rows[..i], first, now) && entries == old(entries)
        invariant created == |games| - |was| && created + updated == i && nextId == first + created
        invariant forall k :: 0 <= k < |rows| ==> plans[k] == TargetOf(was, season, rows[k]) && plans[k] != Conflicting
      {
        WriteAllNext(was, season, rows, i, first, now);
        if plans[i].Existing? {
          var at := plans[i].index;
          TargetInSeason(was, season, rows[i]);
          games := games[at := FromRow(StampDue(games[at], now), rows[i], now)];
          updated := updated + 1;
        } else {
          games := games + [FromRow(Blank(season, nextId), rows[i], now)];
          nextId := nextId + 1;
          created := created + 1;
        }
      }
      assert rows[..|rows|] == rows;
      entries := SettleSeason(entries, games, season);
      r := Imported(created, updated);
    }
  }

  // ---------------------------------------------------------------- what an import keeps

  predicate GamesAtSame(g: Game, h: Game) {
    g.season == h.season && g.week == h.week && g.away == h.away && g.home == h.home
  }

  predicate GamesNamedSame(g: Game, h: Game) {
    g.season == h.season && g.identity.Some? && g.identity == h.identity
  }

  /** Over the games of a season no matchup and no identity occurs twice. */
  ghost predicate SeasonUnique(games: seq<Game>, season: int) {
    forall i, j :: 0 <= i < j < |games| && games[i].season == season ==>
      !GamesAtSame(games[i], games[j]) && !GamesNamedSame(games[i], games[j])
  }

  /** Games keep their places and numbers; new games follow with the next numbers. */
  ghost predicate Placed(games: seq<Game>, after: seq<Game>, firstId: int) {
    && |after| >= |games|
    && (forall t :: 0 <= t < |games| ==> after[t].id == games[t].id && after[t].season == games[t].season)
    && (forall t :: |games| <= t < |after| ==> after[t].id == firstId + t - |games|)
  }

  ghost predicate LocksKept(games: seq<Game>, after: seq<Game>, now: int) {
    && |after| >= |games|
    && (forall t :: 0 <= t < |games| && GameLocked(games[t], now) ==> after[t].lockedAt.Some? || after[t] == games[t])
    && (forall t :: 0 <= t < |games| && games[t].lockedAt.Some? ==> after[t].lockedAt == games[t].lockedAt)
  }

  /** `writer` names the row that wrote each game last, if any did; no row wrote two games. */
  ghost predicate Written(games: seq<Game>, season: int, rows: seq<Row>, after: seq<Game>, writer: seq<Option<nat>>, now: int) {
    && |writer| == |after| >= |games|
    && (forall t :: |games| <= t < |after| ==> writer[t].Some?)
    && (forall t :: 0 <= t < |after| && writer[t].None? ==> after[t] == games[t] && Untouched(games, season, rows, t))
    && (forall t :: 0 <= t < |after| && writer[t].Some? ==> WrittenBy(games, season, rows, after, t, writer[t].value, now))
    && (forall k :: 0 <= k < |rows| ==> HasGame(games, season, rows, writer, k))
    && (forall t, u :: 0 <= t < u < |after| && writer[t].Some? ==> writer[t] != writer[u])
  }

  /** The game is what the feed says of it. */
  ghost predicate Carries(g: Game, season: int, r: Row, now: int) {
    && g.season == season && g.week == r.week && g.away == r.away && g.home == r.home && g.kickoff == r.kickoff
    && g.homeWin == r.homeWin && g.homeCover == r.homeCover && g.winKind == r.winKind && g.coverKind == r.coverKind
    && g.spreadHome == r.spreadHome && g.homeScore == r.homeScore && g.awayScore == r.awayScore
    && g.identity == r.identity && g.fromFeed && g.sourceTimestamp == now
    && (g.completed <==> r.homeScore != None && r.awayScore != None && r.kickoff < now)
  }

  ghost predicate Untouched(games: seq<Game>, season: int, rows: seq<Row>, t: nat) {
    forall k :: 0 <= k < |rows| ==> TargetOf(games, season, rows[k]) != Existing(t)
  }

  ghost predicate WrittenBy(games: seq<Game>, season: int, rows: seq<Row>, after: seq<Game>, t: nat, k: nat, now: int)
    requires t < |after|
  {
    && k < |rows|
    && Carries(after[t], season, rows[k], now)
    && (if t < |games| then TargetOf(games, season, rows[k]) == Existing(t) else TargetOf(games, season, rows[k]) == NewGame)
    && (forall m :: k < m < |rows| ==> TargetOf(games, season, rows[m]) != Existing(t))
  }

  /** A row's game was written, a new game by the row itself. */
  ghost predicate HasGame(games: seq<Game>, season: int, rows: seq<Row>, writer: seq<Option<nat>>, k: nat)
    requires k < |rows|
  {
    match TargetOf(games, season, rows[k])
    case Existing(t) => t < |writer| && writer[t].Some?
    case _ => exists t :: 0 <= t < |writer| && writer[t] == Some(k)
  }

  lemma TargetInSeason(games: seq<Game>, season: int, r: Row)
    ensures TargetOf(games, season, r).Existing? ==>
              TargetOf(games, season, r).index < |games| && games[TargetOf(games, season, r).index].season == season
  {
  }

  lemma {:induction false} WriteAllPlaces(games: seq<Game>, season: int, rows: seq<Row>, firstId: int, now: int)
    requires Plannable(games, season, rows)
    ensures Placed(games, WriteAll(games, season, rows, firstId, now), firstId)
    ensures LocksKept(games, WriteAll(games, season, rows, firstId, now), now)
  {
    hide TargetOf, Write, Placed, LocksKept;
    if |rows| > 0 {
      var n := |rows| - 1;
      assert forall k :: 0 <= k < n ==> rows[..n][k] == rows[k];
      WriteAllPlaces(games, season, rows[..n], firstId, now);
      TargetInSeason(games, season, rows[n]);
      var before := WriteAll(games, season, rows[..n], firstId, now);
      WritePlaces(games, before, season, rows[n], TargetOf(games, season, rows[n]), firstId, now);
    } else {
      SamePlaces(games, firstId, now);
    }
  }

  lemma SamePlaces(games: seq<Game>, firstId: int, now: int)
    ensures Placed(games, games, firstId) && LocksKept(games, games, now)
  {
  }

  lemma WritePlaces(games: seq<Game>, before: seq<Game>, season: int, r: Row, target: Target, firstId: int, now: int)
    requires Placed(games, before, firstId) && LocksKept(games, before, now)
    requires target.Existing? ==> target.index < |games|
    ensures
      var after := Write(before, season, r, target, firstId + |before| - |games|, now);
      Placed(games, after, firstId) && LocksKept(games, after, now)
  {
    if target.Existing? {
      var t := target.index;
      assert GameLocked(games[t], now) ==> StampDue(before[t], now).lockedAt.Some?;
    }
  }

  lemma {:induction false} WriteAllWritten(games: seq<Game>, season: int, rows: seq<Row>, firstId: int, now: int)
    returns (writer: seq<Option<nat>>)
    requires Plannable(games, season, rows)
    ensures Written(games, season, rows, WriteAll(games, season, rows, firstId, now), writer, now)
  {
    hide TargetOf, Written, Write;
    if |rows| == 0 {
      writer := seq(|games|, i => None);
      NothingWritten(games, season, rows, writer, now);
    } else {
      var n := |rows| - 1;
      var front := rows[..n];
      assert forall k :: 0 <= k < n ==> front[k] == rows[k];
      var prior := WriteAllWritten(games, season, front, firstId, now);
      var before := WriteAll(games, season, front, firstId, now);
      WriteAllPlaces(games, season, front, firstId, now);
      var target := TargetOf(games, season, rows[n]);
      TargetInSeason(games, season, rows[n]);
      WrittenSize(games, season, front, before, prior, now);
      if target.Existing? {
        writer := prior[target.index := Some(n)];
        WriteExisting(games, season, rows, before, prior, target.index,
                      FromRow(StampDue(before[target.index], now), rows[n], now), now);
      } else {
        writer := prior + [Some(n)];
        WriteNew(games, season, rows, before, prior, FromRow(Blank(season, firstId + |before| - |games|), rows[n], now), now);
      }
      WriteIs(games, season, rows, firstId, now);
    }
  }

  lemma WriteIs(games: seq<Game>, season: int, rows: seq<Row>, firstId: int, now: int)
    requires |rows| > 0 && Plannable(games, season, rows)
    ensures
      var n := |rows| - 1;
      var before := WriteAll(games, season, rows[..n], firstId, now);
      var target := TargetOf(games, season, rows[n]);
      WriteAll(games, season, rows, firstId, now) ==
        if target.Existing? && target.index < |before|
        then before[target.index := FromRow(StampDue(before[target.index], now), rows[n], now)]
        else before + [FromRow(Blank(season, firstId + |before| - |games|), rows[n], now)]
  {
    hide TargetOf, FromRow, StampDue, Blank;
    TargetInSeason(games, season, rows[|rows| - 1]);
  }

  lemma WrittenSize(games: seq<Game>, season: int, rows: seq<Row>, after: seq<Game>, writer: seq<Option<nat>>, now: int)
    requires Written(games, season, rows, after, writer, now)
    ensures |writer| == |after|
  {
  }

  lemma NothingWritten(games: seq<Game>, season: int, rows: seq<Row>, writer: seq<Option<nat>>, now: int)
    requires rows == [] && |writer| == |games| && forall t :: 0 <= t < |games| ==> writer[t] == None
    ensures Written(games, season, rows, games, writer, now)
  {
  }

  lemma WriteExisting(games: seq<Game>, season: int, rows: seq<Row>, before: seq<Game>, prior: seq<Option<nat>>, i: nat, g: Game,
                      now: int)
    requires |rows| > 0 && Written(games, season, rows[..|rows| - 1], before, prior, now)
    requires TargetOf(games, season, rows[|rows| - 1]) == Existing(i) && i < |games|
    requires Carries(g, season, rows[|rows| - 1], now)
    ensures Written(games, season, rows, before[i := g], prior[i := Some(|rows| - 1)], now)
  {
    hide TargetOf, At, Carries;
    var n := |rows| - 1;
    var front := rows[..n];
    assert forall k :: 0 <= k < n ==> front[k] == rows[k];
    var after, writer := before[i := g], prior[i := Some(n)];
    forall t | 0 <= t < |after| && writer[t].Some? ensures WrittenBy(games, season, rows, after, t, writer[t].value, now) {
      if t != i {
        assert WrittenBy(games, season, front, before, t, writer[t].value, now);
      }
    }
    forall t | 0 <= t < |after| && writer[t].None? ensures after[t] == games[t] && Untouched(games, season, rows, t) {
      assert Untouched(games, season, front, t);
    }
    forall k | 0 <= k < |rows| ensures HasGame(games, season, rows, writer, k) {
      if k < n {
        assert HasGame(games, season, front, prior, k);
        if !TargetOf(games, season, rows[k]).Existing? {
          var t :| 0 <= t < |prior| && prior[t] == Some(k);
          assert WrittenBy(games, season, front, before, t, k, now);
          assert writer[t] == Some(k);
        }
      }
    }
    forall t | 0 <= t < |after| && writer[t].Some? && t != i ensures writer[t] != writer[i] {
      assert WrittenBy(games, season, front, before, t, writer[t].value, now);
    }
  }

  lemma WriteNew(games: seq<Game>, season: int, rows: seq<Row>, before: seq<Game>, prior: seq<Option<nat>>, g: Game, now: int)
    requires |rows| > 0 && Written(games, season, rows[..|rows| - 1], before, prior, now)
    requires TargetOf(games, season, rows[|rows| - 1]) == NewGame
    requires Carries(g, season, rows[|rows| - 1], now)
    ensures Written(games, season, rows, before + [g], prior + [Some(|rows| - 1)], now)
  {
    hide TargetOf, At, Carries;
    var n := |rows| - 1;
    var front := rows[..n];
    assert forall k :: 0 <= k < n ==> front[k] == rows[k];
    var after, writer := before + [g], prior + [Some(n)];
    forall t | 0 <= t < |after| && writer[t].Some? ensures WrittenBy(games, season, rows, after, t, writer[t].value, now) {
      if t < |before| {
        assert WrittenBy(games, season, front, before, t, writer[t].value, now);
      }
    }
    forall t | 0 <= t < |after| && writer[t].None? ensures after[t] == games[t] && Untouched(games, season, rows, t) {
      assert Untouched(games, season, front, t);
    }
    forall k | 0 <= k < |rows| ensures HasGame(games, season, rows, writer, k) {
      if k < n {
        assert HasGame(games, season, front, prior, k);
        if !TargetOf(games, season, rows[k]).Existing? {
          var t :| 0 <= t < |prior| && prior[t] == Some(k);
          assert writer[t] == Some(k);
        }
      } else {
        assert writer[|before|] == Some(k);
      }
    }
    forall t | 0 <= t < |before| && writer[t].Some? ensures writer[t] != writer[|before|] {
      assert WrittenBy(games, season, front, before, t, writer[t].value, now);
    }
  }

  /** An import leaves both keys unique over the season. */
  lemma ImportKeepsKeysUnique(games: seq<Game>, season: int, rows: seq<Row>, firstId: int, now: int)
    requires RowsApart(rows) && Plannable(games, season, rows) && SeasonUnique(games, season)
    ensures SeasonUnique(WriteAll(games, season, rows, firstId, now), season)
  {
    hide WriteAll, TargetOf;
    var after := WriteAll(games, season, rows, firstId, now);
    var writer := WriteAllWritten(games, season, rows, firstId, now);
    forall t, u | 0 <= t < u < |after| && after[t].season == season
      ensures !GamesAtSame(after[t], after[u]) && !GamesNamedSame(after[t], after[u])
    {
      if writer[t].Some? && writer[u].Some? {
        assert WrittenBy(games, season, rows, after, t, writer[t].value, now);
        assert WrittenBy(games, season, rows, after, u, writer[u].value, now);
        RowsDiffer(rows, writer[t].value, writer[u].value);
      } else if writer[t].Some? {
        assert WrittenBy(games, season, rows, after, t, writer[t].value, now);
        UntouchedDiffers(games, season, rows, writer[t].value, u);
      } else if writer[u].Some? {
        assert WrittenBy(games, season, rows, after, u, writer[u].value, now);
        UntouchedDiffers(games, season, rows, writer[u].value, t);
      }
    }
  }

  lemma RowsDiffer(rows: seq<Row>, i: nat, j: nat)
    requires RowsApart(rows) && i < |rows| && j < |rows| && i != j
    ensures !SameMatchup(rows[i], rows[j]) && !SameIdentity(rows[i], rows[j])
  {
  }

  /** A game that no row updates shares neither key with a row. */
  lemma UntouchedDiffers(games: seq<Game>, season: int, rows: seq<Row>, k: nat, t: nat)
    requires Plannable(games, season, rows) && SeasonUnique(games, season)
    requires k < |rows| && t < |games| && Untouched(games, season, rows, t)
    ensures !At(games[t], season, rows[k]) && !Named(games[t], season, rows[k])
  {
    var named := FindNamed(games, season, rows[k]);
    var occupant := FindAt(games, season, rows[k]);
    if Named(games[t], season, rows[k]) && named.value != t {
      assert GamesNamedSame(games[t], games[named.value]) && GamesNamedSame(games[named.value], games[t]);
      assert false;
    }
    if At(games[t], season, rows[k]) && occupant.value != t {
      assert GamesAtSame(games[t], games[occupant.value]) && GamesAtSame(games[occupant.value], games[t]);
      assert false;
    }
  }

  /** Games keep their place and number, and a game that was locked stays locked whatever kickoff the feed gives it. */
  lemma ImportKeepsLocks(games: seq<Game>, season: int, rows: seq<Row>, firstId: int, now: int, t: nat)
    requires Plannable(games, season, rows) && t < |games|
    ensures
      var after := WriteAll(games, season, rows, firstId, now);
      && after[t].id == games[t].id && after[t].season == games[t].season
      && (GameLocked(games[t], now) ==> GameLocked(after[t], now))
      && (GameLocked(games[t], now) ==> after[t].lockedAt.Some? || after[t] == games[t])
      && (games[t].lockedAt.Some? ==> after[t].lockedAt == games[t].lockedAt)
  {
    hide WriteAll, TargetOf;
    WriteAllPlaces(games, season, rows, firstId, now);
  }

  lemma ImportNumbersNewGames(games: seq<Game>, season: int, rows: seq<Row>, firstId: int, now: int, t: nat)
    requires Plannable(games, season, rows)
    requires |games| <= t < |WriteAll(games, season, rows, firstId, now)|
    ensures WriteAll(games, season, rows, firstId, now)[t].id == firstId + t - |games|
  {
    hide WriteAll, TargetOf;
    WriteAllPlaces(games, season, rows, firstId, now);
  }

  // ---------------------------------------------------------------- rows that are lost

  /** A game carries what the row says. */
  ghost predicate OnFile(games: seq<Game>, season: int, r: Row, now: int) {
    exists t :: 0 <= t < |games| && Carries(games[t], season, r, now)
  }

  /** Two rows update one game: one by its identity, one by its old matchup. */
  ghost predicate Collide(games: seq<Game>, season: int, rows: seq<Row>) {
    exists i, j :: 0 <= i < j < |rows| && TargetOf(games, season, rows[i]).Existing?
      && TargetOf(games, season, rows[i]) == TargetOf(games, season, rows[j])
  }

  /** Every row of an import is on file afterwards exactly when no two rows update one game. */
  lemma RowsAreKeptExactlyWhen(games: seq<Game>, season: int, rows: seq<Row>, firstId: int, now: int)
    requires RowsApart(rows) && Plannable(games, season, rows) && SeasonUnique(games, season)
    ensures (forall k :: 0 <= k < |rows| ==> OnFile(WriteAll(games, season, rows, firstId, now), season, rows[k], now))
            <==> !Collide(games, season, rows)
  {
    hide WriteAll, TargetOf;
    var after := WriteAll(games, season, rows, firstId, now);
    var writer := WriteAllWritten(games, season, rows, firstId, now);
    if Collide(games, season, rows) {
      var i, j :| 0 <= i < j < |rows| && TargetOf(games, season, rows[i]).Existing?
        && TargetOf(games, season, rows[i]) == TargetOf(games, season, rows[j]);
      RowIsLost(games, season, rows, after, writer, i, j, now);
    } else {
      forall k | 0 <= k < |rows| ensures OnFile(after, season, rows[k], now) {
        RowIsKept(games, season, rows, firstId, now, k);
      }
    }
  }

  lemma RowIsLost(games: seq<Game>, season: int, rows: seq<Row>, after: seq<Game>, writer: seq<Option<nat>>, i: nat, j: nat,
                  now: int)
    requires RowsApart(rows) && Plannable(games, season, rows) && SeasonUnique(games, season)
    requires Written(games, season, rows, after, writer, now)
    requires i < j < |rows| && TargetOf(games, season, rows[i]).Existing?
    requires TargetOf(games, season, rows[i]) == TargetOf(games, season, rows[j])
    ensures !OnFile(after, season, rows[i], now)
  {
    hide TargetOf;
    forall t | 0 <= t < |after| ensures !At(after[t], season, rows[i]) {
      if writer[t].None? {
        UntouchedDiffers(games, season, rows, i, t);
      } else {
        assert WrittenBy(games, season, rows, after, t, writer[t].value, now);
        if writer[t].value != i {
          RowsDiffer(rows, writer[t].value, i);
        }
      }
    }
  }

  /** Without a collision every row's own game carries it to the end. */
  lemma RowIsKept(games: seq<Game>, season: int, rows: seq<Row>, firstId: int, now: int, k: nat)
    requires Plannable(games, season, rows) && !Collide(games, season, rows) && k < |rows|
    ensures OnFile(WriteAll(games, season, rows, firstId, now), season, rows[k], now)
  {
    hide TargetOf, WriteAll;
    var after := WriteAll(games, season, rows, firstId, now);
    var writer := WriteAllWritten(games, season, rows, firstId, now);
    assert HasGame(games, season, rows, writer, k);
    var t: nat;
    if TargetOf(games, season, rows[k]).Existing? {
      t := TargetOf(games, season, rows[k]).index;
      TargetInSeason(games, season, rows[k]);
      assert WrittenBy(games, season, rows, after, t, writer[t].value, now);
      assert TargetOf(games, season, rows[writer[t].value]) == TargetOf(games, season, rows[k]);
    } else {
      t :| t < |writer| && writer[t] == Some(k);
    }
    assert WrittenBy(games, season, rows, after, t, writer[t].value, now);
    assert writer[t].value == k;
    assert Carries(after[t], season, rows[k], now);
  }

  /** A moved game and a nameless row at its old matchup: the import succeeds and the move is lost. */
  lemma ImportCanLoseARow(g: Game, moved: Row, nameless: Row, firstId: int, now: int)
    requires g.identity.Some? && moved.identity == g.identity && nameless.identity.None?
    requires At(g, g.season, nameless) && !SameMatchup(moved, nameless)
    ensures RowsApart([moved, nameless]) && Plannable([g], g.season, [moved, nameless]) && SeasonUnique([g], g.season)
    ensures !OnFile(WriteAll([g], g.season, [moved, nameless], firstId, now), g.season, moved, now)
  {
    hide WriteAll;
    var games, rows := [g], [moved, nameless];
    assert games[0] == g && FindAt(games, g.season, nameless) == Some(0);
    assert FindNamed(games, g.season, nameless).None?;
    assert Named(games[0], g.season, moved) && FindNamed(games, g.season, moved) == Some(0);
    assert !At(games[0], g.season, moved) && FindAt(games, g.season, moved).None?;
    var after := WriteAll(games, g.season, rows, firstId, now);
    var writer := WriteAllWritten(games, g.season, rows, firstId, now);
    RowIsLost(games, g.season, rows, after, writer, 0, 1, now);
  }
}
