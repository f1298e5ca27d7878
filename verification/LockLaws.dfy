/**
  Locks over whole runs: while the clock moves, games are stamped, schedules are refreshed and
  cards are saved in any order, what is locked stays locked and a locked pick never changes.
*/
module LockLaws {
  import opened PoolModel
  import opened PoolOutcomes
  import opened WeeklyCard
  import opened CardLaws
  import opened CardAgreement
  import Schedule

  // ---------------------------------------------------------------- new picks are never locked

  /** An accepted save adds no pick that is locked already. */
  lemma AddedIsNotLocked(pool: Pool, d: Desk, week: int, requests: seq<Request>, now: int, q: Pick)
    requires Accepted(pool, d, week, requests, now) && GamesNumbered(d.games)
    requires q in AddedPicks(pool, d, week, requests, now)
    ensures !PickLocked(pool.rules, WeekOf(pool, d.games, week), d.games, q, now)
  {
    hide Accepted, AddedPicks, HeldPicks, Good, AnyLocked, GameLocked, PicksIn, Loses, GamesNumbered, HeldIdentities,
         WeightsMisfit;
    var games, existing := WeekOf(pool, d.games, week), PicksIn(d.picks, week);
    var added := AddedPicks(pool, d, week, requests, now);
    var held := HeldPicks(pool, d, week, now);
    AcceptedMeans(pool, d, week, requests, now);
    var from := AddedFulfils(pool, d, week, requests, now);
    var k :| 0 <= k < |added| && added[k] == q;
    var r := requests[from[k]];
    assert r in requests && !TooLate(pool, games, existing, r, now);
    GoodHasGame(pool, d.picks, week, games, requests, r);
    var g := FindGame(games, r.gameId).value;
    FoundIs(d.games, g);
    if PickLocked(pool.rules, games, d.games, q, now) {
      var prior := FindPick(pool, existing, RequestIdentity(pool, r));
      IsHeldPick(pool, d, week, now, prior.value);
      HoldsIdentity(pool, held, prior.value);
      assert false;
    }
  }

  lemma GoodHasGame(pool: Pool, picks: seq<Pick>, week: int, games: seq<Game>, requests: seq<Request>, r: Request)
    requires AllGood(pool, picks, week, games, requests) && r in requests
    ensures FindGame(games, r.gameId).Some?
  {
    var i :| 0 <= i < |requests| && requests[i] == r;
    assert Good(pool, picks, week, games, requests, requests[i]);
  }

  lemma IsHeldPick(pool: Pool, d: Desk, week: int, now: int, p: Pick)
    ensures p in HeldPicks(pool, d, week, now) <==>
            p in PicksIn(d.picks, week) && PickLocked(pool.rules, WeekOf(pool, d.games, week), d.games, p, now)
  {
  }

  /** What a save takes away was not locked, and what it adds is not locked. */
  lemma SaveRespectsLocks(pool: Pool, active: bool, d: Desk, week: int, version: nat, requests: seq<Request>, now: int, p: Pick)
    requires ValidDesk(d)
    ensures
      var later := SaveCard(pool, active, d, week, version, requests, now).desk;
      var stamped := StampDesk(pool, d, now);
      var locked := PickLocked(pool.rules, WeekOf(pool, stamped.games, week), stamped.games, p, now);
      && (p in d.picks && (p.week != week || locked) ==> p in later.picks)
      && (p in later.picks && p !in d.picks ==> p.week == week && GameOf(stamped.games, p).Some? && !locked)
  {
    hide WeekOf, PicksIn, StandingOf, InSeason, HasConflict, HasFinding, StampDesk, CardLines, RequestLines,
         PickLocked, AddPicks, KeptPicks,
         GamesNumbered, AddedPicks, ValidDesk;
    var stamped := StampDesk(pool, d, now);
    StampKeepsCards(pool, d, now);
    if SaveCard(pool, active, d, week, version, requests, now).Saved? {
      var games := WeekOf(pool, stamped.games, week);
      StoredIs(pool, stamped, week, requests, now);
      AddedOrigin(pool, stamped, week, requests, now);
      if p in AddedPicks(pool, stamped, week, requests, now) {
        AddedIsNotLocked(pool, stamped, week, requests, now, p);
        WeekGameIsOnFile(pool, stamped.games, week, p);
      }
    }
  }

  lemma WeekGameIsOnFile(pool: Pool, games: seq<Game>, week: int, p: Pick)
    ensures GameOf(WeekOf(pool, games, week), p).Some? ==> GameOf(games, p).Some?
  {
  }

  lemma StoredIs(pool: Pool, d: Desk, week: int, requests: seq<Request>, now: int)
    ensures Stored(pool, d, week, requests, now).picks ==
            KeptPicks(pool, WeekOf(pool, d.games, week), d.games, d.picks, week, now) + AddedPicks(pool, d, week, requests, now)
  {
  }

  // ---------------------------------------------------------------- the world

  datatype World = World(desk: Desk, now: int, nextGame: int)

  datatype Step =
    | Tick(seconds: nat)
    | StampGames
    | Refresh(lines: seq<Schedule.Line>, season: int)
    | SaveStep(week: int, version: nat, requests: seq<Request>)

  ghost predicate SoundWorld(w: World) {
    && ValidDesk(w.desk)
    && (forall i :: 0 <= i < |w.desk.games| ==> w.desk.games[i].id < w.nextGame)
  }

  /** A refused import leaves the games as they are. */
  ghost function Refreshed(w: World, lines: seq<Schedule.Line>, season: int): World {
    var rows := Schedule.KeptRows(lines, season);
    if Schedule.RowsApart(rows) && Schedule.Plannable(w.desk.games, season, rows) then
      var games := Schedule.WriteAll(w.desk.games, season, rows, w.nextGame, w.now);
      w.(desk := w.desk.(games := games), nextGame := w.nextGame + |games| - |w.desk.games|)
    else w
  }

  ghost function Next(pool: Pool, active: bool, w: World, step: Step): World {
    match step
    case Tick(seconds) => w.(now := w.now + seconds)
    case StampGames => w.(desk := StampDesk(pool, w.desk, w.now))
    case Refresh(lines, season) => Refreshed(w, lines, season)
    case SaveStep(week, version, requests) => w.(desk := SaveCard(pool, active, w.desk, week, version, requests, w.now).desk)
  }

  ghost function After(pool: Pool, active: bool, w: World, steps: seq<Step>): World {
    if |steps| == 0 then w
    else Next(pool, active, After(pool, active, w, steps[..|steps| - 1]), steps[|steps| - 1])
  }

  /** Games keep their places, and those that were locked are still locked. */
  ghost predicate LocksStay(w: World, later: World) {
    && w.now <= later.now
    && |w.desk.games| <= |later.desk.games|
    && (forall t :: 0 <= t < |w.desk.games| ==> later.desk.games[t].id == w.desk.games[t].id)
    && (forall t :: 0 <= t < |w.desk.games| && GameLocked(w.desk.games[t], w.now) ==> GameLocked(later.desk.games[t], later.now))
  }

  lemma StampStays(pool: Pool, w: World)
    requires SoundWorld(w)
    ensures
      var later := w.(desk := StampDesk(pool, w.desk, w.now));
      SoundWorld(later) && LocksStay(w, later) && later.desk.picks == w.desk.picks
  {
  }

  lemma RefreshStays(w: World, lines: seq<Schedule.Line>, season: int)
    requires SoundWorld(w)
    ensures
      var later := Refreshed(w, lines, season);
      SoundWorld(later) && LocksStay(w, later) && later.desk.picks == w.desk.picks
  {
    hide Schedule.WriteAll, Schedule.RowsApart, Schedule.Plannable, Schedule.KeptRows;
    var rows := Schedule.KeptRows(lines, season);
    var games := w.desk.games;
    if Schedule.RowsApart(rows) && Schedule.Plannable(games, season, rows) {
      var after := Schedule.WriteAll(games, season, rows, w.nextGame, w.now);
      forall t | 0 <= t < |games|
        ensures after[t].id == games[t].id && (GameLocked(games[t], w.now) ==> GameLocked(after[t], w.now))
      {
        Schedule.ImportKeepsLocks(games, season, rows, w.nextGame, w.now, t);
      }
      forall t | |games| <= t < |after| ensures after[t].id == w.nextGame + t - |games| {
        Schedule.ImportNumbersNewGames(games, season, rows, w.nextGame, w.now, t);
      }
    }
  }

  lemma SaveStays(pool: Pool, active: bool, w: World, week: int, version: nat, requests: seq<Request>)
    requires SoundWorld(w)
    ensures
      var later := Next(pool, active, w, SaveStep(week, version, requests));
      SoundWorld(later) && LocksStay(w, later)
  {
    hide StandingOf, InSeason, HasConflict, HasFinding, CardLines, RequestLines, Stored, ValidDesk, PicksIn, KeptPicks, WeekOf,
         StampDueGames;
    var stamped := StampDesk(pool, w.desk, w.now);
    StampStays(pool, w);
    CardAfterSave(pool, stamped, week, requests, w.now);
    if SaveCard(pool, active, w.desk, week, version, requests, w.now).Saved? {
      SavedDeskIsValid(pool, stamped, week, requests, w.now);
    }
  }

  lemma NextStays(pool: Pool, active: bool, w: World, step: Step)
    requires SoundWorld(w)
    ensures SoundWorld(Next(pool, active, w, step)) && LocksStay(w, Next(pool, active, w, step))
  {
    hide SaveCard, StampDesk, Refreshed, ValidDesk;
    match step
    case Tick(seconds) =>
    case StampGames => StampStays(pool, w);
    case Refresh(lines, season) => RefreshStays(w, lines, season);
    case SaveStep(week, version, requests) => SaveStays(pool, active, w, week, version, requests);
  }

  // ---------------------------------------------------------------- locked picks

  /** The pick is on file and its own game is locked. */
  ghost predicate Frozen(w: World, p: Pick) {
    && p in w.desk.picks
    && GameOf(w.desk.games, p).Some? && GameLocked(GameOf(w.desk.games, p).value, w.now)
  }

  lemma GameStaysLocked(w: World, later: World, p: Pick)
    requires SoundWorld(w) && SoundWorld(later) && LocksStay(w, later)
    requires GameOf(w.desk.games, p).Some? && GameLocked(GameOf(w.desk.games, p).value, w.now)
    ensures GameOf(later.desk.games, p).Some? && GameLocked(GameOf(later.desk.games, p).value, later.now)
  {
    var g := GameOf(w.desk.games, p).value;
    var t :| 0 <= t < |w.desk.games| && w.desk.games[t] == g;
    var h := later.desk.games[t];
    FoundIs(later.desk.games, h);
  }

  lemma StepKeepsFrozen(pool: Pool, active: bool, w: World, step: Step, p: Pick)
    requires SoundWorld(w) && Frozen(w, p) && pool.rules.lockMode.GameStart?
    ensures Frozen(Next(pool, active, w, step), p)
  {
    hide SaveCard, StampDesk, Refreshed, ValidDesk, LocksStay, GameLocked, WeekOf;
    var later := Next(pool, active, w, step);
    NextStays(pool, active, w, step);
    GameStaysLocked(w, later, p);
    match step
    case Tick(seconds) =>
    case StampGames => StampStays(pool, w);
    case Refresh(lines, season) => RefreshStays(w, lines, season);
    case SaveStep(week, version, requests) =>
      var stamped := w.(desk := StampDesk(pool, w.desk, w.now));
      StampStays(pool, w);
      GameStaysLocked(w, stamped, p);
      SoundDesk(w);
      SaveRespectsLocks(pool, active, w.desk, week, version, requests, w.now, p);
  }

  lemma SoundDesk(w: World)
    requires SoundWorld(w)
    ensures ValidDesk(w.desk)
  {
  }

  /**
    With locks at game start, whatever happens in whatever order: a pick whose game is locked stays on
    file with its team, weight, line and probability, and its game stays locked.
  */
  lemma {:induction false} LockedPickNeverChanges(pool: Pool, active: bool, w: World, steps: seq<Step>, p: Pick)
    requires SoundWorld(w) && Frozen(w, p) && pool.rules.lockMode.GameStart?
    ensures SoundWorld(After(pool, active, w, steps)) && Frozen(After(pool, active, w, steps), p)
  {
    hide SoundWorld, Frozen, Next;
    if |steps| > 0 {
      var front := steps[..|steps| - 1];
      LockedPickNeverChanges(pool, active, w, front, p);
      var before := After(pool, active, w, front);
      NextStays(pool, active, before, steps[|steps| - 1]);
      StepKeepsFrozen(pool, active, before, steps[|steps| - 1], p);
    }
  }

  lemma {:induction false} WorldStaysSound(pool: Pool, active: bool, w: World, steps: seq<Step>)
    requires SoundWorld(w)
    ensures SoundWorld(After(pool, active, w, steps))
  {
    hide SoundWorld, Next;
    if |steps| > 0 {
      WorldStaysSound(pool, active, w, steps[..|steps| - 1]);
      NextStays(pool, active, After(pool, active, w, steps[..|steps| - 1]), steps[|steps| - 1]);
    }
  }

  lemma StampKeepsGames(pool: Pool, d: Desk, now: int, p: Pick)
    requires GameOf(StampDesk(pool, d, now).games, p).Some?
    ensures GameOf(d.games, p).Some?
  {
    var g := GameOf(StampDesk(pool, d, now).games, p).value;
    var t :| 0 <= t < |d.games| && StampDesk(pool, d, now).games[t] == g;
    assert d.games[t] in d.games && d.games[t].id == g.id;
  }

  /** In every run a new pick is on a game that is on file and not locked at that moment. */
  lemma NoLatePickInAnyRun(pool: Pool, active: bool, w: World, steps: seq<Step>, step: Step, q: Pick)
    requires SoundWorld(w) && pool.rules.lockMode.GameStart?
    requires q !in After(pool, active, w, steps).desk.picks
    requires q in Next(pool, active, After(pool, active, w, steps), step).desk.picks
    ensures
      var before := After(pool, active, w, steps);
      GameOf(before.desk.games, q).Some? && !GameLocked(GameOf(before.desk.games, q).value, before.now)
  {
    hide SaveCard, StampDesk, Refreshed, ValidDesk, LocksStay, GameLocked, WeekOf, After;
    var before := After(pool, active, w, steps);
    WorldStaysSound(pool, active, w, steps);
    StampStays(pool, before);
    SoundDesk(before);
    match step
    case Tick(seconds) =>
    case StampGames =>
    case Refresh(lines, season) => RefreshStays(before, lines, season);
    case SaveStep(week, version, requests) =>
      var stamped := before.(desk := StampDesk(pool, before.desk, before.now));
      SaveRespectsLocks(pool, active, before.desk, week, version, requests, before.now, q);
      StampKeepsGames(pool, before.desk, before.now, q);
      if GameLocked(GameOf(before.desk.games, q).value, before.now) {
        GameStaysLocked(before, stamped, q);
        assert false;
      }
  }
}
