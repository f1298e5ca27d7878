/**
  Concurrent draft mutations: workers enter a session under its lock, work on what they read there,
  and commit or drop it. Whatever the interleaving, the stored room is that of one serial run.
*/
module DraftMutations {
  import opened DraftRoom
  import opened DraftLaws
  import opened DraftRuns

  /** `depth` counts nested mutations of the same session; `pending` is what is not committed yet. */
  datatype Worker = Idle | Inside(session: nat, depth: nat, copy: Room, pending: seq<Command>)

  datatype System = System(
    rooms: map<nat, Room>,
    locks: map<nat, nat>,
    workers: map<nat, Worker>,
    history: map<nat, seq<Command>>)

  /** Each session has settings of its own. */
  datatype Setup = Setup(config: Config, mode: SourceMode)

  type Settings = map<nat, Setup>

  datatype Move =
    | Enter(worker: nat, session: nat)
    | Work(worker: nat, command: Command)
    | Commit(worker: nat)
    | Rollback(worker: nat)
    | Leave(worker: nat)

  /** Entering again only nests; another session is refused, a held lock makes the worker wait. */
  function EnterSession(s: System, w: nat, session: nat): System
    requires w in s.workers
  {
    match s.workers[w]
    case Inside(held, depth, copy, pending) =>
      if held == session then s.(workers := s.workers[w := Inside(held, depth + 1, copy, pending)]) else s
    case Idle =>
      if session !in s.rooms || session in s.locks then s
      else
        s.(locks := s.locks[session := w],
           workers := s.workers[w := Inside(session, 1, s.rooms[session], [])])
  }

  /** The outermost leave drops what was not committed and frees the lock. */
  function LeaveSession(s: System, w: nat): System
    requires w in s.workers
  {
    match s.workers[w]
    case Idle => s
    case Inside(session, depth, copy, pending) =>
      if depth > 1 then s.(workers := s.workers[w := Inside(session, depth - 1, copy, pending)])
      else s.(locks := s.locks - {session}, workers := s.workers[w := Idle])
  }

  /**
    Entering a free session takes its lock and the stored room; entering again only nests; a session that is
    held, and any other one while inside, is not entered. Each leave undoes one entering, the outermost frees the lock.
  */
  lemma LeavingUndoesEntering(s: System, w: nat, session: nat)
    requires w in s.workers && (s.workers[w].Inside? ==> s.workers[w].depth >= 1)
    ensures
      var e, x := EnterSession(s, w, session), s.workers[w];
      if x == Idle then
        if session in s.rooms && session !in s.locks then
          && e.locks == s.locks[session := w] && e.workers == s.workers[w := Inside(session, 1, s.rooms[session], [])]
          && LeaveSession(e, w) == s
        else e == s
      else if x.session == session then e.locks == s.locks && e != s && LeaveSession(e, w) == s
      else e == s
  {
    var e := EnterSession(s, w, session);
    if s.workers[w].Inside? {
      assert s.workers[w := s.workers[w]] == s.workers;
    } else {
      assert e.workers[w := Idle] == s.workers && (session !in s.locks ==> e.locks - {session} == s.locks);
    }
  }

  ghost function MoveTo(cs: Settings, s: System, m: Move): System
    requires Serial(cs, s) && (m.Work? ==> WellFormed(m.command))
  {
    if m.worker !in s.workers then s
    else
      var worker := s.workers[m.worker];
      match m
      case Enter(w, session) => EnterSession(s, w, session)
      case Leave(w) => LeaveSession(s, w)
      case Work(w, command) =>
        if worker.Idle? then s
        else
          assert WorkerInPlace(cs, s, w);
          var c := cs[worker.session].config;
          SoundBoundary(c, worker.copy);
          s.(workers := s.workers[w := worker.(copy := Perform(c, worker.copy, command), pending := worker.pending + [command])])
      case Commit(w) =>
        if worker.Idle? then s
        else
          assert WorkerInPlace(cs, s, w);
          s.(rooms := s.rooms[worker.session := worker.copy],
             workers := s.workers[w := worker.(pending := [])],
             history := s.history[worker.session := s.history[worker.session] + worker.pending])
      case Rollback(w) =>
        if worker.Idle? then s
        else
          assert WorkerInPlace(cs, s, w);
          s.(workers := s.workers[w := worker.(copy := s.rooms[worker.session], pending := [])])
  }

  // ---------------------------------------------------------------- the invariant

  ghost predicate RoomsSound(cs: Settings, s: System) {
    && s.rooms.Keys == s.history.Keys
    && forall k :: k in s.rooms ==> RoomSound(cs, s, k)
  }

  ghost predicate RoomSound(cs: Settings, s: System, k: nat) {
    && k in cs && k in s.rooms && k in s.history && ValidConfig(cs[k].config)
    && Sound(cs[k].config, s.rooms[k]) && AllWellFormed(s.history[k])
    && s.rooms[k] == Run(cs[k].config, StartRoom(cs[k]), s.history[k])
  }

  /** A session starts from the empty room of its mode. */
  ghost function StartRoom(setup: Setup): (room: Room)
    requires ValidConfig(setup.config)
    ensures Sound(setup.config, room)
  {
    FreshRoomIsSound(setup.config, setup.mode);
    FreshRoom(setup.mode)
  }

  /** A worker inside holds the lock, and its copy is the stored room after its pending commands. */
  ghost predicate WorkerInPlace(cs: Settings, s: System, w: nat) {
    w in s.workers && s.workers[w].Inside? ==>
      var x := s.workers[w];
      && x.session in cs && x.session in s.rooms && x.session in s.history && x.session in s.locks && s.locks[x.session] == w
      && var c := cs[x.session].config;
         && ValidConfig(c) && Sound(c, s.rooms[x.session]) && AllWellFormed(x.pending)
         && Sound(c, x.copy) && x.copy == Run(c, s.rooms[x.session], x.pending)
  }

  /** Nobody holds a lock without being inside. */
  ghost predicate LocksInPlace(s: System) {
    forall k :: k in s.locks ==> s.locks[k] in s.workers && s.workers[s.locks[k]].Inside? && s.workers[s.locks[k]].session == k
  }

  ghost predicate Serial(cs: Settings, s: System) {
    RoomsSound(cs, s) && LocksInPlace(s) && forall w :: WorkerInPlace(cs, s, w)
  }

  lemma {:induction false} RunAppends(c: Config, room: Room, first: seq<Command>, second: seq<Command>)
    requires ValidConfig(c) && Sound(c, room) && AllWellFormed(first) && AllWellFormed(second)
    ensures AllWellFormed(first + second)
    ensures Run(c, room, first + second) == Run(c, Run(c, room, first), second)
  {
    hide Sound, Perform;
    if |second| == 0 {
      assert first + second == first;
    } else {
      var n := |second| - 1;
      RunAppends(c, room, first, second[..n]);
      assert (first + second)[..|first + second| - 1] == first + second[..n];
    }
  }

  lemma OneCommand(c: Config, room: Room, cmd: Command)
    requires ValidConfig(c) && Sound(c, room) && WellFormed(cmd) && RowsSound(room.conflicts)
    ensures AllWellFormed([cmd]) && Run(c, room, [cmd]) == Perform(c, room, cmd)
  {
    hide Sound, Perform;
    assert [cmd][..0] == [];
    assert Run(c, room, []) == room;
  }

  // ---------------------------------------------------------------- every move keeps it

  lemma EnterKeeps(cs: Settings, s: System, w: nat, session: nat)
    requires Serial(cs, s) && w in s.workers
    ensures Serial(cs, EnterSession(s, w, session))
  {
    hide Sound, Run, AllWellFormed;
    var later := EnterSession(s, w, session);
    if later != s {
      forall v ensures WorkerInPlace(cs, later, v) {
        assert WorkerInPlace(cs, s, v) && WorkerInPlace(cs, s, w);
        if v == w && s.workers[w].Idle? {
          assert RoomSound(cs, s, session);
          NothingPending(cs[session].config, s.rooms[session]);
        }
      }
      forall k | k in later.rooms ensures RoomSound(cs, later, k) {
        assert RoomSound(cs, s, k);
      }
    }
  }

  lemma NothingPending(c: Config, room: Room)
    requires ValidConfig(c) && Sound(c, room)
    ensures AllWellFormed([]) && Run(c, room, []) == room
  {
  }

  lemma LeaveKeeps(cs: Settings, s: System, w: nat)
    requires Serial(cs, s) && w in s.workers
    ensures Serial(cs, LeaveSession(s, w))
  {
    hide Sound, Run, AllWellFormed;
    var later := LeaveSession(s, w);
    forall v ensures WorkerInPlace(cs, later, v) {
      assert WorkerInPlace(cs, s, v) && WorkerInPlace(cs, s, w);
    }
    forall k | k in later.rooms ensures RoomSound(cs, later, k) {
      assert RoomSound(cs, s, k);
    }
  }

  lemma WorkKeeps(cs: Settings, s: System, w: nat, command: Command)
    requires Serial(cs, s) && WellFormed(command)
    ensures Serial(cs, MoveTo(cs, s, Work(w, command)))
  {
    hide Sound, Run, AllWellFormed, Perform, RowsSound;
    var later := MoveTo(cs, s, Work(w, command));
    assert WorkerInPlace(cs, s, w);
    if w in s.workers && s.workers[w].Inside? {
      var x := s.workers[w];
      var c := cs[x.session].config;
      SoundBoundary(c, x.copy);
      OneCommand(c, x.copy, command);
      PerformKeeps(c, x.copy, command);
      RunAppends(c, s.rooms[x.session], x.pending, [command]);
      forall v ensures WorkerInPlace(cs, later, v) {
        assert WorkerInPlace(cs, s, v);
      }
      forall k | k in later.rooms ensures RoomSound(cs, later, k) {
        assert RoomSound(cs, s, k);
      }
    }
  }

  lemma CommitKeeps(cs: Settings, s: System, w: nat)
    requires Serial(cs, s)
    ensures Serial(cs, MoveTo(cs, s, Commit(w)))
  {
    hide Sound, Run, AllWellFormed;
    var later := MoveTo(cs, s, Commit(w));
    assert WorkerInPlace(cs, s, w);
    if w in s.workers && s.workers[w].Inside? {
      var x := s.workers[w];
      assert RoomSound(cs, s, x.session);
      var c := cs[x.session].config;
      RunAppends(c, StartRoom(cs[x.session]), s.history[x.session], x.pending);
      NothingPending(c, x.copy);
      forall v ensures WorkerInPlace(cs, later, v) {
        assert WorkerInPlace(cs, s, v);
      }
      forall k | k in later.rooms ensures RoomSound(cs, later, k) {
        assert k != x.session ==> RoomSound(cs, s, k);
      }
    }
  }

  lemma RollbackKeeps(cs: Settings, s: System, w: nat)
    requires Serial(cs, s)
    ensures Serial(cs, MoveTo(cs, s, Rollback(w)))
  {
    hide Sound, Run, AllWellFormed;
    var later := MoveTo(cs, s, Rollback(w));
    assert WorkerInPlace(cs, s, w);
    if w in s.workers && s.workers[w].Inside? {
      NothingPending(cs[s.workers[w].session].config, s.rooms[s.workers[w].session]);
      forall v ensures WorkerInPlace(cs, later, v) {
        assert WorkerInPlace(cs, s, v);
      }
      forall k | k in later.rooms ensures RoomSound(cs, later, k) {
        assert RoomSound(cs, s, k);
      }
    }
  }

  lemma MoveKeeps(cs: Settings, s: System, m: Move)
    requires Serial(cs, s) && (m.Work? ==> WellFormed(m.command))
    ensures Serial(cs, MoveTo(cs, s, m))
  {
    hide Serial, EnterSession, LeaveSession;
    if m.worker in s.workers {
      match m
      case Enter(w, session) => EnterKeeps(cs, s, w, session);
      case Leave(w) => LeaveKeeps(cs, s, w);
      case Work(w, command) => WorkKeeps(cs, s, w, command);
      case Commit(w) => CommitKeeps(cs, s, w);
      case Rollback(w) => RollbackKeeps(cs, s, w);
    }
  }

  ghost predicate MovesWellFormed(moves: seq<Move>) {
    forall i :: 0 <= i < |moves| ==> (moves[i].Work? ==> WellFormed(moves[i].command))
  }

  /** All moves of all workers, in the order they happen. */
  ghost function Interleave(cs: Settings, s: System, moves: seq<Move>): (later: System)
    requires Serial(cs, s) && MovesWellFormed(moves)
    ensures Serial(cs, later)
  {
    if |moves| == 0 then s
    else
      var before := Interleave(cs, s, moves[..|moves| - 1]);
      MoveKeeps(cs, before, moves[|moves| - 1]);
      MoveTo(cs, before, moves[|moves| - 1])
  }

  /** Rooms are empty and nobody is inside. */
  ghost predicate Initial(cs: Settings, s: System) {
    && s.rooms.Keys == s.history.Keys && s.locks == map[]
    && (forall k :: k in s.rooms ==> k in cs && ValidConfig(cs[k].config) && s.rooms[k] == StartRoom(cs[k]) && s.history[k] == [])
    && (forall w :: w in s.workers ==> s.workers[w].Idle?)
  }

  lemma InitialIsSerial(cs: Settings, s: System)
    requires Initial(cs, s)
    ensures Serial(cs, s)
  {
    forall k | k in s.rooms ensures RoomSound(cs, s, k) {
      NothingPending(cs[k].config, StartRoom(cs[k]));
    }
  }

  ghost predicate InsideOf(s: System, w: nat, session: nat) {
    w in s.workers && s.workers[w].Inside? && s.workers[w].session == session
  }

  lemma {:induction false} SessionsStay(cs: Settings, s: System, moves: seq<Move>)
    requires Serial(cs, s) && MovesWellFormed(moves)
    ensures Interleave(cs, s, moves).rooms.Keys == s.rooms.Keys
  {
    hide Sound, Run, AllWellFormed, Perform, RowsSound;
    if |moves| > 0 {
      SessionsStay(cs, s, moves[..|moves| - 1]);
      var before := Interleave(cs, s, moves[..|moves| - 1]);
      assert WorkerInPlace(cs, before, moves[|moves| - 1].worker);
    }
  }

  /**
    Mutations linearise: after any interleaving every stored room is the one that its committed commands
    give when they are run one after the other, and no two workers are ever inside one session.
  */
  lemma MutationsLinearise(cs: Settings, s: System, moves: seq<Move>, session: nat)
    requires Initial(cs, s) && MovesWellFormed(moves) && session in s.rooms
    ensures Serial(cs, s)
    ensures
      var later := Interleave(cs, s, moves);
      && session in later.rooms && session in later.history && AllWellFormed(later.history[session])
      && later.rooms[session] == Run(cs[session].config, StartRoom(cs[session]), later.history[session])
      && forall v, w :: InsideOf(later, v, session) && InsideOf(later, w, session) ==> v == w
  {
    hide Sound, Run, AllWellFormed, Interleave;
    InitialIsSerial(cs, s);
    var later := Interleave(cs, s, moves);
    SessionsStay(cs, s, moves);
    assert RoomSound(cs, later, session);
    forall v, w | InsideOf(later, v, session) && InsideOf(later, w, session) ensures v == w {
      assert WorkerInPlace(cs, later, v) && WorkerInPlace(cs, later, w);
    }
  }
}
