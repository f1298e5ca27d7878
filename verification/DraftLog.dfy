/**
  The draft event log and its replay: which picks are active after recordings, reversals
  and replacements, and whose turn each overall pick is in a snake draft.
*/
module DraftLog {
  import opened Wrappers

  datatype EventKind =
    | PickRecorded
    | PickReversed
    | PickReplaced
    | ProviderConfirmed
    | SessionStarted
    | SessionPaused
    | SessionResumed
    | SessionCompleted
    | SessionAbandoned
    | SessionReopened
    | SourceModeChanged

  datatype Event = Event(
    id: nat,
    sequence: nat,
    kind: EventKind,
    overall: Option<nat>,
    round: Option<nat>,
    teamSlot: Option<nat>,
    player: Option<nat>,
    key: string,
    supersedes: Option<nat>)

  type Log = seq<Event>

  // ---------------------------------------------------------------- the snake

  function SnakeRound(overall: nat, teams: nat): nat
    requires overall >= 1 && teams >= 1
  {
    (overall - 1) / teams + 1
  }

  /** Odd rounds run up the slots, even rounds run down. */
  function SnakeSlot(overall: nat, teams: nat): (slot: nat)
    requires overall >= 1 && teams >= 1
    ensures 1 <= slot <= teams
  {
    var within := (overall - 1) % teams;
    if SnakeRound(overall, teams) % 2 == 1 then within + 1 else teams - within
  }

  // ---------------------------------------------------------------- replay

  datatype Pick = Pick(event: Event, overall: nat, round: nat, teamSlot: nat, player: nat)

  type Board = map<nat, Pick>

  /** The overall pick of each event that has one. */
  function Overalls(log: Log): map<nat, nat> {
    if |log| == 0 then map[]
    else
      var e := log[|log| - 1];
      var front := Overalls(log[..|log| - 1]);
      if e.overall.Some? then front[e.id := e.overall.value] else front
  }

  /** The pick a reversal takes off the board. */
  function Reversed(overalls: map<nat, nat>, e: Event): Option<nat> {
    if e.supersedes.None? then None
    else if e.supersedes.value in overalls then Some(overalls[e.supersedes.value])
    else e.overall
  }

  function Apply(active: map<nat, Event>, overalls: map<nat, nat>, e: Event): map<nat, Event> {
    match e.kind
    case PickRecorded => if e.overall.Some? then active[e.overall.value := e] else active
    case PickReplaced => if e.overall.Some? then active[e.overall.value := e] else active
    case PickReversed =>
      var target := Reversed(overalls, e);
      if target.Some? then active - {target.value} else active
    case _ => active
  }

  /** The active pick event of each overall, by replay from the start. */
  function Active(log: Log): map<nat, Event> {
    if |log| == 0 then map[]
    else Apply(Active(log[..|log| - 1]), Overalls(log), log[|log| - 1])
  }

  predicate Complete(e: Event) {
    e.player.Some? && e.round.Some? && e.teamSlot.Some?
  }

  function PickOf(overall: nat, e: Event): Pick
    requires Complete(e)
  {
    Pick(e, overall, e.round.value, e.teamSlot.value, e.player.value)
  }

  /** The board: active events without player, round or slot are passed over. */
  function Reduced(active: map<nat, Event>): Board {
    map o | o in active && Complete(active[o]) :: PickOf(o, active[o])
  }

  function Replay(log: Log): Board {
    Reduced(Active(log))
  }

  /** Replay as a loop over the events. */
  method ReducePicks(events: Log) returns (board: Board)
    ensures board == Replay(events)
  {
    var overalls: map<nat, nat>, active: map<nat, Event> := map[], map[];
    for i := 0 to |events|
      invariant overalls == Overalls(events[..i]) && active == Active(events[..i])
    {
      assert events[..i + 1][..i] == events[..i];
      var e := events[i];
      if e.overall.Some? {
        overalls := overalls[e.id := e.overall.value];
      }
      if e.kind == PickRecorded && e.overall.Some? {
        active := active[e.overall.value := e];
      } else if e.kind == PickReversed && e.supersedes.Some? {
        var overall := if e.supersedes.value in overalls then Some(overalls[e.supersedes.value]) else e.overall;
        if overall.Some? {
          active := active - {overall.value};
        }
      } else if e.kind == PickReplaced && e.overall.Some? {
        active := active[e.overall.value := e];
      }
    }
    assert events[..|events|] == events;
    board := Reduced(active);
  }

  // ---------------------------------------------------------------- well-formed logs

  /** Sequences count from one, event numbers and keys never repeat. */
  ghost predicate WellKept(log: Log) {
    && (forall i :: 0 <= i < |log| ==> log[i].sequence == i + 1)
    && (forall i, j :: 0 <= i < j < |log| ==> log[i].id != log[j].id)
    && (forall i, j :: 0 <= i < j < |log| ==> log[i].key != log[j].key)
  }

  lemma {:induction false} OverallsOf(log: Log, i: nat)
    requires i < |log| && log[i].overall.Some? && DistinctIds(log)
    ensures log[i].id in Overalls(log) && Overalls(log)[log[i].id] == log[i].overall.value
  {
    if i < |log| - 1 {
      OverallsOf(log[..|log| - 1], i);
    }
  }

  /** Active events come from the log and carry their overall. */
  lemma {:induction false} ActiveOrigin(log: Log, o: nat) returns (i: nat)
    requires o in Active(log)
    ensures i < |log| && log[i] == Active(log)[o] && log[i].overall == Some(o)
    ensures log[i].kind == PickRecorded || log[i].kind == PickReplaced
  {
    var n := |log| - 1;
    if o in Active(log[..n]) && Active(log)[o] == Active(log[..n])[o] {
      i := ActiveOrigin(log[..n], o);
    } else {
      i := n;
    }
  }

  /** One more event. */
  lemma ActiveSnoc(log: Log, e: Event)
    ensures Active(log + [e]) == Apply(Active(log), Overalls(log + [e]), e)
  {
    assert (log + [e])[..|log|] == log;
  }

  ghost predicate DistinctIds(log: Log) {
    forall a, b :: 0 <= a < b < |log| ==> log[a].id != log[b].id
  }

  /** A complete recording or replacement takes its overall. */
  lemma ReplayTakes(log: Log, e: Event)
    requires (e.kind == PickRecorded || e.kind == PickReplaced) && e.overall.Some? && Complete(e)
    ensures Replay(log + [e]) == Replay(log)[e.overall.value := PickOf(e.overall.value, e)]
  {
    hide Active, Overalls;
    ActiveSnoc(log, e);
  }

  /** The reversal of an active event clears its overall. */
  lemma ReplayClears(log: Log, e: Event, o: nat)
    requires DistinctIds(log + [e])
    requires o in Active(log) && e.kind == PickReversed && e.supersedes == Some(Active(log)[o].id)
    ensures Replay(log + [e]) == Replay(log) - {o}
  {
    hide Active, Overalls;
    ActiveSnoc(log, e);
    var i := ActiveOrigin(log, o);
    assert (log + [e])[i] == log[i];
    OverallsOf(log + [e], i);
  }

  /** Any other event keeps the board. */
  lemma ReplayIgnores(log: Log, e: Event)
    requires e.kind != PickRecorded && e.kind != PickReplaced && e.kind != PickReversed
    ensures Replay(log + [e]) == Replay(log)
  {
    hide Active, Overalls;
    ActiveSnoc(log, e);
  }
}
