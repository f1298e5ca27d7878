/**
  The player-first lineup table and the fast query on top of it: what a draft candidate
  would add to the best starting lineup, without recomputing the table.
*/
module LineupTable {
  import opened Wrappers
  import opened Matching

  datatype LineupPlayer = LineupPlayer(positions: set<string>, projectedPoints: real)

  datatype LineupSlot = LineupSlot(name: string, positions: set<string>)

  predicate CanStart(p: LineupPlayer, slot: LineupSlot) {
    p.positions * slot.positions != {}
  }

  function AsEntrant(p: LineupPlayer, slots: seq<LineupSlot>): Entrant {
    var fits := set i: nat | i < |slots| && CanStart(p, slots[i]);
    Entrant(fits, p.projectedPoints)
  }

  function AsEntrants(players: seq<LineupPlayer>, slots: seq<LineupSlot>): (es: seq<Entrant>)
    ensures |es| == |players|
  {
    seq(|players|, i requires 0 <= i < |players| => AsEntrant(players[i], slots))
  }

  // ---------------------------------------------------------------- the table

  ghost predicate Sound(players: seq<Entrant>, states: States) {
    forall mask :: mask in states ==> Achieved(players, mask, states[mask])
  }

  /** `next` has every entry of `states`, none lower. */
  ghost predicate NotBelow(next: States, states: States) {
    forall mask :: mask in states ==> mask in next && states[mask] <= next[mask]
  }

  /** `next` accounts for player `e` taking slot `i` on top of `mask`. */
  ghost predicate Taken(states: States, next: States, e: Entrant, mask: set<nat>, i: nat)
    requires mask in states
  {
    i in e.fits && i !in mask ==> mask + {i} in next && states[mask] + e.points <= next[mask + {i}]
  }

  lemma TakingIsAchieved(players: seq<Entrant>, e: Entrant, mask: set<nat>, points: real, i: nat)
    requires Achieved(players, mask, points) && i in e.fits && i !in mask
    ensures Achieved(players + [e], mask + {i}, points + e.points)
  {
    var a :| Legal(players, a) && Filled(a) == mask && Total(players, a) == points;
    LegalSnoc(players, a, e, Some(i));
  }

  lemma BenchingIsAchieved(players: seq<Entrant>, e: Entrant, mask: set<nat>, points: real)
    requires Achieved(players, mask, points)
    ensures Achieved(players + [e], mask, points)
  {
    var a :| Legal(players, a) && Filled(a) == mask && Total(players, a) == points;
    LegalSnoc(players, a, e, None);
    assert Filled(a + [None]) == mask;
  }

  lemma AllTakenIsExact(players: seq<Entrant>, e: Entrant, states: States, next: States)
    requires Exact(players, states) && Sound(players + [e], next) && NotBelow(next, states)
    requires forall mask, i: nat :: mask in states && i in e.fits ==> Taken(states, next, e, mask, i)
    ensures Exact(players + [e], next)
  {
    forall a: Assignment | Legal(players + [e], a)
      ensures Filled(a) in next && Total(players + [e], a) <= next[Filled(a)]
    {
      LegalFront(players + [e], a);
      var n := |players|;
      assert (players + [e])[..n] == players && |a| - 1 == n;
      var mask := Filled(a[..n]);
      if a[n].Some? {
        assert Taken(states, next, e, mask, a[n].value);
      } else {
        assert Filled(a) == mask;
      }
    }
  }

  lemma RaisingIsSound(players: seq<Entrant>, next: States, mask: set<nat>, points: real)
    requires Sound(players, next) && Achieved(players, mask, points)
    requires mask in next ==> points > next[mask]
    ensures Sound(players, next[mask := points]) && NotBelow(next[mask := points], next)
  {
  }

  lemma TableStaysSound(players: seq<Entrant>, e: Entrant, states: States)
    requires Exact(players, states)
    ensures Sound(players + [e], states)
  {
    forall mask | mask in states ensures Achieved(players + [e], mask, states[mask]) {
      BenchingIsAchieved(players, e, mask, states[mask]);
    }
  }

  lemma StateIsAchieved(players: seq<Entrant>, states: States, mask: set<nat>)
    requires Exact(players, states) && mask in states
    ensures Achieved(players, mask, states[mask])
  {
  }

  /** One state of the table, with the player in each open slot he fits. */
  method VisitState(states: States, next0: States, mask: set<nat>, p: LineupPlayer, slots: seq<LineupSlot>,
                    ghost players: seq<Entrant>)
    returns (next: States)
    requires mask in states && Achieved(players, mask, states[mask])
    requires Sound(players + [AsEntrant(p, slots)], next0)
    ensures Sound(players + [AsEntrant(p, slots)], next) && NotBelow(next, next0)
    ensures forall i: nat :: i in AsEntrant(p, slots).fits ==> Taken(states, next, AsEntrant(p, slots), mask, i)
  {
    hide Sound, Achieved;
    ghost var e := AsEntrant(p, slots);
    next := next0;
    for index := 0 to |slots|
      invariant Sound(players + [e], next) && NotBelow(next, next0)
      invariant forall i: nat :: i < index ==> Taken(states, next, e, mask, i)
    {
      assert index in e.fits <==> CanStart(p, slots[index]);
      if index !in mask && CanStart(p, slots[index]) {
        var total := states[mask] + p.projectedPoints;
        if mask + {index} !in next || total > next[mask + {index}] {
          TakingIsAchieved(players, e, mask, states[mask], index);
          RaisingIsSound(players + [e], next, mask + {index}, total);
          ghost var prior := next;
          next := next[mask + {index} := total];
          forall i: nat | i < index ensures Taken(states, next, e, mask, i) {
            assert Taken(states, prior, e, mask, i);
          }
        }
      }
    }
  }

  /** The turn of one player: every known state, with him in each open slot he fits. */
  method AddPlayer(states: States, p: LineupPlayer, slots: seq<LineupSlot>, ghost players: seq<Entrant>)
    returns (next: States)
    requires Exact(players, states)
    ensures Exact(players + [AsEntrant(p, slots)], next)
  {
    ghost var e := AsEntrant(p, slots);
    hide Sound, Exact, Achieved;
    next := states;
    TableStaysSound(players, e, states);
    var rest := states.Keys;
    while rest != {}
      invariant rest <= states.Keys
      invariant Sound(players + [e], next) && NotBelow(next, states)
      invariant forall mask, i: nat :: mask in states && mask !in rest && i in e.fits ==> Taken(states, next, e, mask, i)
    {
      var mask :| mask in rest;
      StateIsAchieved(players, states, mask);
      next := VisitState(states, next, mask, p, slots, players);
      rest := rest - {mask};
    }
    AllTakenIsExact(players, e, states, next);
  }

  /** All slot sets the players can fill, each with its best points. */
  method LineupStates(players: seq<LineupPlayer>, slots: seq<LineupSlot>) returns (states: States)
    ensures Exact(AsEntrants(players, slots), states)
  {
    states := map[{} := 0.0];
    ExactEmpty();
    for k := 0 to |players|
      invariant Exact(AsEntrants(players[..k], slots), states)
    {
      assert AsEntrants(players[..k + 1], slots) == AsEntrants(players[..k], slots) + [AsEntrant(players[k], slots)];
      states := AddPlayer(states, players[k], slots, AsEntrants(players[..k], slots));
    }
    assert players[..|players|] == players;
  }

  // ---------------------------------------------------------------- the best state

  /** More slots first, then more points. */
  predicate LexBelow(f: nat, p: real, g: nat, q: real) {
    f < g || (f == g && p <= q)
  }

  ghost predicate IsBest(states: States, filled: nat, points: real) {
    && (exists mask :: mask in states && |mask| == filled && states[mask] == points)
    && (forall mask :: mask in states ==> LexBelow(|mask|, states[mask], filled, points))
  }

  /** The fullest state of the table, and among those the richest; one of them if there are more. */
  method BestMask(states: States) returns (best: set<nat>)
    requires states != map[]
    ensures best in states && IsBest(states, |best|, states[best])
  {
    var mask :| mask in states;
    best := mask;
    var rest := states.Keys - {mask};
    while rest != {}
      invariant rest <= states.Keys && best in states
      invariant forall m :: m in states && m !in rest ==> LexBelow(|m|, states[m], |best|, states[best])
    {
      var m :| m in rest;
      if !LexBelow(|m|, states[m], |best|, states[best]) {
        best := m;
      }
      rest := rest - {m};
    }
  }

  method BestLineupState(states: States) returns (filled: nat, points: real)
    requires states != map[]
    ensures IsBest(states, filled, points)
  {
    var best := BestMask(states);
    filled, points := |best|, states[best];
  }

  // ---------------------------------------------------------------- the candidate

  datatype Forced = Forced(filled: nat, points: real, slot: nat)

  /** A way to start the candidate on top of a state. */
  ghost predicate Fit(states: States, e: Entrant, mask: set<nat>, i: nat) {
    mask in states && i in e.fits && i !in mask
  }

  /** Fuller, then richer, then in an earlier slot. */
  predicate Beats(f: Forced, g: Forced) {
    || f.filled > g.filled
    || (f.filled == g.filled && f.points > g.points)
    || (f.filled == g.filled && f.points == g.points && f.slot < g.slot)
  }

  function Forcing(states: States, e: Entrant, mask: set<nat>, i: nat): Forced
    requires mask in states
  {
    Forced(|mask| + 1, states[mask] + e.points, i)
  }

  /** `f` starts the candidate on top of some state. */
  ghost predicate IsForced(states: States, e: Entrant, f: Forced) {
    exists mask :: Fit(states, e, mask, f.slot) && f == Forcing(states, e, mask, f.slot)
  }

  /** The answer no way of starting the candidate beats; none when he cannot start. */
  ghost predicate IsBestFit(states: States, e: Entrant, r: Option<Forced>) {
    && (r.Some? ==> IsForced(states, e, r.value))
    && forall mask, i: nat :: Fit(states, e, mask, i) ==> r.Some? && !Beats(Forcing(states, e, mask, i), r.value)
  }

  /** The best lineup that starts the candidate, read off the table of the others. */
  method BestLineupWithCandidate(candidate: LineupPlayer, slots: seq<LineupSlot>, states: States)
    returns (best: Option<Forced>)
    ensures IsBestFit(states, AsEntrant(candidate, slots), best)
  {
    ghost var e := AsEntrant(candidate, slots);
    best := None;
    var rest := states.Keys;
    while rest != {}
      invariant rest <= states.Keys
      invariant best.Some? ==> IsForced(states, e, best.value)
      invariant forall mask, i: nat :: Fit(states, e, mask, i) && mask !in rest ==>
                  best.Some? && !Beats(Forcing(states, e, mask, i), best.value)
    {
      var mask :| mask in rest;
      for index := 0 to |slots|
        invariant best.Some? ==> IsForced(states, e, best.value)
        invariant forall m, i: nat :: Fit(states, e, m, i) && (m !in rest || (m == mask && i < index)) ==>
                    best.Some? && !Beats(Forcing(states, e, m, i), best.value)
      {
        if index !in mask && CanStart(candidate, slots[index]) {
          var result := Forced(|mask| + 1, states[mask] + candidate.projectedPoints, index);
          assert Fit(states, e, mask, index) && result == Forcing(states, e, mask, index);
          if best.None? || Beats(result, best.value) {
            best := Some(result);
          }
        }
      }
      rest := rest - {mask};
    }
  }
}
