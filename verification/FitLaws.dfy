/**
  Lineups told on the positions that players have and slots list: what the table of the owner's players holds,
  and what the utility of a candidate says.
*/
module FitLaws {
  import opened Wrappers
  import opened Sequences
  import opened Matching
  import opened LineupTable
  import opened LineupUtility

  // ---------------------------------------------------------------- placements

  /** The slot lists one of the player's positions. */
  ghost predicate Lists(slot: LineupSlot, p: LineupPlayer) {
    exists position :: position in slot.positions && position in p.positions
  }

  /** For each player the slot he starts in, if any: one that lists one of his positions, and no slot twice. */
  ghost predicate Placement(players: seq<LineupPlayer>, slots: seq<LineupSlot>, a: Assignment) {
    && |a| == |players|
    && (forall p :: 0 <= p < |a| && a[p].Some? ==> a[p].value < |slots| && Lists(slots[a[p].value], players[p]))
    && forall p, q :: 0 <= p < q < |a| && a[p].Some? ==> a[p] != a[q]
  }

  /** These slots and no others are given to somebody. */
  ghost predicate Gives(a: Assignment, mask: set<nat>) {
    forall s: nat :: s in mask <==> exists p :: 0 <= p < |a| && a[p] == Some(s)
  }

  predicate Placed(slot: Option<nat>) {
    slot.Some?
  }

  /** What the players who start are worth together. */
  ghost function Worth(players: seq<LineupPlayer>, a: Assignment): real
    requires |a| == |players|
  {
    if |a| == 0 then 0.0
    else (if Placed(a[0]) then players[0].projectedPoints else 0.0) + Worth(players[1..], a[1..])
  }

  lemma FitsWhereListed(p: LineupPlayer, slots: seq<LineupSlot>, i: nat)
    ensures i in AsEntrant(p, slots).fits <==> i < |slots| && Lists(slots[i], p)
  {
    if i < |slots| {
      var common := p.positions * slots[i].positions;
      assert forall position :: position in common <==> position in slots[i].positions && position in p.positions;
      assert common != {} <==> Lists(slots[i], p);
    }
  }

  lemma PlacementIsLegal(players: seq<LineupPlayer>, slots: seq<LineupSlot>, a: Assignment)
    ensures Placement(players, slots, a) <==> Legal(AsEntrants(players, slots), a)
  {
    hide AsEntrant, Lists;
    var es := AsEntrants(players, slots);
    if |a| == |players| {
      forall p | 0 <= p < |a| && a[p].Some?
        ensures a[p].value in es[p].fits <==> a[p].value < |slots| && Lists(slots[a[p].value], players[p])
      {
        FitsWhereListed(players[p], slots, a[p].value);
      }
    }
  }

  lemma {:induction false} WorthSnoc(players: seq<LineupPlayer>, a: Assignment, p: LineupPlayer, slot: Option<nat>)
    requires |a| == |players|
    ensures Worth(players + [p], a + [slot]) == Worth(players, a) + (if Placed(slot) then p.projectedPoints else 0.0)
  {
    if |a| == 0 {
      assert a + [slot] == [slot] && players + [p] == [p];
      assert Worth([p][1..], [slot][1..]) == 0.0;
    } else {
      WorthSnoc(players[1..], a[1..], p, slot);
      assert (a + [slot])[1..] == a[1..] + [slot] && (players + [p])[1..] == players[1..] + [p];
    }
  }

  lemma {:induction false} WorthIsTotal(players: seq<LineupPlayer>, slots: seq<LineupSlot>, a: Assignment)
    requires |a| == |players|
    ensures Worth(players, a) == Total(AsEntrants(players, slots), a)
  {
    if |a| > 0 {
      var n := |a| - 1;
      WorthIsTotal(players[..n], slots, a[..n]);
      WorthSnoc(players[..n], a[..n], players[n], a[n]);
      assert a == a[..n] + [a[n]] && players == players[..n] + [players[n]];
      assert AsEntrants(players, slots)[..n] == AsEntrants(players[..n], slots);
    }
  }

  lemma GivesFilled(a: Assignment, mask: set<nat>)
    ensures Gives(a, mask) <==> mask == Filled(a)
  {
    hide Filled;
    forall s: nat ensures s in Filled(a) <==> exists p :: 0 <= p < |a| && a[p] == Some(s) {
      FilledHas(a, s);
    }
  }

  // ---------------------------------------------------------------- the table

  /** Some placement gives just these slots, for this much. */
  ghost predicate Attained(players: seq<LineupPlayer>, slots: seq<LineupSlot>, mask: set<nat>, points: real) {
    exists a :: Attains(players, slots, mask, points, a)
  }

  ghost predicate Attains(players: seq<LineupPlayer>, slots: seq<LineupSlot>, mask: set<nat>, points: real, a: Assignment) {
    Placement(players, slots, a) && Gives(a, mask) && Worth(players, a) == points
  }

  /** A placement is accounted for: its slots are in the table, for no less. */
  ghost predicate Covered(players: seq<LineupPlayer>, states: States, a: Assignment)
    requires |a| == |players|
  {
    exists mask :: mask in states && Gives(a, mask) && Worth(players, a) <= states[mask]
  }

  lemma LegalIsCovered(players: seq<LineupPlayer>, slots: seq<LineupSlot>, states: States, a: Assignment)
    requires Exact(AsEntrants(players, slots), states) && Placement(players, slots, a)
    ensures Covered(players, states, a)
  {
    hide AsEntrants, Placement, Worth, Filled;
    PlacementIsLegal(players, slots, a);
    GivesFilled(a, Filled(a));
    WorthIsTotal(players, slots, a);
  }

  lemma AchievedIsAttained(players: seq<LineupPlayer>, slots: seq<LineupSlot>, mask: set<nat>, points: real)
    requires Achieved(AsEntrants(players, slots), mask, points)
    ensures Attained(players, slots, mask, points)
  {
    hide AsEntrants, Placement, Worth, Filled, Gives;
    var a :| Legal(AsEntrants(players, slots), a) && Filled(a) == mask && Total(AsEntrants(players, slots), a) == points;
    PlacementIsLegal(players, slots, a);
    GivesFilled(a, mask);
    AssignmentSize(players, slots, a);
    WorthIsTotal(players, slots, a);
    assert Attains(players, slots, mask, points, a);
  }

  lemma AssignmentSize(players: seq<LineupPlayer>, slots: seq<LineupSlot>, a: Assignment)
    requires Placement(players, slots, a)
    ensures |a| == |players|
  {
  }

  /**
    The table of the owner's players: behind every entry is a placement that gives just its slots for just its
    points, and every placement has its slots in the table for no less.
  */
  lemma TableHoldsPlacements(players: seq<LineupPlayer>, slots: seq<LineupSlot>, states: States)
    requires Exact(AsEntrants(players, slots), states)
    ensures forall mask :: mask in states ==> Attained(players, slots, mask, states[mask])
    ensures forall a :: Placement(players, slots, a) ==> Covered(players, states, a)
  {
    hide AsEntrants, Placement, Attained, Covered;
    forall mask | mask in states ensures Attained(players, slots, mask, states[mask]) {
      AchievedIsAttained(players, slots, mask, states[mask]);
    }
    forall a | Placement(players, slots, a) ensures |a| == |players| && Covered(players, states, a) {
      AssignmentSize(players, slots, a);
      LegalIsCovered(players, slots, states, a);
    }
  }

  /** One slot alone is in the table exactly when it lists a position of some player. */
  lemma SingleSlots(players: seq<LineupPlayer>, slots: seq<LineupSlot>, states: States, i: nat)
    requires Exact(AsEntrants(players, slots), states)
    ensures {i} in states <==> i < |slots| && exists p :: 0 <= p < |players| && Lists(slots[i], players[p])
  {
    hide Exact, AsEntrants, Lists, Worth, Placement;
    TableHoldsPlacements(players, slots, states);
    if {i} in states {
      assert Attained(players, slots, {i}, states[{i}]);
      var a :| Attains(players, slots, {i}, states[{i}], a);
      TakerOf(players, slots, a, i);
    }
    if i < |slots| && exists p :: 0 <= p < |players| && Lists(slots[i], players[p]) {
      var p: nat :| p < |players| && Lists(slots[i], players[p]);
      var a := OneStarter(players, slots, p, i);
      assert Covered(players, states, a);
      var mask :| mask in states && Gives(a, mask) && Worth(players, a) <= states[mask];
      GivesFilled(a, mask);
      GivesFilled(a, {i});
    }
  }

  lemma TakerOf(players: seq<LineupPlayer>, slots: seq<LineupSlot>, a: Assignment, i: nat)
    requires Placement(players, slots, a) && Gives(a, {i})
    ensures i < |slots| && exists p :: 0 <= p < |players| && Lists(slots[i], players[p])
  {
    hide Lists;
    assert i in {i};
    var p :| 0 <= p < |a| && a[p] == Some(i);
  }

  lemma OneStarter(players: seq<LineupPlayer>, slots: seq<LineupSlot>, p: nat, i: nat) returns (a: Assignment)
    requires p < |players| && i < |slots| && Lists(slots[i], players[p])
    ensures |a| == |players| && Placement(players, slots, a) && Gives(a, {i})
  {
    hide Lists;
    a := seq(|players|, q requires 0 <= q < |players| => if q == p then Some(i) else None);
    assert a[p] == Some(i);
  }

  // ---------------------------------------------------------------- best lineups

  /** A placement; if `direct`, only in slots that list a single position. */
  ghost predicate LineupIn(players: seq<LineupPlayer>, slots: seq<LineupSlot>, direct: bool, a: Assignment) {
    && Placement(players, slots, a)
    && (direct ==> forall p :: 0 <= p < |a| && a[p].Some? ==> |slots[a[p].value].positions| == 1)
  }

  ghost predicate Is(players: seq<LineupPlayer>, a: Assignment, starters: nat, points: real) {
    |a| == |players| && Count(a, Placed) == starters && Worth(players, a) == points
  }

  ghost predicate AtMost(players: seq<LineupPlayer>, a: Assignment, starters: nat, points: real) {
    |a| == |players| && (Count(a, Placed) < starters || (Count(a, Placed) == starters && Worth(players, a) <= points))
  }

  /** The most players that can start at once, and the most points of so many. */
  ghost predicate BestLineup(players: seq<LineupPlayer>, slots: seq<LineupSlot>, direct: bool, starters: nat, points: real) {
    && (exists a :: LineupIn(players, slots, direct, a) && Is(players, a, starters, points))
    && (forall a :: LineupIn(players, slots, direct, a) ==> AtMost(players, a, starters, points))
  }

  lemma {:induction false} PlacedAreFilled(players: seq<Entrant>, a: Assignment)
    requires Legal(players, a)
    ensures |Filled(a)| == Count(a, Placed)
  {
    if |a| > 0 {
      LegalFront(players, a);
      PlacedAreFilled(players[..|a| - 1], a[..|a| - 1]);
    }
  }

  lemma ScoresIs(players: seq<LineupPlayer>, slots: seq<LineupSlot>, a: Assignment, starters: nat, points: real)
    ensures Scores(AsEntrants(players, slots), a, starters, points) <==>
            LineupIn(players, slots, false, a) && Is(players, a, starters, points)
    ensures NoBetter(AsEntrants(players, slots), a, starters, points) <==>
            (LineupIn(players, slots, false, a) ==> AtMost(players, a, starters, points))
  {
    hide AsEntrants, Worth, Filled, Count, Lists;
    var es := AsEntrants(players, slots);
    PlacementIsLegal(players, slots, a);
    if Placement(players, slots, a) {
      PlacedAreFilled(es, a);
      WorthIsTotal(players, slots, a);
    }
  }

  lemma BestOfIsBest(players: seq<LineupPlayer>, slots: seq<LineupSlot>, starters: nat, points: real)
    ensures BestOf(AsEntrants(players, slots), starters, points) <==> BestLineup(players, slots, false, starters, points)
  {
    hide AsEntrants, Scores, NoBetter, Is, AtMost, Placement;
    forall a: Assignment
      ensures Scores(AsEntrants(players, slots), a, starters, points) <==>
              LineupIn(players, slots, false, a) && Is(players, a, starters, points)
      ensures NoBetter(AsEntrants(players, slots), a, starters, points) <==>
              (LineupIn(players, slots, false, a) ==> AtMost(players, a, starters, points))
    {
      ScoresIs(players, slots, a, starters, points);
    }
  }

  // ---------------------------------------------------------------- direct slots

  predicate HasOnePosition(slot: LineupSlot) {
    |slot.positions| == 1
  }

  /** The same lineup over other names of the slots. */
  ghost predicate Renamed(a: Assignment, b: Assignment, places: seq<nat>) {
    && |a| == |b|
    && forall p :: 0 <= p < |a| ==>
         (a[p].Some? <==> b[p].Some?)
         && (a[p].Some? ==> a[p].value < |places| && b[p] == Some(places[a[p].value]))
  }

  lemma {:induction false} RenamedIsSame(players: seq<LineupPlayer>, a: Assignment, b: Assignment, places: seq<nat>)
    requires Renamed(a, b, places) && |a| == |players|
    ensures Count(a, Placed) == Count(b, Placed) && Worth(players, a) == Worth(players, b)
  {
    if |a| > 0 {
      var n := |a| - 1;
      RenamedIsSame(players[..n], a[..n], b[..n], places);
      WorthSnoc(players[..n], a[..n], players[n], a[n]);
      WorthSnoc(players[..n], b[..n], players[n], b[n]);
      assert a == a[..n] + [a[n]] && b == b[..n] + [b[n]] && players == players[..n] + [players[n]];
    }
  }

  /** Where the direct slots are among all slots. */
  ghost predicate DirectPlaces(slots: seq<LineupSlot>, places: seq<nat>) {
    && |places| == |DirectSlots(slots)|
    && (forall k :: 0 <= k < |places| ==> places[k] < |slots| && DirectSlots(slots)[k] == slots[places[k]])
    && (forall j, k :: 0 <= j < k < |places| ==> places[j] < places[k])
    && forall i :: 0 <= i < |slots| && HasOnePosition(slots[i]) ==> i in places
  }

  lemma FindDirectPlaces(slots: seq<LineupSlot>) returns (places: seq<nat>)
    ensures DirectPlaces(slots, places)
    ensures forall k :: 0 <= k < |places| ==> HasOnePosition(slots[places[k]])
  {
    hide Keep, Count, Places;
    var f := (slot: LineupSlot) => |slot.positions| == 1;
    places := Places(slots, f);
    KeepSame(slots, f, (slot: LineupSlot) => |slot.positions| == 1);
    forall k | 0 <= k < |places|
      ensures places[k] < |slots| && HasOnePosition(slots[places[k]]) && DirectSlots(slots)[k] == slots[places[k]]
    {
      PlacesAreKept(slots, f, k);
    }
    forall j, k | 0 <= j < k < |places| ensures places[j] < places[k] {
      PlacesRise(slots, f, j, k);
    }
    forall i | 0 <= i < |slots| && HasOnePosition(slots[i]) ensures i in places {
      var k := PlaceOf(slots, f, i);
    }
  }

  /** A lineup over the direct slots is one over all slots that uses only direct ones. */
  lemma FromDirect(players: seq<LineupPlayer>, slots: seq<LineupSlot>, places: seq<nat>, a: Assignment)
    returns (b: Assignment)
    requires DirectPlaces(slots, places) && LineupIn(players, DirectSlots(slots), false, a)
    requires forall k :: 0 <= k < |places| ==> HasOnePosition(slots[places[k]])
    ensures LineupIn(players, slots, true, b) && Renamed(a, b, places)
  {
    hide Lists, DirectSlots;
    b := seq(|a|, p requires 0 <= p < |a| => if a[p].Some? && a[p].value < |places| then Some(places[a[p].value]) else None);
    forall p, q | 0 <= p < q < |b| && b[p].Some? ensures b[p] != b[q] {
      if b[q].Some? {
        var j, k := a[p].value, a[q].value;
        assert j < k || k < j;
      }
    }
  }

  lemma ToDirect(players: seq<LineupPlayer>, slots: seq<LineupSlot>, places: seq<nat>, b: Assignment)
    returns (a: Assignment)
    requires DirectPlaces(slots, places) && LineupIn(players, slots, true, b)
    ensures LineupIn(players, DirectSlots(slots), false, a) && Renamed(a, b, places)
  {
    hide Lists, DirectSlots;
    a := [];
    for i := 0 to |b|
      invariant |a| == i
      invariant forall p :: 0 <= p < i ==> (a[p].Some? <==> b[p].Some?)
      invariant forall p :: 0 <= p < i && a[p].Some? ==> a[p].value < |places| && b[p] == Some(places[a[p].value])
    {
      if b[i].Some? {
        var k: nat :| k < |places| && places[k] == b[i].value;
        a := a + [Some(k)];
      } else {
        a := a + [None];
      }
    }
  }

  lemma DirectBest(players: seq<LineupPlayer>, slots: seq<LineupSlot>, starters: nat, points: real)
    requires BestLineup(players, DirectSlots(slots), false, starters, points)
    ensures BestLineup(players, slots, true, starters, points)
  {
    hide DirectSlots, Worth, Count, DirectPlaces, LineupIn;
    var places := FindDirectPlaces(slots);
    var a :| LineupIn(players, DirectSlots(slots), false, a) && Is(players, a, starters, points);
    var b := FromDirect(players, slots, places, a);
    RenamedIsSame(players, a, b, places);
    forall c | LineupIn(players, slots, true, c) ensures AtMost(players, c, starters, points) {
      var d := ToDirect(players, slots, places, c);
      assert AtMost(players, d, starters, points);
      RenamedIsSame(players, d, c, places);
    }
  }

  // ---------------------------------------------------------------- the utility of a candidate

  /** The best lineups without and with the candidate, over all slots and over direct ones. */
  datatype Bests = Bests(now: nat, points: real, after: nat, pointsAfter: real, directNow: nat, directAfter: nat)

  /** The verdict: who can open a direct slot, who can open another one, who raises the points, and who does not. */
  ghost predicate Verdict(u: Utility, b: Bests) {
    && u.projectedDelta == (if b.pointsAfter > b.points then b.pointsAfter - b.points else 0.0)
    && match u.impact
       case FillsDirect(_) => b.directAfter > b.directNow && u.rosterNeed == 1.0
       case FillsFlex(_) => b.directAfter <= b.directNow && b.after > b.now && u.rosterNeed == 0.75
       case Upgrades =>
         && b.directAfter <= b.directNow && b.after <= b.now && b.pointsAfter > b.points
         && u.rosterNeed == (if u.projectedDelta < 20.0 then 0.75 * (u.projectedDelta / 20.0) else 0.75)
       case _ => b.directAfter <= b.directNow && b.after <= b.now && b.pointsAfter <= b.points && u.rosterNeed == 0.0
  }

  ghost predicate AreBests(candidate: LineupPlayer, slots: seq<LineupSlot>, owner: seq<LineupPlayer>, b: Bests) {
    && BestLineup(owner, slots, false, b.now, b.points)
    && BestLineup(owner + [candidate], slots, false, b.after, b.pointsAfter)
    && (exists p :: BestLineup(owner, slots, true, b.directNow, p))
    && (exists p :: BestLineup(owner + [candidate], slots, true, b.directAfter, p))
  }

  /**
    The utility of a candidate, told on positions: he cannot start exactly when no slot lists one of his positions,
    and otherwise the best lineups decide.
  */
  lemma UtilityTold(u: Utility, candidate: LineupPlayer, slots: seq<LineupSlot>, owner: seq<LineupPlayer>) returns (b: Bests)
    requires IsUtility(u, candidate, slots, owner)
    ensures u.impact.CannotStart? <==> forall i :: 0 <= i < |slots| ==> !Lists(slots[i], candidate)
    ensures AreBests(candidate, slots, owner, b) && Verdict(u, b)
  {
    hide BestOf, BestLineup, DirectSlots, AsEntrant, AsEntrants, Lists;
    forall i: nat ensures i in AsEntrant(candidate, slots).fits <==> i < |slots| && Lists(slots[i], candidate) {
      FitsWhereListed(candidate, slots, i);
    }
    var direct, all :| FollowsFrom(u, candidate, slots, owner, direct, all);
    b := Bests(all.filled, all.points, all.filled', all.points', direct.filled, direct.filled');
    BestOfIsBest(owner, slots, all.filled, all.points);
    BestOfIsBest(owner + [candidate], slots, all.filled', all.points');
    BestOfIsBest(owner, DirectSlots(slots), direct.filled, direct.points);
    BestOfIsBest(owner + [candidate], DirectSlots(slots), direct.filled', direct.points');
    DirectBest(owner, slots, direct.filled, direct.points);
    DirectBest(owner + [candidate], slots, direct.filled', direct.points');
  }

  // ---------------------------------------------------------------- the slot an impact names

  /** The slot is the first one in which a best lineup with the candidate starts him. */
  ghost predicate FirstStart(candidate: LineupPlayer, slots: seq<LineupSlot>, owner: seq<LineupPlayer>, direct: bool, i: nat) {
    exists n, x :: BestLineup(owner + [candidate], slots, direct, n, x) && FirstOf(owner + [candidate], slots, direct, n, x, i)
  }

  /** Of the lineups of this score that start the last player, one does so in this slot and none in an earlier one. */
  ghost predicate FirstOf(players: seq<LineupPlayer>, slots: seq<LineupSlot>, direct: bool, n: nat, x: real, i: nat)
    requires |players| > 0
  {
    && (exists a: Assignment :: LineupIn(players, slots, direct, a) && Is(players, a, n, x) && a[|players| - 1] == Some(i))
    && forall a: Assignment :: LineupIn(players, slots, direct, a) && Is(players, a, n, x) && a[|players| - 1].Some? ==>
         i <= a[|players| - 1].value
  }

  lemma StartsFirstIs(players: seq<LineupPlayer>, slots: seq<LineupSlot>, n: nat, x: real, i: nat)
    requires |players| > 0 && StartsFirst(AsEntrants(players, slots), n, x, i)
    ensures FirstOf(players, slots, false, n, x, i)
  {
    hide AsEntrants, LineupIn;
    var a: Assignment :| Scores(AsEntrants(players, slots), a, n, x) && a[|players| - 1] == Some(i);
    ScoresIs(players, slots, a, n, x);
    forall b: Assignment | LineupIn(players, slots, false, b) && Is(players, b, n, x) && b[|players| - 1].Some?
      ensures i <= b[|players| - 1].value
    {
      ScoresIs(players, slots, b, n, x);
    }
  }

  lemma StartsInIs(candidate: LineupPlayer, slots: seq<LineupSlot>, owner: seq<LineupPlayer>, i: nat)
    requires StartsIn(AsEntrants(owner, slots), AsEntrant(candidate, slots), i)
    ensures FirstStart(candidate, slots, owner, false, i)
  {
    hide AsEntrants, BestOf, StartsFirst, BestLineup;
    AsEntrantsSnoc(owner, candidate, slots);
    var es := AsEntrants(owner, slots) + [AsEntrant(candidate, slots)];
    var n, x :| BestOf(es, n, x) && StartsFirst(es, n, x, i);
    BestOfIsBest(owner + [candidate], slots, n, x);
    StartsFirstIs(owner + [candidate], slots, n, x, i);
  }

  lemma FirstOfDirect(players: seq<LineupPlayer>, slots: seq<LineupSlot>, places: seq<nat>, n: nat, x: real, k: nat)
    requires |players| > 0 && FirstOf(players, DirectSlots(slots), false, n, x, k)
    requires DirectPlaces(slots, places) && forall k :: 0 <= k < |places| ==> HasOnePosition(slots[places[k]])
    ensures k < |places| && FirstOf(players, slots, true, n, x, places[k])
  {
    hide DirectSlots, Worth, Count, LineupIn;
    var last := |players| - 1;
    var a: Assignment :| LineupIn(players, DirectSlots(slots), false, a) && Is(players, a, n, x) && a[last] == Some(k);
    var b := FromDirect(players, slots, places, a);
    RenamedIsSame(players, a, b, places);
    forall d: Assignment | LineupIn(players, slots, true, d) && Is(players, d, n, x) && d[last].Some?
      ensures places[k] <= d[last].value
    {
      var e := ToDirect(players, slots, places, d);
      RenamedIsSame(players, e, d, places);
      assert k <= e[last].value;
    }
  }

  /** The direct slot that an impact names, among all slots. */
  lemma DirectSlotTold(candidate: LineupPlayer, slots: seq<LineupSlot>, owner: seq<LineupPlayer>, slot: nat) returns (i: nat)
    requires NamesDirect(candidate, slots, owner, slot)
    ensures slot < |DirectSlots(slots)| && i < |slots| && slots[i] == DirectSlots(slots)[slot]
    ensures FirstStart(candidate, slots, owner, true, i)
  {
    hide AsEntrants, BestLineup, FirstOf, DirectSlots, StartsIn;
    StartsInIs(candidate, DirectSlots(slots), owner, slot);
    var n, x :| BestLineup(owner + [candidate], DirectSlots(slots), false, n, x)
                && FirstOf(owner + [candidate], DirectSlots(slots), false, n, x, slot);
    var places := FindDirectPlaces(slots);
    FirstOfDirect(owner + [candidate], slots, places, n, x, slot);
    DirectBest(owner + [candidate], slots, n, x);
    i := places[slot];
  }

  /** The lineup leaves the slot open, and it takes several positions, one of them the candidate's. */
  ghost predicate OpenTo(candidate: LineupPlayer, slots: seq<LineupSlot>, a: Assignment, i: nat) {
    && i < |slots| && |slots[i].positions| > 1 && Lists(slots[i], candidate)
    && forall p :: 0 <= p < |a| ==> a[p] != Some(i)
  }

  /** The first such slot; if there is none, the first in which a best lineup with the candidate starts him. */
  ghost predicate FlexTold(candidate: LineupPlayer, slots: seq<LineupSlot>, owner: seq<LineupPlayer>, a: Assignment, slot: nat) {
    && slot < |slots| && Lists(slots[slot], candidate)
    && (if OpenTo(candidate, slots, a, slot) then forall i: nat :: i < slot ==> !OpenTo(candidate, slots, a, i)
        else (forall i: nat :: !OpenTo(candidate, slots, a, i)) && FirstStart(candidate, slots, owner, false, slot))
  }

  lemma OpenFlexIs(candidate: LineupPlayer, slots: seq<LineupSlot>, a: Assignment, i: nat)
    ensures OpenFlex(candidate, slots, Filled(a), i) <==> OpenTo(candidate, slots, a, i)
  {
    hide Lists, Filled;
    FilledHas(a, i);
    FitsWhereListed(candidate, slots, i);
    assert i < |slots| ==> (i in AsEntrant(candidate, slots).fits <==> CanStart(candidate, slots[i]));
  }

  /** The flexible slot that an impact names is told from a best lineup of the owner's players. */
  lemma FlexSlotTold(candidate: LineupPlayer, slots: seq<LineupSlot>, owner: seq<LineupPlayer>, slot: nat)
    returns (a: Assignment, n: nat, x: real)
    requires NamesFlex(candidate, slots, owner, slot)
    ensures BestLineup(owner, slots, false, n, x) && LineupIn(owner, slots, false, a) && Is(owner, a, n, x)
    ensures FlexTold(candidate, slots, owner, a, slot)
  {
    hide AsEntrants, BestOf, BestLineup, FirstStart, StartsIn, OpenTo, OpenFlex, Lists, Filled, AsEntrant, Scores, LineupIn;
    var es := AsEntrants(owner, slots);
    a, n, x :| BestOf(es, n, x) && Scores(es, a, n, x) && NamesSlot(candidate, slots, Filled(a), slot)
               && (OpenFlex(candidate, slots, Filled(a), slot) || StartsIn(es, AsEntrant(candidate, slots), slot));
    BestOfIsBest(owner, slots, n, x);
    ScoresIs(owner, slots, a, n, x);
    FitsWhereListed(candidate, slots, slot);
    forall i: nat ensures OpenFlex(candidate, slots, Filled(a), i) <==> OpenTo(candidate, slots, a, i) {
      OpenFlexIs(candidate, slots, a, i);
    }
    if StartsIn(es, AsEntrant(candidate, slots), slot) {
      StartsInIs(candidate, slots, owner, slot);
    }
  }
}
