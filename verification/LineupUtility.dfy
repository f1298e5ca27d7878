/**
  The marginal lineup utility of a draft candidate. The fast answer, read off the table of
  the owner's players, is the answer of recomputing the best lineup with the candidate.
*/
module LineupUtility {
  import opened Sequences
  import opened Wrappers
  import opened Matching
  import opened LineupTable

  /** A lineup with this many slots filled and this many points. */
  ghost predicate Scores(players: seq<Entrant>, a: Assignment, filled: nat, points: real) {
    Legal(players, a) && |Filled(a)| == filled && Total(players, a) == points
  }

  /** A lineup no better than this. */
  ghost predicate NoBetter(players: seq<Entrant>, a: Assignment, filled: nat, points: real) {
    Legal(players, a) ==> LexBelow(|Filled(a)|, Total(players, a), filled, points)
  }

  /** The best lineup over all legal assignments: most slots, then most points. */
  ghost predicate BestOf(players: seq<Entrant>, filled: nat, points: real) {
    && (exists a :: Scores(players, a, filled, points))
    && (forall a :: NoBetter(players, a, filled, points))
  }

  lemma TableBounds(players: seq<Entrant>, states: States, filled: nat, points: real, a: Assignment)
    requires Exact(players, states) && IsBest(states, filled, points)
    ensures NoBetter(players, a, filled, points)
  {
    if Legal(players, a) {
      assert Filled(a) in states && Total(players, a) <= states[Filled(a)];
    }
  }

  lemma LineupOfState(players: seq<Entrant>, states: States, mask: set<nat>) returns (a: Assignment)
    requires Exact(players, states) && mask in states
    ensures Filled(a) == mask && Scores(players, a, |mask|, states[mask])
  {
    assert Achieved(players, mask, states[mask]);
    a :| Legal(players, a) && Filled(a) == mask && Total(players, a) == states[mask];
  }

  lemma TableScore(players: seq<Entrant>, states: States, filled: nat, points: real) returns (a: Assignment)
    requires Exact(players, states) && IsBest(states, filled, points)
    ensures Scores(players, a, filled, points)
  {
    var mask :| mask in states && |mask| == filled && states[mask] == points;
    a := LineupOfState(players, states, mask);
  }

  lemma BestStateIsBest(players: seq<Entrant>, states: States, filled: nat, points: real)
    requires Exact(players, states) && IsBest(states, filled, points)
    ensures BestOf(players, filled, points)
  {
    hide Exact, IsBest, NoBetter, Scores;
    var best := TableScore(players, states, filled, points);
    forall a ensures NoBetter(players, a, filled, points) {
      TableBounds(players, states, filled, points, a);
    }
  }

  lemma BestIsUnique(players: seq<Entrant>, f: nat, p: real, g: nat, q: real)
    requires BestOf(players, f, p) && BestOf(players, g, q)
    ensures f == g && p == q
  {
    var a :| Scores(players, a, f, p);
    var b :| Scores(players, b, g, q);
    assert NoBetter(players, a, g, q) && NoBetter(players, b, f, p);
  }

  /** Starting the candidate on top of a state is a legal lineup of all players. */
  lemma ForcedIsLegal(players: seq<Entrant>, e: Entrant, states: States, f: Forced) returns (a: Assignment)
    requires Exact(players, states) && IsForced(states, e, f)
    ensures Scores(players + [e], a, f.filled, f.points)
  {
    var mask :| Fit(states, e, mask, f.slot) && f == Forcing(states, e, mask, f.slot);
    assert Achieved(players, mask, states[mask]);
    TakingIsAchieved(players, e, mask, states[mask], f.slot);
    a :| Legal(players + [e], a) && Filled(a) == mask + {f.slot} && Total(players + [e], a) == f.points;
    assert |mask + {f.slot}| == |mask| + 1;
  }

  lemma BenchedIsBase(players: seq<Entrant>, e: Entrant, filled: nat, points: real, a: Assignment)
    requires BestOf(players, filled, points)
    requires Legal(players + [e], a) && a[|players|].None?
    ensures NoBetter(players + [e], a, filled, points)
  {
    LegalFront(players + [e], a);
    var front := a[..|players|];
    assert (players + [e])[..|players|] == players;
    assert NoBetter(players, front, filled, points);
    assert Filled(a) == Filled(front);
  }

  lemma StartedIsForced(players: seq<Entrant>, e: Entrant, states: States, r: Option<Forced>, a: Assignment)
    requires Exact(players, states) && IsBestFit(states, e, r)
    requires Legal(players + [e], a) && a[|players|].Some?
    ensures r.Some? && NoBetter(players + [e], a, r.value.filled, r.value.points)
  {
    LegalFront(players + [e], a);
    var front, i := a[..|players|], a[|players|].value;
    assert (players + [e])[..|players|] == players;
    var mask := Filled(front);
    assert mask in states && Total(players, front) <= states[mask];
    assert Fit(states, e, mask, i);
    assert Filled(a) == mask + {i} && |mask + {i}| == |mask| + 1;
  }

  /** Any lineup of all players benches the candidate or starts him no better than the query says. */
  lemma LineupIsBaseOrForced(players: seq<Entrant>, e: Entrant, states: States, r: Option<Forced>,
                             filled: nat, points: real, a: Assignment)
    requires Exact(players, states) && IsBestFit(states, e, r) && BestOf(players, filled, points)
    ensures || NoBetter(players + [e], a, filled, points)
            || (r.Some? && NoBetter(players + [e], a, r.value.filled, r.value.points))
  {
    hide Exact, IsBestFit, BestOf;
    if Legal(players + [e], a) {
      if a[|players|].Some? {
        StartedIsForced(players, e, states, r, a);
      } else {
        BenchedIsBase(players, e, filled, points, a);
      }
    }
  }

  lemma BetterThanBoth(players: seq<Entrant>, a: Assignment, f: nat, p: real, g: nat, q: real)
    requires LexBelow(f, p, g, q)
    requires NoBetter(players, a, f, p) || NoBetter(players, a, g, q)
    ensures NoBetter(players, a, g, q)
  {
  }

  lemma BaseStillScores(players: seq<Entrant>, e: Entrant, a: Assignment, filled: nat, points: real)
    requires Scores(players, a, filled, points)
    ensures Scores(players + [e], a + [None], filled, points)
  {
    LegalSnoc(players, a, e, None);
    assert Filled(a + [None]) == Filled(a);
  }

  /** The fast query refines recomputation: the new best is the better of the old best and the forced lineup. */
  lemma FastQueryIsExact(players: seq<Entrant>, e: Entrant, states: States, r: Option<Forced>,
                         filled: nat, points: real)
    requires Exact(players, states) && IsBestFit(states, e, r) && BestOf(players, filled, points)
    ensures var forcedWins := r.Some? && LexBelow(filled, points, r.value.filled, r.value.points);
            BestOf(players + [e], if forcedWins then r.value.filled else filled,
                                  if forcedWins then r.value.points else points)
  {
    hide Exact, IsBestFit, Scores, NoBetter, IsForced;
    var base :| Scores(players, base, filled, points);
    BaseStillScores(players, e, base, filled, points);
    if r.Some? {
      BestFitIsForced(states, e, r);
      var forced := ForcedIsLegal(players, e, states, r.value);
    }
    forall a
      ensures || (r.Some? && LexBelow(filled, points, r.value.filled, r.value.points)
                  && NoBetter(players + [e], a, r.value.filled, r.value.points))
              || (!(r.Some? && LexBelow(filled, points, r.value.filled, r.value.points))
                  && NoBetter(players + [e], a, filled, points))
    {
      LineupIsBaseOrForced(players, e, states, r, filled, points, a);
      if r.Some? {
        if LexBelow(filled, points, r.value.filled, r.value.points) {
          BetterThanBoth(players + [e], a, filled, points, r.value.filled, r.value.points);
        } else {
          BetterThanBoth(players + [e], a, r.value.filled, r.value.points, filled, points);
        }
      }
    }
  }

  lemma BestFitIsForced(states: States, e: Entrant, r: Option<Forced>)
    requires IsBestFit(states, e, r) && r.Some?
    ensures IsForced(states, e, r.value)
  {
  }

  /** A state one slot short of the base at worst, with room for a candidate who fits some slot. */
  lemma RoomForCandidate(players: seq<Entrant>, e: Entrant, base: Assignment, filled: nat, points: real)
    returns (a: Assignment, i: nat)
    requires Scores(players, base, filled, points) && e.fits != {}
    ensures Legal(players, a) && i in e.fits && i !in Filled(a) && |Filled(a)| + 1 >= filled
  {
    i :| i in e.fits;
    a := base;
    if i in Filled(base) {
      var p := StarterOf(players, base, i);
      BenchStarter(players, base, p);
      a := base[p := None];
      assert |Filled(base) - {i}| == filled - 1;
    }
  }

  lemma ForcedAtMostOneMore(players: seq<Entrant>, e: Entrant, states: States, f: Forced, filled: nat, points: real)
    requires Exact(players, states) && IsForced(states, e, f) && BestOf(players, filled, points)
    ensures f.filled <= filled + 1
  {
    var mask :| Fit(states, e, mask, f.slot) && f == Forcing(states, e, mask, f.slot);
    assert Achieved(players, mask, states[mask]);
    var b :| Legal(players, b) && Filled(b) == mask && Total(players, b) == states[mask];
    assert NoBetter(players, b, filled, points);
  }

  lemma FittingAnswers(players: seq<Entrant>, e: Entrant, states: States, r: Option<Forced>, a: Assignment, i: nat)
    requires Exact(players, states) && IsBestFit(states, e, r)
    requires Legal(players, a) && i in e.fits && i !in Filled(a)
    ensures r.Some? && r.value.filled >= |Filled(a)| + 1
  {
    assert Fit(states, e, Filled(a), i);
  }

  /** Exchange: a candidate who fits some slot starts in a lineup as full as the base, or one fuller. */
  lemma ForcingKeepsFill(players: seq<Entrant>, e: Entrant, states: States, r: Option<Forced>,
                         filled: nat, points: real)
    requires Exact(players, states) && IsBestFit(states, e, r) && BestOf(players, filled, points)
    requires e.fits != {}
    ensures r.Some? && filled <= r.value.filled <= filled + 1
  {
    hide Exact, IsBestFit, Scores, NoBetter, Legal, IsForced;
    var base :| Scores(players, base, filled, points);
    var a, i := RoomForCandidate(players, e, base, filled, points);
    FittingAnswers(players, e, states, r, a, i);
    BestFitIsForced(states, e, r);
    ForcedAtMostOneMore(players, e, states, r.value, filled, points);
  }

  /** The lineups of this score that start the last player do so in this slot or a later one. */
  ghost predicate StartsFirst(all: seq<Entrant>, filled: nat, points: real, slot: nat)
    requires |all| > 0
  {
    && (exists a: Assignment :: Scores(all, a, filled, points) && a[|all| - 1] == Some(slot))
    && forall a: Assignment :: Scores(all, a, filled, points) && a[|all| - 1].Some? ==> slot <= a[|all| - 1].value
  }

  /** The first slot in which a best lineup with the candidate starts him. */
  ghost predicate StartsIn(players: seq<Entrant>, e: Entrant, slot: nat) {
    exists f, p :: BestOf(players + [e], f, p) && StartsFirst(players + [e], f, p, slot)
  }

  lemma StartedAtOrAfter(players: seq<Entrant>, e: Entrant, states: States, r: Forced, a: Assignment)
    requires Exact(players, states) && IsBestFit(states, e, Some(r))
    requires Scores(players + [e], a, r.filled, r.points) && a[|players|].Some?
    ensures r.slot <= a[|players|].value
  {
    LegalFront(players + [e], a);
    var front, i := a[..|players|], a[|players|].value;
    assert (players + [e])[..|players|] == players;
    var mask := Filled(front);
    assert Filled(a) == mask + {i} && |mask + {i}| == |mask| + 1;
    assert Fit(states, e, mask, i);
  }

  lemma StartedAt(players: seq<Entrant>, e: Entrant, states: States, f: Forced) returns (a: Assignment)
    requires Exact(players, states) && IsForced(states, e, f)
    ensures Scores(players + [e], a, f.filled, f.points) && a[|players|] == Some(f.slot)
  {
    var mask :| Fit(states, e, mask, f.slot) && f == Forcing(states, e, mask, f.slot);
    assert Achieved(players, mask, states[mask]);
    var b :| Legal(players, b) && Filled(b) == mask && Total(players, b) == states[mask];
    LegalSnoc(players, b, e, Some(f.slot));
    a := b + [Some(f.slot)];
    assert |mask + {f.slot}| == |mask| + 1;
  }

  /** A candidate who opens a slot starts in the slot of the query. */
  lemma OpeningStartsIn(players: seq<Entrant>, e: Entrant, states: States, r: Forced, filled: nat, points: real)
    requires Exact(players, states) && IsBestFit(states, e, Some(r)) && BestOf(players, filled, points)
    requires r.filled > filled
    ensures StartsIn(players, e, r.slot)
  {
    hide Exact, IsBestFit, BestOf;
    FastQueryIsExact(players, e, states, Some(r), filled, points);
    BestFitIsForced(states, e, Some(r));
    var a := StartedAt(players, e, states, r);
    forall b: Assignment | Scores(players + [e], b, r.filled, r.points) && b[|players|].Some?
      ensures r.slot <= b[|players|].value
    {
      StartedAtOrAfter(players, e, states, r, b);
    }
    assert StartsFirst(players + [e], r.filled, r.points, r.slot);
  }

  // ---------------------------------------------------------------- the utility

  const UPGRADE_POINTS := 20.0

  datatype Impact = CannotStart | FillsDirect(slot: nat) | FillsFlex(slot: nat) | Upgrades | BenchOnly

  datatype Utility = Utility(rosterNeed: real, projectedDelta: real, impact: Impact)

  datatype Context = Context(slots: seq<LineupSlot>, directSlots: seq<LineupSlot>, states: States, directStates: States)

  /** The tables belong to these owner players. */
  ghost predicate ContextOf(context: Context, owner: seq<LineupPlayer>) {
    && Exact(AsEntrants(owner, context.slots), context.states)
    && Exact(AsEntrants(owner, context.directSlots), context.directStates)
  }

  function DirectSlots(slots: seq<LineupSlot>): seq<LineupSlot> {
    Keep(slots, (slot: LineupSlot) => |slot.positions| == 1)
  }

  method BuildContext(owner: seq<LineupPlayer>, slots: seq<LineupSlot>) returns (context: Context)
    ensures ContextOf(context, owner) && context.slots == slots && context.directSlots == DirectSlots(slots)
  {
    var states := LineupStates(owner, slots);
    var directStates := LineupStates(owner, DirectSlots(slots));
    context := Context(slots, DirectSlots(slots), states, directStates);
  }

  function Gain(after: real, before: real): real {
    if after > before then after - before else 0.0
  }

  /** The verdict in terms of the best lineups before and after signing the candidate. */
  ghost predicate UtilityOf(u: Utility, direct: Signing, all: Signing) {
    && u.projectedDelta == Gain(all.points', all.points)
    && (u.impact.FillsDirect? <==> direct.filled' > direct.filled)
    && (u.impact.FillsFlex? <==> direct.filled' <= direct.filled && all.filled' > all.filled)
    && (u.impact.Upgrades? <==> direct.filled' <= direct.filled && all.filled' <= all.filled && all.points' > all.points)
    && u.rosterNeed == match u.impact
                       case FillsDirect(_) => 1.0
                       case FillsFlex(_) => 0.75
                       case Upgrades =>
                         if u.projectedDelta >= UPGRADE_POINTS then 0.75 else 0.75 * (u.projectedDelta / UPGRADE_POINTS)
                       case _ => 0.0
  }

  /** A player who fits no slot of the lineup fits none of the direct ones. */
  lemma DirectFitsAnywhere(p: LineupPlayer, slots: seq<LineupSlot>)
    requires forall i :: 0 <= i < |slots| ==> !CanStart(p, slots[i])
    ensures forall i :: 0 <= i < |DirectSlots(slots)| ==> !CanStart(p, DirectSlots(slots)[i])
  {
    forall i | 0 <= i < |DirectSlots(slots)| ensures !CanStart(p, DirectSlots(slots)[i]) {
      assert DirectSlots(slots)[i] in slots;
    }
  }

  lemma AsEntrantsSnoc(owner: seq<LineupPlayer>, c: LineupPlayer, slots: seq<LineupSlot>)
    ensures AsEntrants(owner + [c], slots) == AsEntrants(owner, slots) + [AsEntrant(c, slots)]
  {
  }

  /** An empty answer leaves the best lineup as it was. */
  lemma NoFitNoChange(players: seq<Entrant>, e: Entrant, states: States, filled: nat, points: real)
    requires Exact(players, states) && IsBestFit(states, e, None) && BestOf(players, filled, points)
    ensures e.fits == {} && BestOf(players + [e], filled, points)
  {
    FastQueryIsExact(players, e, states, None, filled, points);
    if e.fits != {} {
      ForcingKeepsFill(players, e, states, None, filled, points);
    }
  }

  /** How full and how rich the best lineup is before signing the candidate, and after. */
  datatype Signing = Signing(filled: nat, points: real, filled': nat, points': real)

  ghost predicate IsSigning(owner: seq<LineupPlayer>, candidate: LineupPlayer, slots: seq<LineupSlot>, x: Signing) {
    && BestOf(AsEntrants(owner, slots), x.filled, x.points)
    && BestOf(AsEntrants(owner + [candidate], slots), x.filled', x.points')
  }

  /** The verdict follows from the best lineups over all slots and over direct ones. */
  ghost predicate FollowsFrom(u: Utility, candidate: LineupPlayer, slots: seq<LineupSlot>, owner: seq<LineupPlayer>,
                              direct: Signing, all: Signing)
  {
    && IsSigning(owner, candidate, slots, all) && IsSigning(owner, candidate, DirectSlots(slots), direct)
    && UtilityOf(u, direct, all)
  }

  /** The utility that recomputing both lineups, over all slots and over direct ones, gives the candidate. */
  ghost predicate IsUtility(u: Utility, candidate: LineupPlayer, slots: seq<LineupSlot>, owner: seq<LineupPlayer>) {
    && (u.impact.CannotStart? <==> AsEntrant(candidate, slots).fits == {})
    && exists direct, all :: FollowsFrom(u, candidate, slots, owner, direct, all)
  }

  predicate OpenFlex(candidate: LineupPlayer, slots: seq<LineupSlot>, taken: set<nat>, i: nat) {
    i < |slots| && i !in taken && |slots[i].positions| > 1 && CanStart(candidate, slots[i])
  }

  /** The first flexible slot that is open and that the candidate may fill, or another slot if there is none. */
  ghost predicate NamesSlot(candidate: LineupPlayer, slots: seq<LineupSlot>, taken: set<nat>, slot: nat) {
    && slot in AsEntrant(candidate, slots).fits
    && (OpenFlex(candidate, slots, taken, slot) || forall i :: !OpenFlex(candidate, slots, taken, i))
    && forall i :: 0 <= i < slot && OpenFlex(candidate, slots, taken, slot) ==> !OpenFlex(candidate, slots, taken, i)
  }

  /**
    The named slot is told from some best lineup of the owner's players; without an open flexible slot it is
    the first one in which a best lineup with the candidate starts him.
  */
  ghost predicate NamesFlex(candidate: LineupPlayer, slots: seq<LineupSlot>, owner: seq<LineupPlayer>, slot: nat) {
    exists a, f, p ::
      && BestOf(AsEntrants(owner, slots), f, p) && Scores(AsEntrants(owner, slots), a, f, p)
      && NamesSlot(candidate, slots, Filled(a), slot)
      && (OpenFlex(candidate, slots, Filled(a), slot) || StartsIn(AsEntrants(owner, slots), AsEntrant(candidate, slots), slot))
  }

  /** The named direct slot is the first one in which a best lineup over direct slots with the candidate starts him. */
  ghost predicate NamesDirect(candidate: LineupPlayer, slots: seq<LineupSlot>, owner: seq<LineupPlayer>, slot: nat) {
    StartsIn(AsEntrants(owner, DirectSlots(slots)), AsEntrant(candidate, DirectSlots(slots)), slot)
  }

  /** The slot an impact names. */
  ghost predicate NamesItsSlot(u: Utility, candidate: LineupPlayer, slots: seq<LineupSlot>, owner: seq<LineupPlayer>) {
    && (u.impact.FillsFlex? ==> NamesFlex(candidate, slots, owner, u.impact.slot))
    && (u.impact.FillsDirect? ==> NamesDirect(candidate, slots, owner, u.impact.slot))
  }

  method FlexSlot(candidate: LineupPlayer, slots: seq<LineupSlot>, taken: set<nat>, fallback: nat) returns (slot: nat)
    requires fallback in AsEntrant(candidate, slots).fits
    ensures NamesSlot(candidate, slots, taken, slot) && (OpenFlex(candidate, slots, taken, slot) || slot == fallback)
  {
    for i := 0 to |slots|
      invariant forall k: nat :: k < i ==> !OpenFlex(candidate, slots, taken, k)
    {
      if OpenFlex(candidate, slots, taken, i) {
        return i;
      }
    }
    slot := fallback;
  }

  lemma NamedInTable(candidate: LineupPlayer, slots: seq<LineupSlot>, owner: seq<LineupPlayer>, states: States,
                     mask: set<nat>, slot: nat)
    requires Exact(AsEntrants(owner, slots), states) && mask in states && IsBest(states, |mask|, states[mask])
    requires NamesSlot(candidate, slots, mask, slot)
    requires OpenFlex(candidate, slots, mask, slot) || StartsIn(AsEntrants(owner, slots), AsEntrant(candidate, slots), slot)
    ensures NamesFlex(candidate, slots, owner, slot)
  {
    hide NamesSlot, IsBest, Exact, BestOf, Scores, AsEntrants, Filled, StartsIn, OpenFlex;
    BestStateIsBest(AsEntrants(owner, slots), states, |mask|, states[mask]);
    var a := LineupOfState(AsEntrants(owner, slots), states, mask);
  }

  /** The fast utility is the utility of recomputing both lineups with the candidate. */
  method MarginalLineupUtility(candidate: LineupPlayer, context: Context, ghost owner: seq<LineupPlayer>)
    returns (u: Utility)
    requires ContextOf(context, owner) && context.directSlots == DirectSlots(context.slots)
    ensures IsUtility(u, candidate, context.slots, owner)
    ensures NamesItsSlot(u, candidate, context.slots, owner)
  {
    hide IsUtility, BestOf, Exact, IsBestFit, IsBest, NamesSlot, NamesFlex, StartsIn, OpenFlex;
    TableNotEmpty(AsEntrants(owner, context.slots), context.states);
    TableNotEmpty(AsEntrants(owner, context.directSlots), context.directStates);
    var base := BestMask(context.states);
    var baseFilled, basePoints := |base|, context.states[base];
    var baseDirect, baseDirectPoints := BestLineupState(context.directStates);
    var r := BestLineupWithCandidate(candidate, context.slots, context.states);
    var rd := BestLineupWithCandidate(candidate, context.directSlots, context.directStates);
    ghost var f', p' := AfterSigning(AsEntrants(owner, context.slots), AsEntrant(candidate, context.slots), context.states,
                                     r, baseFilled, basePoints);
    ghost var d', dp' := AfterSigning(AsEntrants(owner, context.directSlots), AsEntrant(candidate, context.directSlots),
                                      context.directStates, rd, baseDirect, baseDirectPoints);
    AsEntrantsSnoc(owner, candidate, context.slots);
    AsEntrantsSnoc(owner, candidate, context.directSlots);
    FitsIfForced(AsEntrant(candidate, context.slots), context.states, r);
    if r.None? {
      DirectNoneToo(candidate, context, rd);
      u := Utility(0.0, 0.0, CannotStart);
    } else {
      var delta := Gain(r.value.points, basePoints);
      if rd.Some? && rd.value.filled > baseDirect {
        OpeningStartsIn(AsEntrants(owner, context.directSlots), AsEntrant(candidate, context.directSlots),
                        context.directStates, rd.value, baseDirect, baseDirectPoints);
        u := Utility(1.0, delta, FillsDirect(rd.value.slot));
      } else if r.value.filled > baseFilled {
        var slot := FlexSlot(candidate, context.slots, base, r.value.slot);
        OpeningStartsIn(AsEntrants(owner, context.slots), AsEntrant(candidate, context.slots), context.states, r.value,
                        baseFilled, basePoints);
        NamedInTable(candidate, context.slots, owner, context.states, base, slot);
        u := Utility(0.75, delta, FillsFlex(slot));
      } else if delta > 0.0 {
        u := Utility(if delta >= UPGRADE_POINTS then 0.75 else 0.75 * (delta / UPGRADE_POINTS), delta, Upgrades);
      } else {
        u := Utility(0.0, 0.0, BenchOnly);
      }
    }
    UtilityIs(u, candidate, context.slots, owner, Signing(baseDirect, baseDirectPoints, d', dp'),
              Signing(baseFilled, basePoints, f', p'));
  }

  lemma UtilityIs(u: Utility, candidate: LineupPlayer, slots: seq<LineupSlot>, owner: seq<LineupPlayer>,
                  direct: Signing, all: Signing)
    requires u.impact.CannotStart? <==> AsEntrant(candidate, slots).fits == {}
    requires FollowsFrom(u, candidate, slots, owner, direct, all)
    ensures IsUtility(u, candidate, slots, owner)
  {
  }

  ghost predicate SameVerdict(u: Utility, v: Utility) {
    && u.rosterNeed == v.rosterNeed && u.projectedDelta == v.projectedDelta
    && (u.impact.FillsDirect? <==> v.impact.FillsDirect?)
    && (u.impact.FillsFlex? <==> v.impact.FillsFlex?) && (u.impact.Upgrades? <==> v.impact.Upgrades?)
  }

  lemma SameUtility(u: Utility, v: Utility, direct: Signing, all: Signing)
    requires UtilityOf(u, direct, all) && UtilityOf(v, direct, all)
    ensures SameVerdict(u, v)
  {
  }

  lemma SigningIsUnique(owner: seq<LineupPlayer>, candidate: LineupPlayer, slots: seq<LineupSlot>, x: Signing, y: Signing)
    requires IsSigning(owner, candidate, slots, x) && IsSigning(owner, candidate, slots, y)
    ensures x == y
  {
    hide BestOf, AsEntrants;
    BestIsUnique(AsEntrants(owner, slots), x.filled, x.points, y.filled, y.points);
    BestIsUnique(AsEntrants(owner + [candidate], slots), x.filled', x.points', y.filled', y.points');
  }

  /** Recomputing both lineups fixes the utility: its need, its gain and the kind of its impact. */
  lemma UtilityIsFixed(u: Utility, v: Utility, candidate: LineupPlayer, slots: seq<LineupSlot>, owner: seq<LineupPlayer>)
    requires IsUtility(u, candidate, slots, owner) && IsUtility(v, candidate, slots, owner)
    ensures SameVerdict(u, v) && (u.impact.CannotStart? <==> v.impact.CannotStart?)
  {
    hide IsSigning, UtilityOf, SameVerdict, AsEntrant, DirectSlots;
    var direct, all :| FollowsFrom(u, candidate, slots, owner, direct, all);
    var direct', all' :| FollowsFrom(v, candidate, slots, owner, direct', all');
    SigningIsUnique(owner, candidate, slots, all, all');
    SigningIsUnique(owner, candidate, DirectSlots(slots), direct, direct');
    SameUtility(u, v, direct, all);
  }

  /** The utilities of all candidates, the tables built once. */
  method CandidateUtilities(owner: seq<LineupPlayer>, slots: seq<LineupSlot>, candidates: seq<LineupPlayer>)
    returns (us: seq<Utility>)
    ensures |us| == |candidates|
    ensures forall i :: 0 <= i < |us| ==> IsUtility(us[i], candidates[i], slots, owner)
    ensures forall i :: 0 <= i < |us| ==> NamesItsSlot(us[i], candidates[i], slots, owner)
  {
    hide IsUtility, ContextOf, NamesItsSlot;
    var context := BuildContext(owner, slots);
    us := [];
    for i := 0 to |candidates|
      invariant |us| == i
      invariant forall k :: 0 <= k < i ==> IsUtility(us[k], candidates[k], slots, owner)
      invariant forall k :: 0 <= k < i ==> NamesItsSlot(us[k], candidates[k], slots, owner)
    {
      var u := MarginalLineupUtility(candidates[i], context, owner);
      us := us + [u];
    }
  }

  lemma FitsIfForced(e: Entrant, states: States, r: Option<Forced>)
    requires IsBestFit(states, e, r)
    ensures r.Some? ==> e.fits != {} && r.value.slot in e.fits
  {
  }

  lemma TableNotEmpty(players: seq<Entrant>, states: States)
    requires Exact(players, states)
    ensures states != map[]
  {
    var none: Assignment := seq(|players|, i => None);
    assert Legal(players, none);
    assert Filled(none) in states;
  }

  /** A candidate who cannot start anywhere cannot start in a direct slot. */
  lemma DirectNoneToo(candidate: LineupPlayer, context: Context, rd: Option<Forced>)
    requires context.directSlots == DirectSlots(context.slots)
    requires AsEntrant(candidate, context.slots).fits == {}
    requires IsBestFit(context.directStates, AsEntrant(candidate, context.directSlots), rd)
    ensures rd.None?
  {
    forall i | 0 <= i < |context.slots| ensures !CanStart(candidate, context.slots[i]) {
      assert i !in AsEntrant(candidate, context.slots).fits;
    }
    DirectFitsAnywhere(candidate, context.slots);
  }

  /** The best lineup after signing, told by the fast query. */
  lemma AfterSigning(players: seq<Entrant>, e: Entrant, states: States, r: Option<Forced>, f: nat, p: real)
    returns (f': nat, p': real)
    requires Exact(players, states) && IsBestFit(states, e, r) && IsBest(states, f, p)
    ensures BestOf(players, f, p) && BestOf(players + [e], f', p')
    ensures r.None? ==> e.fits == {} && f' == f && p' == p
    ensures r.Some? ==> f' == r.value.filled && Gain(p', p) == Gain(r.value.points, p)
  {
    BestStateIsBest(players, states, f, p);
    FastQueryIsExact(players, e, states, r, f, p);
    if r.None? {
      NoFitNoChange(players, e, states, f, p);
      f', p' := f, p;
    } else {
      var mask :| Fit(states, e, mask, r.value.slot);
      ForcingKeepsFill(players, e, states, r, f, p);
      var wins := LexBelow(f, p, r.value.filled, r.value.points);
      f', p' := r.value.filled, if wins then r.value.points else p;
    }
  }
}
