/**
  Lineups as matchings: each player starts in at most one of the slots open to him, each
  slot takes at most one player. Both lineup optimisers are judged against this.
*/
module Matching {
  import opened Wrappers

  /** A player as a lineup sees him: the slots he may start in and his projected points. */
  datatype Entrant = Entrant(fits: set<nat>, points: real)

  /** For each player the slot he starts in, if any. */
  type Assignment = seq<Option<nat>>

  ghost predicate Legal(players: seq<Entrant>, a: Assignment) {
    && |a| == |players|
    && (forall p :: 0 <= p < |a| && a[p].Some? ==> a[p].value in players[p].fits)
    && (forall p, q :: 0 <= p < q < |a| && a[p].Some? ==> a[p] != a[q])
  }

  function Filled(a: Assignment): set<nat> {
    if |a| == 0 then {}
    else Filled(a[..|a| - 1]) + (if a[|a| - 1].Some? then {a[|a| - 1].value} else {})
  }

  function Total(players: seq<Entrant>, a: Assignment): real
    requires |a| == |players|
  {
    if |a| == 0 then 0.0
    else
      var n := |a| - 1;
      Total(players[..n], a[..n]) + (if a[n].Some? then players[n].points else 0.0)
  }

  lemma {:induction false} FilledHas(a: Assignment, s: nat)
    ensures s in Filled(a) <==> exists p :: 0 <= p < |a| && a[p] == Some(s)
  {
    if |a| != 0 {
      var n := |a| - 1;
      FilledHas(a[..n], s);
      if p :| 0 <= p < |a[..n]| && a[..n][p] == Some(s) {
        assert a[p] == Some(s);
      }
      if p :| 0 <= p < |a| && a[p] == Some(s) {
        if p < n {
          assert a[..n][p] == Some(s);
        }
      }
    }
  }

  /** Dropping the last player keeps a legal assignment legal, and frees the slot he held. */
  lemma LegalFront(players: seq<Entrant>, a: Assignment)
    requires Legal(players, a) && |a| > 0
    ensures var n := |a| - 1;
            && Legal(players[..n], a[..n])
            && (a[n].Some? ==> a[n].value !in Filled(a[..n]) && a[n].value in players[n].fits)
  {
    var n := |a| - 1;
    if a[n].Some? {
      FilledHas(a[..n], a[n].value);
    }
  }

  /** Adding a player, in a free slot or on the bench. */
  lemma LegalSnoc(players: seq<Entrant>, a: Assignment, c: Entrant, slot: Option<nat>)
    requires Legal(players, a)
    requires slot.Some? ==> slot.value in c.fits && slot.value !in Filled(a)
    ensures Legal(players + [c], a + [slot])
    ensures Filled(a + [slot]) == Filled(a) + (if slot.Some? then {slot.value} else {})
    ensures Total(players + [c], a + [slot]) == Total(players, a) + (if slot.Some? then c.points else 0.0)
  {
    var b := a + [slot];
    assert b[..|a|] == a && (players + [c])[..|a|] == players;
    if slot.Some? {
      FilledHas(a, slot.value);
    }
  }

  /** Whom a legal assignment puts in a slot. */
  lemma StarterOf(players: seq<Entrant>, a: Assignment, s: nat) returns (p: nat)
    requires Legal(players, a) && s in Filled(a)
    ensures p < |a| && a[p] == Some(s)
  {
    FilledHas(a, s);
    p :| 0 <= p < |a| && a[p] == Some(s);
  }

  lemma {:induction false} UpdateTotal(players: seq<Entrant>, a: Assignment, p: nat, slot: Option<nat>)
    requires |a| == |players| && p < |a|
    ensures Total(players, a[p := slot]) == Total(players, a)
              - (if a[p].Some? then players[p].points else 0.0) + (if slot.Some? then players[p].points else 0.0)
  {
    var n := |a| - 1;
    var b := a[p := slot];
    if p == n {
      assert b[..n] == a[..n];
    } else {
      UpdateTotal(players[..n], a[..n], p, slot);
      assert b[..n] == a[..n][p := slot];
    }
  }

  /** Benching a starter frees his slot and no other. */
  lemma BenchStarter(players: seq<Entrant>, a: Assignment, p: nat)
    requires Legal(players, a) && p < |a| && a[p].Some?
    ensures Legal(players, a[p := None]) && Total(players, a) == players[p].points + Total(players, a[p := None])
    ensures Filled(a[p := None]) == Filled(a) - {a[p].value}
  {
    var b := a[p := None];
    UpdateTotal(players, a, p, None);
    forall t: nat
      ensures t in Filled(b) <==> t in Filled(a) - {a[p].value}
    {
      FilledHas(a, t);
      FilledHas(b, t);
      if t in Filled(a) && t != a[p].value {
        var q :| 0 <= q < |a| && a[q] == Some(t);
        assert b[q] == Some(t);
      }
      if t in Filled(b) {
        var q :| 0 <= q < |b| && b[q] == Some(t);
        assert a[q] == Some(t);
      }
    }
  }

  /** Moving a benched player into a free slot he fits. */
  lemma Start(players: seq<Entrant>, a: Assignment, p: nat, s: nat)
    requires Legal(players, a) && p < |a| && a[p].None? && s in players[p].fits && s !in Filled(a)
    ensures Legal(players, a[p := Some(s)]) && Filled(a[p := Some(s)]) == Filled(a) + {s}
    ensures Total(players, a[p := Some(s)]) == Total(players, a) + players[p].points
  {
    var b := a[p := Some(s)];
    FilledHas(a, s);
    UpdateTotal(players, a, p, Some(s));
    forall t: nat
      ensures t in Filled(b) <==> t in Filled(a) + {s}
    {
      FilledHas(a, t);
      FilledHas(b, t);
      if t in Filled(a) {
        var q :| 0 <= q < |a| && a[q] == Some(t);
        assert b[q] == Some(t);
      }
      if t in Filled(b) && t != s {
        var q :| 0 <= q < |b| && b[q] == Some(t);
        assert a[q] == Some(t);
      }
      if t == s {
        assert b[p] == Some(t);
      }
    }
  }

  // ---------------------------------------------------------------- exact state tables

  /** Best points by the set of slots that are filled. */
  type States = map<set<nat>, real>

  /** Some legal assignment fills exactly `mask` for `points`. */
  ghost predicate Achieved(players: seq<Entrant>, mask: set<nat>, points: real) {
    exists a :: Legal(players, a) && Filled(a) == mask && Total(players, a) == points
  }

  /** The table has exactly the coverable slot sets, each with its maximum. */
  ghost predicate Exact(players: seq<Entrant>, states: States) {
    && (forall mask :: mask in states ==> Achieved(players, mask, states[mask]))
    && (forall a :: Legal(players, a) ==> Filled(a) in states && Total(players, a) <= states[Filled(a)])
  }

  lemma ExactIsUnique(players: seq<Entrant>, s: States, t: States)
    requires Exact(players, s) && Exact(players, t)
    ensures s == t
  {
    forall mask | mask in s ensures mask in t && s[mask] <= t[mask] {
      assert Achieved(players, mask, s[mask]);
    }
    forall mask | mask in t ensures mask in s && t[mask] <= s[mask] {
      assert Achieved(players, mask, t[mask]);
    }
  }

  lemma ExactEmpty()
    ensures Exact([], map[{} := 0.0])
  {
    var none: Assignment := [];
    assert Legal([], none) && Filled(none) == {} && Total([], none) == 0.0;
    forall a: Assignment | Legal([], a) ensures a == none {}
  }

  /** One more player can only help: no slot set is lost and none gets worse. */
  lemma MorePlayersNeverHurt(players: seq<Entrant>, c: Entrant, s: States, t: States)
    requires Exact(players, s) && Exact(players + [c], t)
    ensures forall mask :: mask in s ==> mask in t && s[mask] <= t[mask]
  {
    forall mask | mask in s ensures mask in t && s[mask] <= t[mask] {
      assert Achieved(players, mask, s[mask]);
      var a :| Legal(players, a) && Filled(a) == mask && Total(players, a) == s[mask];
      LegalSnoc(players, a, c, None);
      assert Filled(a + [None]) == mask;
    }
  }
}
