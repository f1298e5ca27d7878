/**
  Replacement baselines: the league's starters are consumed greedily, direct slots first,
  then flexible slots from the narrowest; the best row left at a position is its baseline.
*/
module Replacement {
  import opened Sequences
  import opened Sorting
  import opened Wrappers
  import opened Sets

  datatype Row = Row(id: int, athleteId: int, position: string, points: real)

  /** A starter slot name with how often a roster lists it. */
  datatype StarterSlot = StarterSlot(positions: set<string>, flexible: bool, count: nat)

  // ---------------------------------------------------------------- stable sorting and filtering

  /** More points first, then the smaller athlete number. */
  predicate Ahead(a: Row, b: Row) {
    a.points > b.points || (a.points == b.points && a.athleteId < b.athleteId)
  }

  function SortRows(s: seq<Row>): (r: seq<Row>)
    ensures |r| == |s| && multiset(r) == multiset(s)
  {
    SortBy(s, Ahead)
  }

  ghost predicate Ranked(s: seq<Row>) {
    forall i, j :: 0 <= i < j < |s| ==> !Ahead(s[j], s[i])
  }

  lemma SortMembers(s: seq<Row>, x: Row)
    ensures x in SortRows(s) <==> x in s
  {
    hide SortRows;
    assert x in multiset(SortRows(s)) <==> x in multiset(s);
  }

  lemma SortIsRanked(s: seq<Row>)
    ensures Ranked(SortRows(s))
  {
    var places := SortIsSorted(s, Ahead);
    var r := SortRows(s);
    forall i, j | 0 <= i < j < |r| ensures !Ahead(r[j], r[i]) {
      assert InTurn(r, places, i, j, Ahead);
    }
  }

  // ---------------------------------------------------------------- consumption

  ghost predicate DistinctIds(rows: seq<Row>) {
    forall i, j :: 0 <= i < j < |rows| ==> rows[i].id != rows[j].id
  }

  function At(position: string): Row -> bool {
    (r: Row) => r.position == position
  }

  /** The rows of a position, best first. */
  function ByPosition(rows: seq<Row>, position: string): seq<Row> {
    SortRows(Keep(rows, At(position)))
  }

  function Open(positions: set<string>, consumed: set<int>): Row -> bool {
    (r: Row) => r.position in positions && r.id !in consumed
  }

  /** The unconsumed rows a flexible slot may draw on, best first. */
  function FlexPool(rows: seq<Row>, positions: set<string>, consumed: set<int>): seq<Row> {
    SortRows(Keep(rows, Open(positions, consumed)))
  }

  function Ids(s: seq<Row>): set<int> {
    set r | r in s :: r.id
  }

  function Take(s: seq<Row>, n: nat): seq<Row> {
    if n <= |s| then s[..n] else s
  }

  /** At every position the consumed rows are the first ones of its order. */
  ghost predicate PrefixConsumed(rows: seq<Row>, consumed: set<int>) {
    forall position :: IsPrefix(ByPosition(rows, position), consumed)
  }

  ghost predicate IsPrefix(s: seq<Row>, consumed: set<int>) {
    exists k :: ConsumesFirst(s, consumed, k)
  }

  ghost predicate ConsumesFirst(s: seq<Row>, consumed: set<int>, k: int) {
    0 <= k <= |s| && forall i :: 0 <= i < |s| ==> (s[i].id in consumed <==> i < k)
  }

  lemma PositionMembers(rows: seq<Row>, position: string, r: Row)
    ensures r in ByPosition(rows, position) <==> r in rows && r.position == position
  {
    SortMembers(Keep(rows, At(position)), r);
  }

  lemma SortDistinct(s: seq<Row>)
    requires DistinctIds(s)
    ensures DistinctIds(SortRows(s))
  {
    var places := SortIsSorted(s, Ahead);
    var r := SortRows(s);
    forall i, j | 0 <= i < j < |r| ensures r[i].id != r[j].id {
      assert InTurn(r, places, i, j, Ahead);
      var a, b := places[i], places[j];
      assert if a < b then s[a].id != s[b].id else s[b].id != s[a].id;
    }
  }

  lemma {:induction false} KeepDistinct(s: seq<Row>, f: Row -> bool)
    requires DistinctIds(s)
    ensures DistinctIds(Keep(s, f))
  {
    if |s| != 0 {
      var n := |s| - 1;
      KeepDistinct(s[..n], f);
      forall x | x in Keep(s[..n], f) ensures x.id != s[n].id {
      }
    }
  }

  /** Consuming the first rows of one position leaves prefixes everywhere. */
  lemma DirectKeepsPrefix(rows: seq<Row>, consumed: set<int>, position: string, n: nat)
    requires DistinctIds(rows) && PrefixConsumed(rows, consumed)
    ensures PrefixConsumed(rows, consumed + Ids(Take(ByPosition(rows, position), n)))
  {
    var taken := Take(ByPosition(rows, position), n);
    forall q
      ensures IsPrefix(ByPosition(rows, q), consumed + Ids(taken))
    {
      var s := ByPosition(rows, q);
      assert IsPrefix(s, consumed);
      var k :| ConsumesFirst(s, consumed, k);
      if q == position {
        KeepDistinct(rows, At(q));
        SortDistinct(Keep(rows, At(q)));
        TakeIds(s, n);
        assert ConsumesFirst(s, consumed + Ids(taken), if k < |taken| then |taken| else k);
      } else {
        forall i | 0 <= i < |s| ensures s[i].id !in Ids(taken) {
          OtherPosition(rows, q, position, n, i);
        }
        assert ConsumesFirst(s, consumed + Ids(taken), k);
      }
    }
  }

  lemma TakeIds(s: seq<Row>, n: nat)
    requires DistinctIds(s)
    ensures forall i :: 0 <= i < |s| ==> (s[i].id in Ids(Take(s, n)) <==> i < n)
  {
    forall i | 0 <= i < |s| ensures s[i].id in Ids(Take(s, n)) <==> i < n {
      if i < n {
        assert Take(s, n)[i] == s[i] && s[i] in Take(s, n);
      }
    }
  }

  lemma OtherPosition(rows: seq<Row>, q: string, position: string, n: nat, i: nat)
    requires DistinctIds(rows) && q != position && i < |ByPosition(rows, q)|
    ensures ByPosition(rows, q)[i].id !in Ids(Take(ByPosition(rows, position), n))
  {
    var x := ByPosition(rows, q)[i];
    PositionMembers(rows, q, x);
    if x.id in Ids(Take(ByPosition(rows, position), n)) {
      var r :| r in Take(ByPosition(rows, position), n) && r.id == x.id;
      PositionMembers(rows, position, r);
      SameId(rows, r, x);
    }
  }

  lemma SameId(rows: seq<Row>, a: Row, b: Row)
    requires DistinctIds(rows) && a in rows && b in rows && a.id == b.id
    ensures a == b
  {
    var i :| 0 <= i < |rows| && rows[i] == a;
    var j :| 0 <= j < |rows| && rows[j] == b;
  }

  function Left(consumed: set<int>): Row -> bool {
    (r: Row) => r.id !in consumed
  }

  /** What is left of a position whose consumed rows are its first `k`. */
  lemma {:induction false} LeftOfPrefix(s: seq<Row>, consumed: set<int>, k: nat)
    requires ConsumesFirst(s, consumed, k)
    ensures Keep(s, Left(consumed)) == s[k..]
  {
    assert s == s[..k] + s[k..];
    KeepConcat(s[..k], s[k..], Left(consumed));
    forall x | x in s[..k] ensures x.id in consumed {
      var i :| 0 <= i < k && s[i] == x;
    }
    forall x | x in s[k..] ensures x.id !in consumed {
      var i :| k <= i < |s| && s[i] == x;
    }
    KeepNone(s[..k], Left(consumed));
    KeepAll(s[k..], Left(consumed));
  }

  /** The share of one position in the flexible pool is what is left of it, in its own order. */
  lemma PoolShare(rows: seq<Row>, positions: set<string>, consumed: set<int>, q: string, k: nat)
    requires q in positions && ConsumesFirst(ByPosition(rows, q), consumed, k)
    ensures Keep(FlexPool(rows, positions, consumed), At(q)) == ByPosition(rows, q)[k..]
  {
    var both := (r: Row) => r.position == q && r.id !in consumed;
    SortKeep(Keep(rows, Open(positions, consumed)), At(q), Ahead);
    KeepTwice(rows, Open(positions, consumed), At(q), both);
    SortKeep(Keep(rows, At(q)), Left(consumed), Ahead);
    KeepTwice(rows, At(q), Left(consumed), both);
    LeftOfPrefix(ByPosition(rows, q), consumed, k);
  }

  /** The rows of a position among the first of the pool are the first that were left. */
  lemma TakenShare(rows: seq<Row>, positions: set<string>, consumed: set<int>, q: string, k: nat, n: nat)
    returns (t: nat)
    requires q in positions && ConsumesFirst(ByPosition(rows, q), consumed, k)
    ensures k + t <= |ByPosition(rows, q)|
    ensures Keep(Take(FlexPool(rows, positions, consumed), n), At(q)) == ByPosition(rows, q)[k..k + t]
  {
    hide FlexPool, ByPosition, Keep, Count;
    var pool := FlexPool(rows, positions, consumed);
    var m := if n <= |pool| then n else |pool|;
    PoolShare(rows, positions, consumed, q, k);
    assert pool == pool[..m] + pool[m..] && Take(pool, n) == pool[..m];
    KeepConcat(pool[..m], pool[m..], At(q));
    t := |Keep(pool[..m], At(q))|;
    var s := ByPosition(rows, q);
    assert s[k..] == Keep(pool[..m], At(q)) + Keep(pool[m..], At(q));
    assert s[k..][..t] == s[k..k + t];
  }

  lemma PoolMembers(rows: seq<Row>, positions: set<string>, consumed: set<int>, n: nat, r: Row)
    requires r in Take(FlexPool(rows, positions, consumed), n)
    ensures r in rows && r.position in positions && r.id !in consumed
  {
    assert r in FlexPool(rows, positions, consumed);
    SortMembers(Keep(rows, Open(positions, consumed)), r);
  }

  /** Whether the row at `i` of a position is among those a flexible slot takes. */
  lemma TakenAt(rows: seq<Row>, positions: set<string>, consumed: set<int>, q: string, k: nat, n: nat, t: nat, i: nat)
    requires DistinctIds(rows) && i < |ByPosition(rows, q)| && k + t <= |ByPosition(rows, q)|
    requires Keep(Take(FlexPool(rows, positions, consumed), n), At(q)) == ByPosition(rows, q)[k..k + t]
    ensures ByPosition(rows, q)[i].id in Ids(Take(FlexPool(rows, positions, consumed), n)) <==> k <= i < k + t
  {
    var s := ByPosition(rows, q);
    var taken := Take(FlexPool(rows, positions, consumed), n);
    var x := s[i];
    PositionMembers(rows, q, x);
    KeepDistinct(rows, At(q));
    SortDistinct(Keep(rows, At(q)));
    if x.id in Ids(taken) {
      var r :| r in taken && r.id == x.id;
      PoolMembers(rows, positions, consumed, n, r);
      SameId(rows, r, x);
      assert x in s[k..k + t];
      var j :| 0 <= j < t && s[k..k + t][j] == x;
      assert s[k + j].id == s[i].id;
    }
    if k <= i < k + t {
      assert s[k..k + t][i - k] == x;
    }
  }

  /** A flexible slot leaves prefixes everywhere. */
  lemma FlexKeepsPrefix(rows: seq<Row>, consumed: set<int>, positions: set<string>, n: nat)
    requires DistinctIds(rows) && PrefixConsumed(rows, consumed)
    ensures PrefixConsumed(rows, consumed + Ids(Take(FlexPool(rows, positions, consumed), n)))
  {
    var taken := Take(FlexPool(rows, positions, consumed), n);
    forall q
      ensures IsPrefix(ByPosition(rows, q), consumed + Ids(taken))
    {
      var s := ByPosition(rows, q);
      assert IsPrefix(s, consumed);
      var k :| ConsumesFirst(s, consumed, k);
      if q in positions {
        var t := TakenShare(rows, positions, consumed, q, k, n);
        forall i | 0 <= i < |s| ensures s[i].id in consumed + Ids(taken) <==> i < k + t {
          TakenAt(rows, positions, consumed, q, k, n, t, i);
        }
        assert ConsumesFirst(s, consumed + Ids(taken), k + t);
      } else {
        forall i | 0 <= i < |s| ensures s[i].id !in Ids(taken) {
          NotTaken(rows, positions, consumed, q, n, s[i]);
        }
        assert ConsumesFirst(s, consumed + Ids(taken), k);
      }
    }
  }

  lemma NotTaken(rows: seq<Row>, positions: set<string>, consumed: set<int>, q: string, n: nat, x: Row)
    requires DistinctIds(rows) && q !in positions && x in ByPosition(rows, q)
    ensures x.id !in Ids(Take(FlexPool(rows, positions, consumed), n))
  {
    PositionMembers(rows, q, x);
    if x.id in Ids(Take(FlexPool(rows, positions, consumed), n)) {
      var r :| r in Take(FlexPool(rows, positions, consumed), n) && r.id == x.id;
      PoolMembers(rows, positions, consumed, n, r);
      SameId(rows, r, x);
    }
  }

  // ---------------------------------------------------------------- how much is consumed

  lemma {:induction false} IdsSize(s: seq<Row>)
    ensures |Ids(s)| <= |s|
  {
    if |s| == 0 {
      assert Ids(s) == {};
    } else {
      var n := |s| - 1;
      IdsSize(s[..n]);
      assert s == s[..n] + [s[n]];
      assert Ids(s) == Ids(s[..n]) + {s[n].id};
    }
  }

  lemma ConsumingAtMost(consumed: set<int>, s: seq<Row>, n: nat)
    ensures |consumed + Ids(Take(s, n))| <= |consumed| + n
  {
    IdsSize(Take(s, n));
    var more := Ids(Take(s, n)) - consumed;
    assert consumed + Ids(Take(s, n)) == consumed + more;
    SubsetSize(more, Ids(Take(s, n)));
  }

  datatype Flexible = Flexible(positions: set<string>, demand: nat)

  function IsDirect(slot: StarterSlot): bool {
    |slot.positions| == 1 && !slot.flexible
  }

  /** Starters the league needs for a list of slots. */
  function Demand(slots: seq<StarterSlot>, teamCount: nat): nat {
    if |slots| == 0 then 0
    else
      var slot := slots[|slots| - 1];
      Demand(slots[..|slots| - 1], teamCount) + (if slot.positions == {} then 0 else slot.count * teamCount)
  }

  function FlexDemand(flexible: seq<Flexible>): nat {
    if |flexible| == 0 then 0 else FlexDemand(flexible[..|flexible| - 1]) + flexible[|flexible| - 1].demand
  }

  predicate Narrower(a: Flexible, b: Flexible) {
    |a.positions| < |b.positions|
  }

  /** Narrowest first, ties in arrival order. */
  function SortFlexible(s: seq<Flexible>): (r: seq<Flexible>)
    ensures |r| == |s| && multiset(r) == multiset(s)
  {
    SortBy(s, Narrower)
  }

  /** Flexible slots come by the number of positions they take, and those of one number as they were listed. */
  lemma SortFlexibleIsStable(s: seq<Flexible>) returns (places: seq<nat>)
    ensures |places| == |s| == |SortFlexible(s)|
    ensures forall i :: 0 <= i < |places| ==> places[i] < |s| && SortFlexible(s)[i] == s[places[i]]
    ensures forall i, j :: 0 <= i < j < |places| ==>
              && places[i] != places[j]
              && (if |s[places[i]].positions| == |s[places[j]].positions| then places[i] < places[j]
                  else |s[places[i]].positions| < |s[places[j]].positions|)
  {
    places := SortIsSorted(s, Narrower);
    var r := SortFlexible(s);
    forall i, j | 0 <= i < j < |places|
      ensures places[i] != places[j]
      ensures if |r[i].positions| == |r[j].positions| then places[i] < places[j] else |r[i].positions| < |r[j].positions|
    {
      assert InTurn(r, places, i, j, Narrower);
    }
  }

  lemma {:induction false} FlexDemandWithout(s: seq<Flexible>, k: nat)
    requires k < |s|
    ensures FlexDemand(s) == FlexDemand(Without(s, k)) + s[k].demand
  {
    var n := |s| - 1;
    if k < n {
      FlexDemandWithout(s[..n], k);
      assert Without(s, k)[..n - 1] == Without(s[..n], k);
    } else {
      assert Without(s, k) == s[..n];
    }
  }

  /** The demand does not depend on the order. */
  lemma {:induction false} FlexDemandOfOrder(s: seq<Flexible>, t: seq<Flexible>)
    requires multiset(s) == multiset(t)
    ensures FlexDemand(s) == FlexDemand(t)
  {
    SameSize(s, t);
    if |s| > 0 {
      var n := |s| - 1;
      var k := Position(s, t, s[n]);
      WithoutLast(t, s, k);
      FlexDemandOfOrder(s[..n], Without(t, k));
      FlexDemandWithout(t, k);
    }
  }

  // ---------------------------------------------------------------- the baselines

  /** The best row left of a ranked list. */
  function FirstLeft(s: seq<Row>, consumed: set<int>): Option<Row> {
    var left := Keep(s, Left(consumed));
    if left == [] then None else Some(left[0])
  }

  function BaselineOf(rows: seq<Row>, consumed: set<int>, position: string): real {
    match FirstLeft(ByPosition(rows, position), consumed)
    case None => 0.0
    case Some(r) => r.points
  }

  /** While a row remains, its baseline bounds the consumed rows from below and the others from above. */
  ghost predicate Separates(rows: seq<Row>, consumed: set<int>, position: string) {
    FirstLeft(ByPosition(rows, position), consumed).Some? ==>
      forall r :: r in rows && r.position == position ==>
        && (r.id in consumed ==> BaselineOf(rows, consumed, position) <= r.points)
        && (r.id !in consumed ==> r.points <= BaselineOf(rows, consumed, position))
  }

  lemma PrefixSeparates(rows: seq<Row>, consumed: set<int>, position: string)
    requires PrefixConsumed(rows, consumed)
    ensures Separates(rows, consumed, position)
  {
    var s := ByPosition(rows, position);
    assert IsPrefix(s, consumed);
    var k :| ConsumesFirst(s, consumed, k);
    LeftOfPrefix(s, consumed, k);
    SortIsRanked(Keep(rows, At(position)));
    if k < |s| {
      forall r | r in rows && r.position == position
        ensures r.id in consumed ==> s[k].points <= r.points
        ensures r.id !in consumed ==> r.points <= s[k].points
      {
        PositionMembers(rows, position, r);
        var i :| 0 <= i < |s| && s[i] == r;
        if i < k {
          assert !Ahead(s[k], s[i]);
        } else if k < i {
          assert !Ahead(s[i], s[k]);
        }
      }
    }
  }

  /** The most points of a row of the position that is left, and nothing when none is. */
  lemma BaselineTold(rows: seq<Row>, consumed: set<int>, position: string)
    ensures
      var b := BaselineOf(rows, consumed, position);
      if exists r :: r in rows && r.position == position && r.id !in consumed then
        && (exists q :: q in rows && q.position == position && q.id !in consumed && q.points == b)
        && (forall q :: q in rows && q.position == position && q.id !in consumed ==> q.points <= b)
      else b == 0.0
  {
    hide Count, SortRows;
    var s := ByPosition(rows, position);
    var left := Keep(s, Left(consumed));
    SortIsRanked(Keep(rows, At(position)));
    forall r: Row ensures r in left <==> r in rows && r.position == position && r.id !in consumed {
      PositionMembers(rows, position, r);
    }
    if left != [] {
      FirstIsBest(s, consumed);
    }
  }

  lemma {:induction false} FirstIsBest(s: seq<Row>, consumed: set<int>)
    requires Ranked(s) && Keep(s, Left(consumed)) != []
    ensures forall q :: q in Keep(s, Left(consumed)) ==> q.points <= Keep(s, Left(consumed))[0].points
  {
    var n := |s| - 1;
    if Keep(s[..n], Left(consumed)) != [] {
      FirstIsBest(s[..n], consumed);
      var first := Keep(s[..n], Left(consumed))[0];
      assert first in s[..n];
      var i :| 0 <= i < n && s[..n][i] == first;
      assert !Ahead(s[n], s[i]);
    }
  }

  // ---------------------------------------------------------------- who is consumed

  function OnlyOne(positions: set<string>): (position: string)
    requires |positions| == 1
    ensures positions == {position}
  {
    OneIsAll(positions);
    var position :| position in positions;
    position
  }

  lemma OneIsAll(positions: set<string>)
    requires |positions| == 1
    ensures forall p, q :: p in positions && q in positions ==> p == q
    ensures forall p :: p in positions ==> positions == {p}
  {
    forall p | p in positions ensures positions == {p} {
      assert |positions - {p}| == 0;
    }
  }

  /** The first rows of the position of a direct slot, enough for every team. */
  function Starters(rows: seq<Row>, slot: StarterSlot, teamCount: nat): set<int>
    requires IsDirect(slot)
  {
    Ids(Take(ByPosition(rows, OnlyOne(slot.positions)), slot.count * teamCount))
  }

  function DirectConsumed(rows: seq<Row>, slots: seq<StarterSlot>, teamCount: nat): set<int> {
    if |slots| == 0 then {}
    else
      var slot := slots[|slots| - 1];
      var before := DirectConsumed(rows, slots[..|slots| - 1], teamCount);
      if IsDirect(slot) then before + Starters(rows, slot, teamCount) else before
  }

  /** The other starter slots, with the rows they need. */
  function FlexibleOf(slots: seq<StarterSlot>, teamCount: nat): seq<Flexible> {
    if |slots| == 0 then []
    else
      var slot := slots[|slots| - 1];
      var before := FlexibleOf(slots[..|slots| - 1], teamCount);
      if slot.positions == {} || IsDirect(slot) then before else before + [Flexible(slot.positions, slot.count * teamCount)]
  }

  function FlexTaken(rows: seq<Row>, f: Flexible, consumed: set<int>): set<int> {
    Ids(Take(FlexPool(rows, f.positions, consumed), f.demand))
  }

  /** Each flexible slot in turn takes the best rows that are left to it. */
  function FlexConsumed(rows: seq<Row>, flexible: seq<Flexible>, direct: set<int>): set<int> {
    if |flexible| == 0 then direct
    else
      var before := FlexConsumed(rows, flexible[..|flexible| - 1], direct);
      before + FlexTaken(rows, flexible[|flexible| - 1], before)
  }

  function Consumed(rows: seq<Row>, slots: seq<StarterSlot>, teamCount: nat): set<int> {
    FlexConsumed(rows, SortFlexible(FlexibleOf(slots, teamCount)), DirectConsumed(rows, slots, teamCount))
  }

  /** Consumes the league's starters, direct slots first, and reads off the best row left at each position. */
  method ReplacementBaselines(rows: seq<Row>, slots: seq<StarterSlot>, teamCount: nat)
    returns (baselines: map<string, real>, consumed: set<int>)
    ensures consumed == Consumed(rows, slots, teamCount)
    ensures baselines == map r | r in rows :: r.position := BaselineOf(rows, consumed, r.position)
  {
    hide ByPosition, FlexPool, Ids, Take, BaselineOf, SortFlexible, OnlyOne;
    consumed := {};
    var flexible: seq<Flexible> := [];
    for i := 0 to |slots|
      invariant consumed == DirectConsumed(rows, slots[..i], teamCount)
      invariant flexible == FlexibleOf(slots[..i], teamCount)
    {
      assert slots[..i + 1][..i] == slots[..i];
      var slot := slots[i];
      if slot.positions != {} {
        var demand := slot.count * teamCount;
        if IsDirect(slot) {
          consumed := consumed + Ids(Take(ByPosition(rows, OnlyOne(slot.positions)), demand));
        } else {
          flexible := flexible + [Flexible(slot.positions, demand)];
        }
      }
    }
    assert slots[..|slots|] == slots;
    flexible := SortFlexible(flexible);
    ghost var direct := consumed;
    for i := 0 to |flexible|
      invariant consumed == FlexConsumed(rows, flexible[..i], direct)
    {
      assert flexible[..i + 1][..i] == flexible[..i];
      consumed := consumed + Ids(Take(FlexPool(rows, flexible[i].positions, consumed), flexible[i].demand));
    }
    assert flexible[..|flexible|] == flexible;
    baselines := map r | r in rows :: r.position := BaselineOf(rows, consumed, r.position);
  }

  // ---------------------------------------------------------------- what consuming keeps

  lemma NothingConsumed(rows: seq<Row>)
    ensures PrefixConsumed(rows, {})
  {
    forall q ensures IsPrefix(ByPosition(rows, q), {}) {
      assert ConsumesFirst(ByPosition(rows, q), {}, 0);
    }
  }

  lemma {:induction false} DirectIsPrefix(rows: seq<Row>, slots: seq<StarterSlot>, teamCount: nat)
    requires DistinctIds(rows)
    ensures PrefixConsumed(rows, DirectConsumed(rows, slots, teamCount))
    ensures |DirectConsumed(rows, slots, teamCount)| + FlexDemand(FlexibleOf(slots, teamCount)) <= Demand(slots, teamCount)
  {
    hide PrefixConsumed, ByPosition, Ids, Take, DistinctIds;
    if |slots| == 0 {
      NothingConsumed(rows);
    } else {
      var slot, before := slots[|slots| - 1], slots[..|slots| - 1];
      DirectIsPrefix(rows, before, teamCount);
      var more := [Flexible(slot.positions, slot.count * teamCount)];
      assert (FlexibleOf(before, teamCount) + more)[..|FlexibleOf(before, teamCount)|] == FlexibleOf(before, teamCount);
      if IsDirect(slot) {
        var position, demand := OnlyOne(slot.positions), slot.count * teamCount;
        DirectKeepsPrefix(rows, DirectConsumed(rows, before, teamCount), position, demand);
        ConsumingAtMost(DirectConsumed(rows, before, teamCount), ByPosition(rows, position), demand);
      }
    }
  }

  lemma {:induction false} FlexIsPrefix(rows: seq<Row>, flexible: seq<Flexible>, direct: set<int>)
    requires DistinctIds(rows) && PrefixConsumed(rows, direct)
    ensures PrefixConsumed(rows, FlexConsumed(rows, flexible, direct))
    ensures |FlexConsumed(rows, flexible, direct)| <= |direct| + FlexDemand(flexible)
  {
    hide PrefixConsumed, FlexPool, Ids, Take, DistinctIds;
    if |flexible| > 0 {
      var f, front := flexible[|flexible| - 1], flexible[..|flexible| - 1];
      FlexIsPrefix(rows, front, direct);
      var before := FlexConsumed(rows, front, direct);
      FlexKeepsPrefix(rows, before, f.positions, f.demand);
      ConsumingAtMost(before, FlexPool(rows, f.positions, before), f.demand);
    }
  }

  /**
    Consumed rows are a prefix of every position's order, so that a baseline lies between the consumed
    rows and the others, and no more rows are consumed than the league starts.
  */
  lemma ConsumedIsPrefix(rows: seq<Row>, slots: seq<StarterSlot>, teamCount: nat)
    requires DistinctIds(rows)
    ensures
      var consumed := Consumed(rows, slots, teamCount);
      && PrefixConsumed(rows, consumed)
      && (forall position :: Separates(rows, consumed, position))
      && |consumed| <= Demand(slots, teamCount)
  {
    hide PrefixConsumed, FlexConsumed, DirectConsumed, DistinctIds, Separates, SortFlexible, FlexDemand, Demand;
    DirectIsPrefix(rows, slots, teamCount);
    var flexible := FlexibleOf(slots, teamCount);
    FlexIsPrefix(rows, SortFlexible(flexible), DirectConsumed(rows, slots, teamCount));
    FlexDemandOfOrder(SortFlexible(flexible), flexible);
    forall position ensures Separates(rows, Consumed(rows, slots, teamCount), position) {
      PrefixSeparates(rows, Consumed(rows, slots, teamCount), position);
    }
  }

  lemma {:induction false} DirectGrows(rows: seq<Row>, slots: seq<StarterSlot>, teamCount: nat, i: nat)
    requires i < |slots| && IsDirect(slots[i])
    ensures Starters(rows, slots[i], teamCount) <= DirectConsumed(rows, slots, teamCount)
  {
    hide Starters;
    if i < |slots| - 1 {
      DirectGrows(rows, slots[..|slots| - 1], teamCount, i);
    }
  }

  lemma {:induction false} FlexGrows(rows: seq<Row>, flexible: seq<Flexible>, direct: set<int>)
    ensures direct <= FlexConsumed(rows, flexible, direct)
  {
    hide FlexTaken;
    if |flexible| > 0 {
      FlexGrows(rows, flexible[..|flexible| - 1], direct);
    }
  }

  /** Every direct starter is consumed: the first rows of his position, one for each team and slot. */
  lemma StartersAreConsumed(rows: seq<Row>, slots: seq<StarterSlot>, teamCount: nat, i: nat)
    requires i < |slots| && IsDirect(slots[i])
    ensures Starters(rows, slots[i], teamCount) <= Consumed(rows, slots, teamCount)
  {
    hide Starters, DirectConsumed, FlexConsumed;
    DirectGrows(rows, slots, teamCount, i);
    FlexGrows(rows, SortFlexible(FlexibleOf(slots, teamCount)), DirectConsumed(rows, slots, teamCount));
  }

  lemma {:induction false} IdsExact(s: seq<Row>)
    requires DistinctIds(s)
    ensures |Ids(s)| == |s|
  {
    if |s| == 0 {
      assert Ids(s) == {};
    } else {
      var n := |s| - 1;
      IdsExact(s[..n]);
      assert s == s[..n] + [s[n]];
      assert Ids(s) == Ids(s[..n]) + {s[n].id};
      forall r | r in s[..n] ensures r.id != s[n].id {
        var k :| 0 <= k < n && s[k] == r;
      }
    }
  }

  /** A flexible slot takes as many new rows as it needs, or all that are left to it. */
  lemma FlexTakesItsDemand(rows: seq<Row>, f: Flexible, consumed: set<int>)
    requires DistinctIds(rows)
    ensures
      var pool := FlexPool(rows, f.positions, consumed);
      |consumed + FlexTaken(rows, f, consumed)| == |consumed| + (if f.demand <= |pool| then f.demand else |pool|)
  {
    var pool := FlexPool(rows, f.positions, consumed);
    var taken := Take(pool, f.demand);
    KeepDistinct(rows, Open(f.positions, consumed));
    SortDistinct(Keep(rows, Open(f.positions, consumed)));
    IdsExact(taken);
    forall r | r in taken ensures r.id !in consumed {
      PoolMembers(rows, f.positions, consumed, f.demand, r);
    }
    assert |consumed + Ids(taken)| == |consumed| + |Ids(taken)|;
  }
}
