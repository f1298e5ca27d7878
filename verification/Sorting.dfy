/** Stable insertion sort: the order it leaves, and where each element comes from. */
module Sorting {
  import opened Sequences

  /** After everything that `x` is not ahead of. */
  function Insert<T>(s: seq<T>, x: T, ahead: (T, T) -> bool): (r: seq<T>)
    ensures |r| == |s| + 1
  {
    if |s| == 0 || !ahead(x, s[|s| - 1]) then s + [x]
    else Insert(s[..|s| - 1], x, ahead) + [s[|s| - 1]]
  }

  lemma {:induction false} InsertElements<T>(s: seq<T>, x: T, ahead: (T, T) -> bool)
    ensures multiset(Insert(s, x, ahead)) == multiset(s) + multiset{x}
  {
    if |s| > 0 && ahead(x, s[|s| - 1]) {
      InsertElements(s[..|s| - 1], x, ahead);
      assert s == s[..|s| - 1] + [s[|s| - 1]];
    }
  }

  function SortBy<T>(s: seq<T>, ahead: (T, T) -> bool): (r: seq<T>)
    ensures |r| == |s| && multiset(r) == multiset(s)
  {
    if |s| == 0 then []
    else
      var front, x := s[..|s| - 1], s[|s| - 1];
      InsertElements(SortBy(front, ahead), x, ahead);
      assert s == front + [x];
      Insert(SortBy(front, ahead), x, ahead)
  }

  /** A strict order in which elements may be level. */
  ghost predicate IsOrder<T(!new)>(ahead: (T, T) -> bool) {
    && (forall x, y :: ahead(x, y) ==> !ahead(y, x))
    && forall x, y, z :: ahead(x, z) ==> ahead(x, y) || ahead(y, z)
  }

  /**
    `r` lists the elements of `s` taken at the positions `places`: each position once, nothing behind what it
    is ahead of, and level elements as they were.
  */
  ghost predicate IsSorted<T>(s: seq<T>, r: seq<T>, places: seq<nat>, ahead: (T, T) -> bool) {
    && |places| == |r| == |s|
    && (forall i :: 0 <= i < |r| ==> places[i] < |s| && r[i] == s[places[i]])
    && forall i, j :: 0 <= i < j < |r| ==> InTurn(r, places, i, j, ahead)
  }

  ghost predicate InTurn<T>(r: seq<T>, places: seq<nat>, i: nat, j: nat, ahead: (T, T) -> bool)
    requires |places| == |r| && i < |r| && j < |r|
  {
    places[i] != places[j] && (ahead(r[i], r[j]) || (!ahead(r[j], r[i]) && places[i] < places[j]))
  }

  lemma {:induction false} InsertPlace<T(!new)>(s: seq<T>, x: T, ahead: (T, T) -> bool) returns (low: seq<T>, high: seq<T>)
    ensures s == low + high && Insert(s, x, ahead) == low + [x] + high
    ensures low != [] ==> !ahead(x, low[|low| - 1])
    ensures forall i :: 0 <= i < |high| ==> ahead(x, high[i])
  {
    low, high := s, [];
    if |s| > 0 && ahead(x, s[|s| - 1]) {
      var front, last := s[..|s| - 1], s[|s| - 1];
      low, high := InsertPlace(front, x, ahead);
      assert s == front + [last] == low + (high + [last]);
      assert Insert(s, x, ahead) == (low + [x] + high) + [last] == low + [x] + (high + [last]);
      high := high + [last];
    }
  }

  lemma {:induction false} SortIsSorted<T(!new)>(s: seq<T>, ahead: (T, T) -> bool) returns (places: seq<nat>)
    requires IsOrder(ahead)
    ensures IsSorted(s, SortBy(s, ahead), places, ahead)
  {
    hide IsOrder, Insert;
    places := [];
    if |s| == 0 {
      assert IsSorted(s, [], places, ahead);
    } else {
      hide IsSorted;
      var front, x := s[..|s| - 1], s[|s| - 1];
      var before := SortIsSorted(front, ahead);
      var low, high := InsertPlace(SortBy(front, ahead), x, ahead);
      places := InsertIsSorted(s, low, high, before, ahead);
    }
  }

  lemma BehindThePrevious<T(!new)>(x: T, y: T, z: T, ahead: (T, T) -> bool)
    requires IsOrder(ahead) && !ahead(x, y) && (ahead(z, y) || !ahead(y, z))
    ensures !ahead(x, z)
  {
  }

  lemma NotAheadOfLow<T(!new)>(x: T, low: seq<T>, high: seq<T>, places: seq<nat>, s: seq<T>, ahead: (T, T) -> bool)
    requires IsOrder(ahead) && IsSorted(s, low + high, places, ahead) && (low != [] ==> !ahead(x, low[|low| - 1]))
    ensures forall i :: 0 <= i < |low| ==> !ahead(x, low[i])
  {
    hide IsOrder;
    var r, k := low + high, |low|;
    forall i | 0 <= i < k ensures !ahead(x, low[i]) {
      if i < k - 1 {
        assert InTurn(r, places, i, k - 1, ahead);
        BehindThePrevious(x, r[k - 1], r[i], ahead);
      }
    }
  }

  lemma InsertIsSorted<T(!new)>(s: seq<T>, low: seq<T>, high: seq<T>, places: seq<nat>, ahead: (T, T) -> bool)
    returns (more: seq<nat>)
    requires IsOrder(ahead) && |s| > 0 && IsSorted(s[..|s| - 1], low + high, places, ahead)
    requires (low != [] ==> !ahead(s[|s| - 1], low[|low| - 1])) && forall i :: 0 <= i < |high| ==> ahead(s[|s| - 1], high[i])
    ensures IsSorted(s, low + [s[|s| - 1]] + high, more, ahead)
  {
    hide IsOrder, Insert;
    var n, k := |s| - 1, |low|;
    var r, t := low + high, low + [s[n]] + high;
    more := places[..k] + [n] + places[k..];
    NotAheadOfLow(s[n], low, high, places, s[..n], ahead);
    forall i, j | 0 <= i < j < |t| ensures InTurn(t, more, i, j, ahead) {
      if j < k {
        assert InTurn(r, places, i, j, ahead);
      } else if i < k < j {
        assert InTurn(r, places, i, j - 1, ahead);
      } else if k < i {
        assert InTurn(r, places, i - 1, j - 1, ahead);
      }
    }
  }

  /** What is in order stays as it is. */
  lemma {:induction false} SortedStays<T>(s: seq<T>, ahead: (T, T) -> bool)
    requires forall i, j :: 0 <= i < j < |s| ==> !ahead(s[j], s[i])
    ensures SortBy(s, ahead) == s
  {
    if |s| > 0 {
      var front := s[..|s| - 1];
      SortedStays(front, ahead);
      assert s == front + [s[|s| - 1]];
      assert front != [] ==> !ahead(s[|s| - 1], front[|front| - 1]);
    }
  }

  // ---------------------------------------------------------------- sorting and filtering

  lemma {:induction false} InsertBetween<T>(low: seq<T>, high: seq<T>, x: T, ahead: (T, T) -> bool)
    requires low != [] ==> !ahead(x, low[|low| - 1])
    requires forall i :: 0 <= i < |high| ==> ahead(x, high[i])
    ensures Insert(low + high, x, ahead) == low + [x] + high
  {
    if |high| == 0 {
      assert low + high == low && low + [x] + high == low + [x];
    } else {
      var front, last := high[..|high| - 1], high[|high| - 1];
      InsertBetween(low, front, x, ahead);
      assert (low + high)[..|low + high| - 1] == low + front;
      assert low + [x] + front + [last] == low + [x] + high;
    }
  }

  lemma KeepThree<T(!new)>(low: seq<T>, x: T, high: seq<T>, f: T -> bool)
    ensures Keep(low + high, f) == Keep(low, f) + Keep(high, f)
    ensures f(x) ==> Keep(low + [x] + high, f) == Keep(low, f) + [x] + Keep(high, f)
    ensures !f(x) ==> Keep(low + [x] + high, f) == Keep(low + high, f)
  {
    hide Keep, Count;
    KeepConcat(low, high, f);
    KeepConcat(low + [x], high, f);
    KeepSnoc(low, x, f);
    assert Keep(low, f) + [] == Keep(low, f);
  }

  /** A stable sort commutes with filtering. */
  lemma {:induction false} SortKeep<T(!new)>(s: seq<T>, f: T -> bool, ahead: (T, T) -> bool)
    requires IsOrder(ahead)
    ensures SortBy(Keep(s, f), ahead) == Keep(SortBy(s, ahead), f)
  {
    hide IsOrder, Insert, IsSorted, Keep, Count;
    if |s| == 0 {
      KeepNone(s, f);
      KeepNone(SortBy(s, ahead), f);
    } else {
      var front, x := s[..|s| - 1], s[|s| - 1];
      SortKeep(front, f, ahead);
      var places := SortIsSorted(front, ahead);
      var low, high := InsertPlace(SortBy(front, ahead), x, ahead);
      NotAheadOfLow(x, low, high, places, front, ahead);
      assert s == front + [x];
      SortKeepOneMore(front, x, low, high, f, ahead);
    }
  }

  lemma SortKeepOneMore<T(!new)>(front: seq<T>, x: T, low: seq<T>, high: seq<T>, f: T -> bool, ahead: (T, T) -> bool)
    requires SortBy(Keep(front, f), ahead) == Keep(low + high, f)
    requires forall i :: 0 <= i < |low| ==> !ahead(x, low[i])
    requires forall i :: 0 <= i < |high| ==> ahead(x, high[i])
    ensures SortBy(Keep(front + [x], f), ahead) == Keep(low + [x] + high, f)
  {
    hide SortBy, Insert, Keep, Count;
    KeepThree(low, x, high, f);
    KeepSnoc(front, x, f);
    if !f(x) {
      assert Keep(front, f) + [] == Keep(front, f);
    } else {
      InsertKept(low, high, x, f, ahead);
      SortSnoc(Keep(front, f), x, ahead);
    }
  }

  lemma SortSnoc<T>(s: seq<T>, x: T, ahead: (T, T) -> bool)
    ensures SortBy(s + [x], ahead) == Insert(SortBy(s, ahead), x, ahead)
  {
    assert (s + [x])[..|s|] == s;
  }

  lemma InsertKept<T(!new)>(low: seq<T>, high: seq<T>, x: T, f: T -> bool, ahead: (T, T) -> bool)
    requires forall i :: 0 <= i < |low| ==> !ahead(x, low[i])
    requires forall i :: 0 <= i < |high| ==> ahead(x, high[i])
    ensures Insert(Keep(low, f) + Keep(high, f), x, ahead) == Keep(low, f) + [x] + Keep(high, f)
  {
    hide Insert, Count;
    var l, h := Keep(low, f), Keep(high, f);
    if l != [] {
      assert l[|l| - 1] in low;
    }
    forall i | 0 <= i < |h| ensures ahead(x, h[i]) {
      assert h[i] in high;
    }
    InsertBetween(l, h, x, ahead);
  }
}
