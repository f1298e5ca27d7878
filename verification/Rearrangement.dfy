/** The rearrangement inequality: pairing two lists in the same order gives the largest sum of products. */
module Rearrangement {
  import opened Flow
  import opened Sequences

  /** The sum of weights times values, position by position. */
  function Dot(ps: seq<real>, ws: seq<int>): real
    requires |ps| == |ws|
  {
    if |ps| == 0 then 0.0
    else Dot(ps[..|ps| - 1], ws[..|ws| - 1]) + Times(ws[|ws| - 1], ps[|ps| - 1])
  }

  ghost predicate Ascending(ps: seq<real>) {
    forall i, j :: 0 <= i < j < |ps| ==> ps[i] <= ps[j]
  }

  ghost predicate AscendingInts(ws: seq<int>) {
    forall i, j :: 0 <= i < j < |ws| ==> ws[i] <= ws[j]
  }

  lemma {:induction false} DotWithout(ps: seq<real>, ws: seq<int>, i: nat)
    requires i < |ps| == |ws|
    ensures Dot(ps, ws) == Dot(Without(ps, i), Without(ws, i)) + Times(ws[i], ps[i])
  {
    hide Times;
    var n := |ps| - 1;
    if i == n {
      assert Without(ps, i) == ps[..n] && Without(ws, i) == ws[..n];
    } else {
      DotWithout(ps[..n], ws[..n], i);
      assert Without(ps, i)[..n - 1] == Without(ps[..n], i);
      assert Without(ws, i)[..n - 1] == Without(ws[..n], i);
    }
  }

  /** Moving the larger weight to the larger value loses nothing. */
  lemma Exchange(p: real, q: real, v: int, w: int)
    requires q <= p && v <= w
    ensures Times(v, p) + Times(w, q) <= Times(w, p) + Times(v, q)
  {
    hide Times;
    assert v + (w - v) == w;
    TimesAdd(v, w - v, p);
    TimesAdd(v, w - v, q);
    TimesSum(w - v, p, q);
    TimesSign(w - v, p - q);
  }

  lemma {:induction false} DotUpdate(ps: seq<real>, ws: seq<int>, i: nat, w: int)
    requires i < |ps| == |ws|
    ensures Dot(ps, ws[i := w]) == Dot(ps, ws) - Times(ws[i], ps[i]) + Times(w, ps[i])
  {
    DotWithout(ps, ws, i);
    DotWithout(ps, ws[i := w], i);
    assert Without(ws[i := w], i) == Without(ws, i);
  }

  lemma SwapWeights(ps: seq<real>, ws: seq<int>, i: nat, j: nat)
    requires i < |ps| == |ws| && j < |ws| && ps[j] <= ps[i] && ws[i] <= ws[j]
    ensures Dot(ps, ws) <= Dot(ps, ws[i := ws[j]][j := ws[i]])
    ensures multiset(ws[i := ws[j]][j := ws[i]]) == multiset(ws)
  {
    DotUpdate(ps, ws, i, ws[j]);
    DotUpdate(ps, ws[i := ws[j]], j, ws[i]);
    Exchange(ps[i], ps[j], ws[i], ws[j]);
  }

  /** Any pairing of the same values with the same weights is worth no more than the sorted one. */
  lemma {:induction false} SortedPairingIsBest(xs: seq<real>, ys: seq<int>, ps: seq<real>, ws: seq<int>)
    requires Ascending(xs) && AscendingInts(ys) && |xs| == |ys|
    requires multiset(ps) == multiset(xs) && multiset(ws) == multiset(ys)
    ensures |ps| == |ws| == |xs|
    ensures Dot(ps, ws) <= Dot(xs, ys)
  {
    hide Ascending, AscendingInts, Times;
    SameSize(ps, xs);
    SameSize(ws, ys);
    if |xs| != 0 {
      var n := |xs| - 1;
      var i := Position(xs, ps, xs[n]);
      var better := TopTogether(xs, ys, ps, ws, i);
      WithoutLast(ps, xs, i);
      WithoutLast(better, ys, i);
      AscendingFront(xs, ys);
      SortedPairingIsBest(xs[..n], ys[..n], Without(ps, i), Without(better, i));
      DotWithout(ps, better, i);
    }
  }

  lemma AscendingFront(xs: seq<real>, ys: seq<int>)
    requires Ascending(xs) && AscendingInts(ys) && |xs| == |ys| > 0
    ensures Ascending(xs[..|xs| - 1]) && AscendingInts(ys[..|ys| - 1])
  {
  }

  /** Swapping brings the largest weight to the largest value and loses nothing. */
  lemma TopTogether(xs: seq<real>, ys: seq<int>, ps: seq<real>, ws: seq<int>, i: nat) returns (better: seq<int>)
    requires Ascending(xs) && AscendingInts(ys) && |xs| == |ys| == |ps| == |ws| && |xs| > 0
    requires multiset(ps) == multiset(xs) && multiset(ws) == multiset(ys)
    requires i < |ps| && ps[i] == xs[|xs| - 1]
    ensures |better| == |ws| && multiset(better) == multiset(ys) && better[i] == ys[|ys| - 1]
    ensures Dot(ps, ws) <= Dot(ps, better)
  {
    hide Dot;
    var n := |xs| - 1;
    var j := Position(ys, ws, ys[n]);
    var a := Position(ps, xs, ps[j]);
    var b := Position(ws, ys, ws[i]);
    better := ws[i := ws[j]][j := ws[i]];
    SwapWeights(ps, ws, i, j);
  }

  lemma TimesRaises(w: int, q: real, p: real)
    requires w >= 0 && q <= p
    ensures Times(w, q) <= Times(w, p)
  {
    TimesSum(w, p, q);
    TimesSign(w, p - q);
  }

  /** Products that are larger position by position sum to more. */
  lemma {:induction false} DotBelow(qs: seq<real>, vs: seq<int>, ps: seq<real>, ws: seq<int>)
    requires |qs| == |vs| == |ps| == |ws|
    requires forall i :: 0 <= i < |ws| ==> Times(vs[i], qs[i]) <= Times(ws[i], ps[i])
    ensures Dot(qs, vs) <= Dot(ps, ws)
  {
    hide Times;
    if |ps| != 0 {
      var n := |ps| - 1;
      DotBelow(qs[..n], vs[..n], ps[..n], ws[..n]);
    }
  }
}
