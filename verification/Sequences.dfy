/** Counting and filtering. */
module Sequences {
  /** How many elements satisfy `f`. */
  function Count<T>(s: seq<T>, f: T -> bool): nat {
    if |s| == 0 then 0
    else Count(s[..|s| - 1], f) + (if f(s[|s| - 1]) then 1 else 0)
  }

  /** The elements that satisfy `f`, in order. */
  function Keep<T(!new)>(s: seq<T>, f: T -> bool): (r: seq<T>)
    ensures |r| == Count(s, f) && forall x :: x in r <==> x in s && f(x)
  {
    if |s| == 0 then []
    else
      var x := s[|s| - 1];
      Keep(s[..|s| - 1], f) + (if f(x) then [x] else [])
  }

  lemma {:induction false} CountTwice<T>(s: seq<T>, f: T -> bool, i: nat, j: nat)
    requires i < j < |s| && f(s[i]) && f(s[j])
    ensures Count(s, f) >= 2
  {
    if j < |s| - 1 {
      CountTwice(s[..|s| - 1], f, i, j);
    } else {
      CountOnce(s[..|s| - 1], f, i);
    }
  }

  lemma {:induction false} CountOnce<T>(s: seq<T>, f: T -> bool, i: nat)
    requires i < |s| && f(s[i])
    ensures Count(s, f) >= 1
  {
    if i < |s| - 1 {
      CountOnce(s[..|s| - 1], f, i);
    }
  }

  lemma {:induction false} CountConcat<T>(s: seq<T>, t: seq<T>, f: T -> bool)
    ensures Count(s + t, f) == Count(s, f) + Count(t, f)
  {
    if |t| == 0 {
      assert s + t == s;
    } else {
      CountConcat(s, t[..|t| - 1], f);
      assert (s + t)[..|s + t| - 1] == s + t[..|t| - 1];
    }
  }

  /** Counting is decided by the elements: predicates that agree on them count the same. */
  lemma {:induction false} CountSame<T>(s: seq<T>, f: T -> bool, g: T -> bool)
    requires forall x :: x in s ==> f(x) == g(x)
    ensures Count(s, f) == Count(s, g)
  {
    if |s| != 0 {
      CountSame(s[..|s| - 1], f, g);
    }
  }

  lemma {:induction false} CountAtMost<T>(s: seq<T>, f: T -> bool, g: T -> bool)
    requires forall x :: x in s && f(x) ==> g(x)
    ensures Count(s, f) <= Count(s, g)
  {
    if |s| != 0 {
      CountAtMost(s[..|s| - 1], f, g);
    }
  }

  lemma {:induction false} CountNone<T>(s: seq<T>, f: T -> bool)
    requires forall i :: 0 <= i < |s| ==> !f(s[i])
    ensures Count(s, f) == 0
  {
    if |s| != 0 {
      CountNone(s[..|s| - 1], f);
    }
  }

  // ---------------------------------------------------------------- filtering

  lemma KeepSnoc<T(!new)>(s: seq<T>, x: T, f: T -> bool)
    ensures Keep(s + [x], f) == Keep(s, f) + (if f(x) then [x] else [])
  {
    hide Count;
    assert (s + [x])[..|s|] == s;
  }

  lemma {:induction false} KeepConcat<T(!new)>(a: seq<T>, b: seq<T>, f: T -> bool)
    ensures Keep(a + b, f) == Keep(a, f) + Keep(b, f)
  {
    hide Count;
    if |b| == 0 {
      assert a + b == a && Keep(a, f) + [] == Keep(a, f);
    } else {
      hide Keep;
      var front, x := b[..|b| - 1], b[|b| - 1];
      var last := if f(x) then [x] else [];
      assert b == front + [x] && a + b == (a + front) + [x];
      KeepConcat(a, front, f);
      KeepSnoc(a + front, x, f);
      KeepSnoc(front, x, f);
      assert (Keep(a, f) + Keep(front, f)) + last == Keep(a, f) + (Keep(front, f) + last);
    }
  }

  lemma {:induction false} KeepAll<T(!new)>(s: seq<T>, f: T -> bool)
    requires forall x :: x in s ==> f(x)
    ensures Keep(s, f) == s
  {
    hide Count;
    if |s| != 0 {
      hide Keep;
      var front, x := s[..|s| - 1], s[|s| - 1];
      assert s == front + [x];
      KeepAll(front, f);
      KeepSnoc(front, x, f);
    }
  }

  lemma {:induction false} KeepNone<T(!new)>(s: seq<T>, f: T -> bool)
    requires forall x :: x in s ==> !f(x)
    ensures Keep(s, f) == []
  {
    hide Count;
    if |s| != 0 {
      hide Keep;
      var front, x := s[..|s| - 1], s[|s| - 1];
      assert s == front + [x];
      KeepNone(front, f);
      KeepSnoc(front, x, f);
    }
  }

  lemma {:induction false} KeepTwice<T(!new)>(s: seq<T>, f: T -> bool, g: T -> bool, h: T -> bool)
    requires forall x :: h(x) <==> f(x) && g(x)
    ensures Keep(Keep(s, f), g) == Keep(s, h)
  {
    hide Count;
    if |s| != 0 {
      hide Keep;
      var n := |s| - 1;
      KeepTwice(s[..n], f, g, h);
      assert s == s[..n] + [s[n]];
      KeepSnoc(s[..n], s[n], f);
      KeepSnoc(s[..n], s[n], h);
      if f(s[n]) {
        KeepSnoc(Keep(s[..n], f), s[n], g);
      } else {
        assert Keep(s[..n], f) + [] == Keep(s[..n], f) && Keep(s[..n], h) + [] == Keep(s[..n], h);
      }
    }
  }

  lemma {:induction false} KeepSame<T(!new)>(s: seq<T>, f: T -> bool, g: T -> bool)
    requires forall x :: x in s ==> f(x) == g(x)
    ensures Keep(s, f) == Keep(s, g)
  {
    if |s| != 0 {
      KeepSame(s[..|s| - 1], f, g);
    }
  }

  /** The positions of the kept elements, in order. */
  function Places<T>(s: seq<T>, f: T -> bool): (places: seq<nat>)
    ensures |places| == Count(s, f)
  {
    if |s| == 0 then []
    else Places(s[..|s| - 1], f) + (if f(s[|s| - 1]) then [|s| - 1] else [])
  }

  lemma {:induction false} PlacesAreKept<T(!new)>(s: seq<T>, f: T -> bool, k: nat)
    requires k < |Places(s, f)|
    ensures Places(s, f)[k] < |s| && f(s[Places(s, f)[k]]) && Keep(s, f)[k] == s[Places(s, f)[k]]
  {
    if k < |Places(s[..|s| - 1], f)| {
      PlacesAreKept(s[..|s| - 1], f, k);
    }
  }

  lemma {:induction false} PlacesRise<T(!new)>(s: seq<T>, f: T -> bool, j: nat, k: nat)
    requires j < k < |Places(s, f)|
    ensures Places(s, f)[j] < Places(s, f)[k]
  {
    var front := s[..|s| - 1];
    if k < |Places(front, f)| {
      PlacesRise(front, f, j, k);
    } else {
      PlacesAreKept(front, f, j);
    }
  }

  lemma {:induction false} PlaceOf<T(!new)>(s: seq<T>, f: T -> bool, i: nat) returns (k: nat)
    requires i < |s| && f(s[i])
    ensures k < |Places(s, f)| && Places(s, f)[k] == i
  {
    if i < |s| - 1 {
      k := PlaceOf(s[..|s| - 1], f, i);
    } else {
      k := |Places(s[..|s| - 1], f)|;
    }
  }

  lemma CountSnoc<T>(s: seq<T>, x: T, f: T -> bool)
    ensures Count(s + [x], f) == Count(s, f) + (if f(x) then 1 else 0)
  {
    assert (s + [x])[..|s|] == s;
  }

  /** Counting among the kept ones. */
  lemma {:induction false} CountAmong<T(!new)>(s: seq<T>, f: T -> bool, g: T -> bool, h: T -> bool)
    requires forall x :: h(x) <==> f(x) && g(x)
    ensures Count(Keep(s, f), g) == Count(s, h)
  {
    if |s| != 0 {
      var n := |s| - 1;
      CountAmong(s[..n], f, g, h);
      if f(s[n]) {
        CountSnoc(Keep(s[..n], f), s[n], g);
      } else {
        assert Keep(s, f) == Keep(s[..n], f);
      }
    }
  }

  // ---------------------------------------------------------------- the elements of a list

  function Without<T>(s: seq<T>, i: nat): seq<T>
    requires i < |s|
  {
    s[..i] + s[i + 1..]
  }

  lemma WithoutMultiset<T>(s: seq<T>, i: nat)
    requires i < |s|
    ensures multiset(Without(s, i)) == multiset(s) - multiset{s[i]}
  {
    assert s == s[..i] + [s[i]] + s[i + 1..];
  }

  /** Lists with the same elements are equally long, and what is on one is on the other. */
  lemma SameSize<T>(s: seq<T>, t: seq<T>)
    requires multiset(s) == multiset(t)
    ensures |s| == |t|
  {
    assert |s| == |multiset(s)| && |t| == |multiset(t)|;
  }

  lemma Position<T>(s: seq<T>, t: seq<T>, x: T) returns (i: nat)
    requires multiset(s) == multiset(t) && x in s
    ensures i < |t| && t[i] == x
  {
    assert x in multiset(t);
    i :| i < |t| && t[i] == x;
  }

  lemma LastMultiset<T>(s: seq<T>)
    requires |s| > 0
    ensures multiset(s[..|s| - 1]) == multiset(s) - multiset{s[|s| - 1]}
  {
    assert s == s[..|s| - 1] + [s[|s| - 1]];
  }

  /** Taking the last element of one list out of the other leaves the same elements. */
  lemma WithoutLast<T>(s: seq<T>, t: seq<T>, i: nat)
    requires multiset(s) == multiset(t) && |t| > 0 && i < |s| && s[i] == t[|t| - 1]
    ensures multiset(Without(s, i)) == multiset(t[..|t| - 1])
  {
    hide Without;
    WithoutMultiset(s, i);
    LastMultiset(t);
  }

  lemma {:induction false} CountWithout<T>(t: seq<T>, k: nat, f: T -> bool)
    requires k < |t|
    ensures Count(t, f) == Count(Without(t, k), f) + (if f(t[k]) then 1 else 0)
  {
    var n := |t| - 1;
    if k < n {
      CountWithout(t[..n], k, f);
      assert Without(t, k)[..n - 1] == Without(t[..n], k);
    } else {
      assert Without(t, k) == t[..n];
    }
  }

  /** Lists with the same elements count the same. */
  lemma {:induction false} CountElements<T>(s: seq<T>, t: seq<T>, f: T -> bool)
    requires multiset(s) == multiset(t)
    ensures Count(s, f) == Count(t, f)
  {
    SameSize(s, t);
    if |s| > 0 {
      var n := |s| - 1;
      var k := Position(s, t, s[n]);
      WithoutLast(t, s, k);
      CountElements(s[..n], Without(t, k), f);
      CountWithout(t, k, f);
    }
  }

  /** More than one element counts exactly when there is another one. */
  lemma CountsAnother<T>(s: seq<T>, f: T -> bool, i: nat)
    requires i < |s| && f(s[i])
    ensures Count(s, f) > 1 <==> exists j :: 0 <= j < |s| && j != i && f(s[j])
  {
    if j :| 0 <= j < |s| && j != i && f(s[j]) {
      CountTwice(s, f, if i < j then i else j, if i < j then j else i);
    } else {
      CountWithout(s, i, f);
      CountNone(Without(s, i), f);
    }
  }

  function Mapped<T, U>(s: seq<T>, f: T -> U): (r: seq<U>)
    ensures |r| == |s| && forall i :: 0 <= i < |s| ==> r[i] == f(s[i])
  {
    seq(|s|, i requires 0 <= i < |s| => f(s[i]))
  }

  lemma MappedWithout<T, U>(s: seq<T>, j: nat, f: T -> U)
    requires j < |s|
    ensures multiset(Mapped(s, f)) == multiset(Mapped(Without(s, j), f)) + multiset{f(s[j])}
  {
    var mapped := Mapped(s, f);
    assert Mapped(Without(s, j), f) == Without(mapped, j);
    WithoutMultiset(mapped, j);
    assert mapped[j] in multiset(mapped);
  }

  /** Mapping lists with the same elements gives lists with the same elements. */
  lemma {:induction false} MappedMultiset<T, U>(s: seq<T>, t: seq<T>, f: T -> U)
    requires multiset(s) == multiset(t)
    ensures multiset(Mapped(s, f)) == multiset(Mapped(t, f))
    decreases |s|, 1
  {
    SameSize(s, t);
    if |s| != 0 {
      var n := |s| - 1;
      var j := Position(s, t, s[n]);
      WithoutLast(t, s, j);
      MappedFront(s, t, j, f);
    } else {
      assert Mapped(s, f) == [] == Mapped(t, f);
    }
  }

  lemma MappedFront<T, U>(s: seq<T>, t: seq<T>, j: nat, f: T -> U)
    requires |s| > 0 && j < |t| && t[j] == s[|s| - 1]
    requires multiset(Without(t, j)) == multiset(s[..|s| - 1])
    ensures multiset(Mapped(s, f)) == multiset(Mapped(t, f))
    decreases |s|, 0
  {
    hide Mapped;
    var n := |s| - 1;
    assert Without(s, n) == s[..n];
    MappedMultiset(s[..n], Without(t, j), f);
    MappedWithout(s, n, f);
    MappedWithout(t, j, f);
  }

  // ---------------------------------------------------------------- one-to-one

  /** Each position of the first list has its own position in the second one, with the same element. */
  ghost predicate MatchedUp<T>(s: seq<T>, t: seq<T>, places: seq<nat>) {
    && |places| == |s| == |t|
    && (forall i :: 0 <= i < |s| ==> places[i] < |t| && t[places[i]] == s[i])
    && forall i, j :: 0 <= i < j < |s| ==> places[i] != places[j]
  }

  /** Positions after one position is left out, and back. */
  function Skip(j: nat, k: nat): nat {
    if k < j then k else k + 1
  }

  lemma {:induction false} MatchUp<T>(s: seq<T>, t: seq<T>) returns (places: seq<nat>)
    requires multiset(s) == multiset(t)
    ensures MatchedUp(s, t, places)
  {
    SameSize(s, t);
    places := [];
    if |s| > 0 {
      var n := |s| - 1;
      var j := Position(s, t, s[n]);
      WithoutLast(t, s, j);
      var rest := MatchUp(s[..n], Without(t, j));
      places := seq(n, i requires 0 <= i < n => Skip(j, rest[i])) + [j];
      forall i | 0 <= i < n ensures t[places[i]] == s[i] {
        assert Without(t, j)[rest[i]] == t[Skip(j, rest[i])];
      }
    }
  }

  /** The first positions without the one of the last element. */
  lemma MatchedFront<T>(s: seq<T>, t: seq<T>, places: seq<nat>) returns (rest: seq<nat>)
    requires MatchedUp(s, t, places) && |s| > 0
    ensures MatchedUp(s[..|s| - 1], Without(t, places[|s| - 1]), rest)
  {
    var n := |s| - 1;
    var j := places[n];
    rest := [];
    for i := 0 to n
      invariant |rest| == i
      invariant forall k :: 0 <= k < i ==> places[k] == Skip(j, rest[k])
    {
      rest := rest + [if places[i] < j then places[i] else places[i] - 1];
    }
    forall i | 0 <= i < n ensures rest[i] < n && Without(t, j)[rest[i]] == s[i] {
      assert places[i] == Skip(j, rest[i]);
    }
  }

  lemma {:induction false} MatchedElements<T>(s: seq<T>, t: seq<T>, places: seq<nat>)
    requires MatchedUp(s, t, places)
    ensures multiset(s) == multiset(t)
  {
    if |s| > 0 {
      var rest := MatchedFront(s, t, places);
      MatchedElements(s[..|s| - 1], Without(t, places[|s| - 1]), rest);
      PutBack(s, t, places[|s| - 1]);
    }
  }

  lemma PutBack<T>(s: seq<T>, t: seq<T>, j: nat)
    requires |s| > 0 && j < |t| && t[j] == s[|s| - 1] && multiset(s[..|s| - 1]) == multiset(Without(t, j))
    ensures multiset(s) == multiset(t)
  {
    assert s == s[..|s| - 1] + [s[|s| - 1]] && t == t[..j] + [t[j]] + t[j + 1..];
  }
}
