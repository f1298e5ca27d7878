/**
  When the suggested weekly card is the best one over every choice of teams and every order of the
  weights, weights below zero included.
*/
module SuggestionLaws {
  import opened Flow
  import opened Sequences
  import opened PoolModel
  import opened Rearrangement
  import opened Sorting
  import opened ConfidenceCard
  import opened WeeklyCard
  import opened Suggestions
  import opened Examples

  // ---------------------------------------------------------------- the claim

  /** The survival of one of the two teams. */
  ghost predicate TeamValue(rules: Rules, g: Game, q: real) {
    q == Survival(rules, g, g.away) || q == Survival(rules, g, g.home)
  }

  /** A card: for each game the survival of one of its teams, and the weights in some order. */
  ghost predicate AnyCard(pool: Pool, games: seq<Game>, qs: seq<real>, ws: seq<int>) {
    && |qs| == |ws| == |games|
    && multiset(ws) == multiset(WeightsFor(pool.rules, |games|))
    && forall i :: 0 <= i < |games| ==> TeamValue(pool.rules, games[i], qs[i])
  }

  ghost predicate SuggestionIsBest(pool: Pool, games: seq<Game>, later: seq<Game>, futureWeight: real)
    requires Suggestible(pool, games)
  {
    forall qs, ws :: AnyCard(pool, games, qs, ws) ==>
      Dot(qs, ws) <= ExpectedPoints(SuggestedRows(pool, games, later, futureWeight))
  }

  /** A game whose teams are equally likely. */
  predicate Tied(rules: Rules, g: Game) {
    Survival(rules, g, g.away) == Survival(rules, g, g.home)
  }

  function TiedGames(rules: Rules, games: seq<Game>): nat {
    Count(games, (g: Game) => Tied(rules, g))
  }

  /**
    In ascending order the weights below zero are no more than the tied games, and none of them outweighs
    a weight that is left for the other games.
  */
  ghost predicate WeightsSuit(pool: Pool, games: seq<Game>) {
    var ws, z := WeightsFor(pool.rules, |games|), TiedGames(pool.rules, games);
    forall k :: 0 <= k < |ws| && ws[k] < 0 ==> k < z && forall j :: z <= j < |ws| ==> ws[k] + ws[j] >= 0
  }

  /** Two different teams play. */
  ghost predicate TwoTeams(games: seq<Game>) {
    forall i :: 0 <= i < |games| ==> games[i].away != games[i].home
  }

  // ---------------------------------------------------------------- distance from even

  /** Twice the distance of a survival from one half, with its sign. */
  function Spread(q: real): real {
    q + q - 1.0
  }

  function Spreads(qs: seq<real>): (ss: seq<real>)
    ensures |ss| == |qs| && forall i :: 0 <= i < |qs| ==> ss[i] == Spread(qs[i])
  {
    Mapped(qs, Spread)
  }

  function Total(ws: seq<int>): real {
    if |ws| == 0 then 0.0 else Total(ws[..|ws| - 1]) + Times(ws[|ws| - 1], 1.0)
  }

  lemma {:induction false} TotalWithout(ws: seq<int>, i: nat)
    requires i < |ws|
    ensures Total(ws) == Total(Without(ws, i)) + Times(ws[i], 1.0)
  {
    hide Times;
    var n := |ws| - 1;
    if i == n {
      assert Without(ws, i) == ws[..n];
    } else {
      TotalWithout(ws[..n], i);
      assert Without(ws, i)[..n - 1] == Without(ws[..n], i);
    }
  }

  /** The total does not depend on the order. */
  lemma {:induction false} TotalOfOrder(vs: seq<int>, ws: seq<int>)
    requires multiset(vs) == multiset(ws)
    ensures Total(vs) == Total(ws)
  {
    hide Times;
    SameSize(vs, ws);
    if |vs| != 0 {
      var n := |vs| - 1;
      var j := Position(vs, ws, vs[n]);
      WithoutLast(ws, vs, j);
      TotalOfOrder(vs[..n], Without(ws, j));
      TotalWithout(ws, j);
    }
  }

  lemma SpreadTerm(w: int, q: real)
    ensures Times(w, Spread(q)) == Times(w, q) + Times(w, q) - Times(w, 1.0)
  {
    hide Times;
    TimesSum(w, q, q);
    TimesSum(w, q + q, 1.0);
  }

  /** What a card is worth, in spreads. */
  lemma {:induction false} DotOfSpreads(qs: seq<real>, ws: seq<int>)
    requires |qs| == |ws|
    ensures Dot(Spreads(qs), ws) == Dot(qs, ws) + Dot(qs, ws) - Total(ws)
  {
    hide Times, Spread;
    if |qs| != 0 {
      var n := |qs| - 1;
      DotOfSpreads(qs[..n], ws[..n]);
      assert Spreads(qs)[..n] == Spreads(qs[..n]);
      SpreadTerm(ws[n], qs[n]);
    }
  }

  /** The other team is as far from even as the top team, on the other side. */
  lemma OtherTeam(rules: Rules, g: Game)
    requires g.away != g.home
    ensures Spread(Survival(rules, g, g.away)) == -Spread(Survival(rules, g, g.home))
  {
  }

  // ---------------------------------------------------------------- the suggested rows

  function SortedTops(pool: Pool, games: seq<Game>, later: seq<Game>, futureWeight: real): seq<Chosen> {
    SortStable(Tops(pool.rules, later, futureWeight, games))
  }

  /** The spreads of the suggested rows. */
  function TopSpreads(pool: Pool, games: seq<Game>, later: seq<Game>, futureWeight: real): (ds: seq<real>)
    ensures |ds| == |SortedTops(pool, games, later, futureWeight)|
  {
    Spreads(Successes(SortedTops(pool, games, later, futureWeight)))
  }

  /** The chosen team of a game: its spread is not below zero, and zero exactly for tied games. */
  ghost predicate TopOf(rules: Rules, g: Game, s: real) {
    && TeamValue(rules, g, s)
    && Spread(s) >= 0.0
    && (Spread(s) == 0.0 <==> Tied(rules, g))
    && forall q :: TeamValue(rules, g, q) ==> Spread(q) == Spread(s) || Spread(q) == -Spread(s)
  }

  lemma TopTeamIsTop(rules: Rules, later: seq<Game>, futureWeight: real, g: Game)
    requires g.away != g.home
    ensures TopOf(rules, g, TopTeam(rules, later, futureWeight, g).success)
  {
    hide Survival, Score;
    OtherTeam(rules, g);
  }

  lemma RowIsTop(pool: Pool, games: seq<Game>, later: seq<Game>, futureWeight: real, k: nat)
    requires TwoTeams(games) && k < |SortedTops(pool, games, later, futureWeight)|
    ensures
      var c := SortedTops(pool, games, later, futureWeight)[k];
      TopOf(pool.rules, c.game, c.success)
  {
    hide SortStable, TopTeam, TopOf;
    var cs, sorted := Tops(pool.rules, later, futureWeight, games), SortedTops(pool, games, later, futureWeight);
    var i := Position(sorted, cs, sorted[k]);
    TopTeamIsTop(pool.rules, later, futureWeight, games[i]);
  }

  lemma RowCount(pool: Pool, games: seq<Game>, later: seq<Game>, futureWeight: real)
    requires Suggestible(pool, games)
    ensures |SortedTops(pool, games, later, futureWeight)| == |games| == |WeightsFor(pool.rules, |games|)|
    ensures ExpectedPoints(SuggestedRows(pool, games, later, futureWeight))
            == Dot(Successes(SortedTops(pool, games, later, futureWeight)), WeightsFor(pool.rules, |games|))
  {
    hide WeightsFor, Rated, SortStable, TopTeam;
    SameSize(SortedTops(pool, games, later, futureWeight), Tops(pool.rules, later, futureWeight, games));
    RowsAreDot(SortedTops(pool, games, later, futureWeight), WeightsFor(pool.rules, |games|));
  }

  // ---------------------------------------------------------------- tied games come first

  predicate Even(c: Chosen) {
    Spread(c.success) == 0.0
  }

  lemma {:induction false} CountTops(rules: Rules, later: seq<Game>, futureWeight: real, games: seq<Game>)
    requires TwoTeams(games)
    ensures Count(Tops(rules, later, futureWeight, games), Even) == TiedGames(rules, games)
  {
    hide TopTeam, Survival;
    if |games| != 0 {
      var n := |games| - 1;
      CountTops(rules, later, futureWeight, games[..n]);
      assert Tops(rules, later, futureWeight, games)[..n] == Tops(rules, later, futureWeight, games[..n]);
      TopTeamIsTop(rules, later, futureWeight, games[n]);
      CountSame(games[..n], (g: Game) => Tied(rules, g), (g: Game) => Tied(rules, g));
    }
  }

  /** In an ascending list without negative spreads the even ones come first. */
  lemma {:induction false} EvenFirst(s: seq<Chosen>, k: nat)
    requires Ascending(Successes(s)) && k < |s|
    requires forall i :: 0 <= i < |s| ==> Spread(s[i].success) >= 0.0
    ensures Even(s[k]) <==> k < Count(s, Even)
    ensures Count(s, Even) <= |s|
  {
    var n := |s| - 1;
    if k < n {
      EvenFirst(s[..n], k);
    } else if n > 0 {
      EvenFirst(s[..n], n - 1);
    }
  }

  lemma TiedFirst(pool: Pool, games: seq<Game>, later: seq<Game>, futureWeight: real, k: nat)
    requires TwoTeams(games) && k < |SortedTops(pool, games, later, futureWeight)|
    ensures
      var ds := TopSpreads(pool, games, later, futureWeight);
      ds[k] >= 0.0 && (ds[k] == 0.0 <==> k < TiedGames(pool.rules, games))
  {
    hide SortStable, TopTeam, Survival, Count, TiedGames;
    var cs, sorted := Tops(pool.rules, later, futureWeight, games), SortedTops(pool, games, later, futureWeight);
    var _ := SortStableAscends(cs);
    forall i | 0 <= i < |sorted| ensures Spread(sorted[i].success) >= 0.0 {
      RowIsTop(pool, games, later, futureWeight, i);
    }
    EvenFirst(sorted, k);
    CountElements(sorted, cs, Even);
    CountTops(pool.rules, later, futureWeight, games);
  }

  // ---------------------------------------------------------------- weights that suit

  function Abs(w: int): nat {
    if w < 0 then -w else w
  }

  /** A signed spread under a weight is worth at most the spread under the weight without its sign. */
  lemma SignedTerm(w: int, s: real, d: real)
    requires d >= 0.0 && (s == d || s == -d)
    ensures Times(w, s) <= Times(Abs(w), d)
  {
    hide Times;
    TimesNegate(w, d);
    TimesOpposite(w, d);
    TimesSign(Abs(w), d);
  }

  /** The weights without sign, those of the tied games in order. */
  function Unsigned(ws: seq<int>, z: nat): (us: seq<int>)
    requires z <= |ws|
  {
    SortWeights(Mapped(ws[..z], (w: int) => Abs(w))) + ws[z..]
  }

  /** Weights that suit `z` tied games: below zero only there, and there outweighed by all the others. */
  ghost predicate Suit(ws: seq<int>, z: nat) {
    forall k :: 0 <= k < |ws| && ws[k] < 0 ==> k < z && forall j :: z <= j < |ws| ==> ws[k] + ws[j] >= 0
  }

  lemma UnsignedAscends(ws: seq<int>, z: nat)
    requires AscendingInts(ws) && z <= |ws| && Suit(ws, z)
    ensures AscendingInts(Unsigned(ws, z)) && |Unsigned(ws, z)| == |ws|
  {
    hide SortWeights;
    var front := Mapped(ws[..z], (w: int) => Abs(w));
    var sorted := SortWeights(front);
    SortWeightsAscends(front);
    SameSize(sorted, front);
    forall a, j | 0 <= a < z <= j < |ws| ensures sorted[a] <= ws[j] {
      var k := Position(sorted, front, sorted[a]);
      assert front[k] == Abs(ws[k]) && ws[k] <= ws[j];
    }
  }

  lemma UnsignedElements(ws: seq<int>, z: nat)
    requires z <= |ws| && Suit(ws, z)
    ensures multiset(Unsigned(ws, z)) == multiset(Mapped(ws, (w: int) => Abs(w)))
  {
    hide SortWeights;
    var front := Mapped(ws[..z], (w: int) => Abs(w));
    forall j | z <= j < |ws| ensures Abs(ws[j]) == ws[j] {
      assert ws[j] < 0 ==> j < z;
    }
    assert Mapped(ws, (w: int) => Abs(w)) == front + ws[z..];
  }

  /** Only the positions from `z` on matter when the values before are zero. */
  lemma {:induction false} DotTail(ds: seq<real>, us: seq<int>, ws: seq<int>, z: nat)
    requires |ds| == |us| == |ws|
    requires forall k :: 0 <= k < |ds| ==> (if k < z then ds[k] == 0.0 else us[k] == ws[k])
    ensures Dot(ds, us) == Dot(ds, ws)
  {
    if |ds| != 0 {
      var n := |ds| - 1;
      DotTail(ds[..n], us[..n], ws[..n], z);
      if n < z {
        TimesIsProduct(us[n], 0.0);
        TimesIsProduct(ws[n], 0.0);
      }
    }
  }

  lemma TiedAtMostAll(rules: Rules, games: seq<Game>)
    ensures TiedGames(rules, games) <= |games|
  {
    CountAtMost(games, (g: Game) => Tied(rules, g), (g: Game) => true);
    CountAll(games);
  }

  lemma {:induction false} CountAll(games: seq<Game>)
    ensures Count(games, (g: Game) => true) == |games|
  {
    if |games| != 0 {
      CountAll(games[..|games| - 1]);
      CountSame(games[..|games| - 1], (g: Game) => true, (g: Game) => true);
    }
  }

  /** Spreads of the suggested rows ascend. */
  lemma TopSpreadsAscend(pool: Pool, games: seq<Game>, later: seq<Game>, futureWeight: real)
    ensures Ascending(TopSpreads(pool, games, later, futureWeight))
  {
    hide SortStable, TopTeam;
    var _ := SortStableAscends(Tops(pool.rules, later, futureWeight, games));
  }

  /** No card spreads further than the suggested rows with the weights without sign. */
  lemma CardSpread(pool: Pool, games: seq<Game>, later: seq<Game>, futureWeight: real, qs: seq<real>, ws: seq<int>, us: seq<int>)
    requires TwoTeams(games) && AnyCard(pool, games, qs, ws)
    requires AscendingInts(us) && |us| == |games| == |SortedTops(pool, games, later, futureWeight)|
    requires multiset(us) == multiset(Mapped(WeightsFor(pool.rules, |games|), (w: int) => Abs(w)))
    ensures Dot(Spreads(qs), ws) <= Dot(TopSpreads(pool, games, later, futureWeight), us)
  {
    hide WeightsFor, SortStable, TopTeam, Dot, Times, Survival, Abs, Spread;
    var cs, sorted := Tops(pool.rules, later, futureWeight, games), SortedTops(pool, games, later, futureWeight);
    var ps := Successes(cs);
    var vs := Mapped(ws, (w: int) => Abs(w));
    forall i | 0 <= i < |games| ensures Times(ws[i], Spreads(qs)[i]) <= Times(vs[i], Spreads(ps)[i]) {
      TopTeamIsTop(pool.rules, later, futureWeight, games[i]);
      assert TeamValue(pool.rules, games[i], qs[i]);
      SignedTerm(ws[i], Spreads(qs)[i], Spreads(ps)[i]);
    }
    DotBelow(Spreads(qs), ws, Spreads(ps), vs);
    MappedMultiset(ws, WeightsFor(pool.rules, |games|), (w: int) => Abs(w));
    SuccessMultiset(cs, sorted);
    MappedMultiset(ps, Successes(sorted), Spread);
    TopSpreadsAscend(pool, games, later, futureWeight);
    SortedPairingIsBest(TopSpreads(pool, games, later, futureWeight), us, Spreads(ps), vs);
  }

  /** With weights that suit, no card is worth more than the suggested one. */
  lemma SuitingCard(pool: Pool, games: seq<Game>, later: seq<Game>, futureWeight: real, qs: seq<real>, ws: seq<int>)
    requires Suggestible(pool, games) && TwoTeams(games) && WeightsSuit(pool, games) && AnyCard(pool, games, qs, ws)
    ensures Dot(qs, ws) <= ExpectedPoints(SuggestedRows(pool, games, later, futureWeight))
  {
    hide WeightsFor, SortStable, TopTeam, Dot, Times, Survival, Abs, TiedGames, Unsigned, SortedTops, SuggestedRows,
         Total, TwoTeams;
    var weights, z := WeightsFor(pool.rules, |games|), TiedGames(pool.rules, games);
    var ds := TopSpreads(pool, games, later, futureWeight);
    RowCount(pool, games, later, futureWeight);
    WeightsAscend(pool.rules, |games|);
    TiedAtMostAll(pool.rules, games);
    assert Suit(weights, z);
    UnsignedAscends(weights, z);
    UnsignedElements(weights, z);
    CardSpread(pool, games, later, futureWeight, qs, ws, Unsigned(weights, z));
    forall k | 0 <= k < |ds| ensures if k < z then ds[k] == 0.0 else Unsigned(weights, z)[k] == weights[k] {
      TiedFirst(pool, games, later, futureWeight, k);
      UnsignedTail(weights, z);
    }
    DotTail(ds, Unsigned(weights, z), weights, z);
    DotOfSpreads(qs, ws);
    DotOfSpreads(Successes(SortedTops(pool, games, later, futureWeight)), weights);
    TotalOfOrder(ws, weights);
  }

  lemma UnsignedTail(ws: seq<int>, z: nat)
    requires z <= |ws|
    ensures |Unsigned(ws, z)| == |ws| && forall k :: z <= k < |ws| ==> Unsigned(ws, z)[k] == ws[k]
  {
    SameSize(SortWeights(Mapped(ws[..z], (w: int) => Abs(w))), Mapped(ws[..z], (w: int) => Abs(w)));
  }

  // ---------------------------------------------------------------- weights that do not

  lemma {:induction false} DotOtherValue(ps: seq<real>, ws: seq<int>, k: nat, q: real)
    requires k < |ps| == |ws|
    ensures Dot(ps[k := q], ws) == Dot(ps, ws) - Times(ws[k], ps[k]) + Times(ws[k], q)
  {
    hide Times;
    var n := |ps| - 1;
    if k == n {
      assert ps[k := q][..n] == ps[..n];
    } else {
      assert ps[k := q][..n] == ps[..n][k := q];
      DotOtherValue(ps[..n], ws[..n], k, q);
    }
  }

  lemma {:induction false} NegativeTimes(w: int, p: real)
    requires w < 0 && p > 0.0
    ensures Times(w, p) < 0.0
    decreases -w
  {
    if w < -1 {
      NegativeTimes(w + 1, p);
    }
  }

  /** Where a card of the suggested rows takes its value for a game. */
  ghost predicate TakenFrom(cs: seq<Chosen>, sorted: seq<Chosen>, qs: seq<real>, rs: seq<real>, i: nat)
    requires i < |cs| == |qs| && |sorted| == |rs|
  {
    exists k :: 0 <= k < |sorted| && cs[i] == sorted[k] && qs[i] == rs[k]
  }

  /** A term that was left out is put at the end. */
  lemma {:induction false} PutBack(rs: seq<real>, vs: seq<int>, j: nat, qs: seq<real>, ws: seq<int>)
    requires j < |rs| == |vs| && |qs| == |ws|
    requires multiset(ws) == multiset(Without(vs, j)) && Dot(qs, ws) == Dot(Without(rs, j), Without(vs, j))
    ensures multiset(ws + [vs[j]]) == multiset(vs) && Dot(qs + [rs[j]], ws + [vs[j]]) == Dot(rs, vs)
  {
    hide Times, Without;
    WithoutMultiset(vs, j);
    assert vs[j] in multiset(vs);
    DotWithout(rs, vs, j);
    assert (qs + [rs[j]])[..|qs|] == qs && (ws + [vs[j]])[..|ws|] == ws;
  }

  /** Rows in another order are worth the same. */
  lemma {:induction false} Reorder(cs: seq<Chosen>, sorted: seq<Chosen>, rs: seq<real>, vs: seq<int>)
    returns (qs: seq<real>, ws: seq<int>)
    requires multiset(cs) == multiset(sorted) && |sorted| == |rs| == |vs|
    ensures |qs| == |ws| == |cs| && multiset(ws) == multiset(vs) && Dot(qs, ws) == Dot(rs, vs)
    ensures forall i :: 0 <= i < |cs| ==> TakenFrom(cs, sorted, qs, rs, i)
    decreases |cs|
  {
    hide Times;
    SameSize(cs, sorted);
    if |cs| == 0 {
      qs, ws := [], [];
      assert rs == [] && vs == [];
    } else {
      var n := |cs| - 1;
      var j := Position(cs, sorted, cs[n]);
      WithoutLast(sorted, cs, j);
      var qs0, ws0 := Reorder(cs[..n], Without(sorted, j), Without(rs, j), Without(vs, j));
      qs, ws := qs0 + [rs[j]], ws0 + [vs[j]];
      PutBack(rs, vs, j, qs0, ws0);
      forall i | 0 <= i < |cs| ensures TakenFrom(cs, sorted, qs, rs, i) {
        if i < n {
          TakenBefore(cs[..n], sorted, qs0, rs, j, i);
        }
      }
    }
  }

  lemma TakenBefore(cs: seq<Chosen>, sorted: seq<Chosen>, qs: seq<real>, rs: seq<real>, j: nat, i: nat)
    requires |sorted| == |rs| && j < |sorted| && i < |cs| == |qs|
    requires TakenFrom(cs, Without(sorted, j), qs, Without(rs, j), i)
    ensures TakenFrom(cs, sorted, qs, rs, i)
  {
    var k :| 0 <= k < |sorted| - 1 && cs[i] == Without(sorted, j)[k] && qs[i] == Without(rs, j)[k];
    var m := if k < j then k else k + 1;
    assert cs[i] == sorted[m] && qs[i] == rs[m];
  }

  /** A card on the suggested rows that is worth more shows that the suggestion is not the best. */
  lemma BetterRows(pool: Pool, games: seq<Game>, later: seq<Game>, futureWeight: real, rs: seq<real>, vs: seq<int>)
    requires Suggestible(pool, games)
    requires |rs| == |vs| == |SortedTops(pool, games, later, futureWeight)|
    requires multiset(vs) == multiset(WeightsFor(pool.rules, |games|))
    requires forall k :: 0 <= k < |rs| ==> TeamValue(pool.rules, SortedTops(pool, games, later, futureWeight)[k].game, rs[k])
    requires Dot(rs, vs) > ExpectedPoints(SuggestedRows(pool, games, later, futureWeight))
    ensures !SuggestionIsBest(pool, games, later, futureWeight)
  {
    hide WeightsFor, SortStable, TopTeam, Dot, Survival, SuggestedRows, TeamValue, Rated;
    var cs, sorted := Tops(pool.rules, later, futureWeight, games), SortedTops(pool, games, later, futureWeight);
    var qs, ws := Reorder(cs, sorted, rs, vs);
    forall i | 0 <= i < |games| ensures TeamValue(pool.rules, games[i], qs[i]) {
      assert TakenFrom(cs, sorted, qs, rs, i);
      var k :| 0 <= k < |sorted| && cs[i] == sorted[k] && qs[i] == rs[k];
      assert cs[i].game == games[i];
    }
    SameSize(ws, WeightsFor(pool.rules, |games|));
    assert AnyCard(pool, games, qs, ws);
  }

  /** The other team of a row. */
  lemma OtherValue(pool: Pool, games: seq<Game>, later: seq<Game>, futureWeight: real, k: nat) returns (low: real)
    requires TwoTeams(games) && k < |SortedTops(pool, games, later, futureWeight)|
    ensures TeamValue(pool.rules, SortedTops(pool, games, later, futureWeight)[k].game, low)
    ensures Spread(low) == -TopSpreads(pool, games, later, futureWeight)[k]
  {
    hide SortStable, TopTeam, Survival;
    var cs, sorted := Tops(pool.rules, later, futureWeight, games), SortedTops(pool, games, later, futureWeight);
    RowIsTop(pool, games, later, futureWeight, k);
    var i := Position(sorted, cs, sorted[k]);
    var g := sorted[k].game;
    assert g == games[i];
    OtherTeam(pool.rules, g);
    var a, h := Survival(pool.rules, g, g.away), Survival(pool.rules, g, g.home);
    low := if sorted[k].success == a then h else a;
  }

  /** Rows with the values and weights changed are worth more exactly when their spreads are. */
  lemma WorthMore(pool: Pool, games: seq<Game>, later: seq<Game>, futureWeight: real, rs: seq<real>, vs: seq<int>)
    requires Suggestible(pool, games)
    requires |rs| == |vs| == |SortedTops(pool, games, later, futureWeight)| == |WeightsFor(pool.rules, |games|)|
    requires multiset(vs) == multiset(WeightsFor(pool.rules, |games|))
    requires Dot(Spreads(rs), vs) > Dot(TopSpreads(pool, games, later, futureWeight), WeightsFor(pool.rules, |games|))
    ensures Dot(rs, vs) > ExpectedPoints(SuggestedRows(pool, games, later, futureWeight))
  {
    hide WeightsFor, SortStable, TopTeam, Dot, Survival, SuggestedRows, Rated, Total, Spreads, SortedTops;
    RowCount(pool, games, later, futureWeight);
    DotOfSpreads(rs, vs);
    DotOfSpreads(Successes(SortedTops(pool, games, later, futureWeight)), WeightsFor(pool.rules, |games|));
    TotalOfOrder(vs, WeightsFor(pool.rules, |games|));
  }

  /** A weight below zero on a game that is not tied: the other team is worth more. */
  lemma SwitchTeam(pool: Pool, games: seq<Game>, later: seq<Game>, futureWeight: real, k: nat)
    requires Suggestible(pool, games) && TwoTeams(games)
    requires k < |WeightsFor(pool.rules, |games|)| && WeightsFor(pool.rules, |games|)[k] < 0
    requires k >= TiedGames(pool.rules, games)
    ensures !SuggestionIsBest(pool, games, later, futureWeight)
  {
    hide WeightsFor, SortStable, TopTeam, Dot, Survival, SuggestedRows, Rated, Times, SortedTops, Spread, TeamValue,
         TwoTeams, TiedGames, Suggestible;
    var sorted, ws := SortedTops(pool, games, later, futureWeight), WeightsFor(pool.rules, |games|);
    var ds := TopSpreads(pool, games, later, futureWeight);
    RowCount(pool, games, later, futureWeight);
    TiedFirst(pool, games, later, futureWeight, k);
    var low := OtherValue(pool, games, later, futureWeight, k);
    var rs := Successes(sorted)[k := low];
    assert Spreads(rs) == ds[k := -ds[k]];
    DotOtherValue(ds, ws, k, -ds[k]);
    TimesOpposite(ws[k], ds[k]);
    NegativeTimes(ws[k], ds[k]);
    WorthMore(pool, games, later, futureWeight, rs, ws);
    forall i | 0 <= i < |rs| ensures TeamValue(pool.rules, sorted[i].game, rs[i]) {
      RowIsTop(pool, games, later, futureWeight, i);
    }
    BetterRows(pool, games, later, futureWeight, rs, ws);
  }

  /** A weight below zero that outweighs one of a game that is not tied: swap them and take the other team. */
  lemma SwapRows(pool: Pool, games: seq<Game>, later: seq<Game>, futureWeight: real, k: nat, j: nat)
    requires Suggestible(pool, games) && TwoTeams(games)
    requires k < TiedGames(pool.rules, games) <= j < |WeightsFor(pool.rules, |games|)|
    requires WeightsFor(pool.rules, |games|)[k] + WeightsFor(pool.rules, |games|)[j] < 0
    ensures !SuggestionIsBest(pool, games, later, futureWeight)
  {
    hide WeightsFor, SortStable, TopTeam, Dot, Survival, SuggestedRows, Rated, Times, SortedTops, Spread, TeamValue,
         TwoTeams, TiedGames, Suggestible;
    var sorted, ws := SortedTops(pool, games, later, futureWeight), WeightsFor(pool.rules, |games|);
    var ds := TopSpreads(pool, games, later, futureWeight);
    RowCount(pool, games, later, futureWeight);
    TiedFirst(pool, games, later, futureWeight, k);
    TiedFirst(pool, games, later, futureWeight, j);
    var low := OtherValue(pool, games, later, futureWeight, j);
    var rs := Successes(sorted)[j := low];
    var vs := ws[k := ws[j]][j := ws[k]];
    assert Spreads(rs) == ds[j := -ds[j]];
    SwappedSpreads(ds, ws, k, j);
    SwapElements(ws, k, j);
    WorthMore(pool, games, later, futureWeight, rs, vs);
    forall i | 0 <= i < |rs| ensures TeamValue(pool.rules, sorted[i].game, rs[i]) {
      RowIsTop(pool, games, later, futureWeight, i);
    }
    BetterRows(pool, games, later, futureWeight, rs, vs);
  }

  lemma SwapElements(ws: seq<int>, k: nat, j: nat)
    requires k < |ws| && j < |ws|
    ensures multiset(ws[k := ws[j]][j := ws[k]]) == multiset(ws)
  {
  }

  lemma SwappedSpreads(ds: seq<real>, ws: seq<int>, k: nat, j: nat)
    requires k < |ds| == |ws| && j < |ds| && k != j && ds[k] == 0.0 && ds[j] > 0.0 && ws[k] + ws[j] < 0
    ensures Dot(ds[j := -ds[j]], ws[k := ws[j]][j := ws[k]]) > Dot(ds, ws)
  {
    hide Dot, Times;
    var es := ds[j := -ds[j]];
    DotUpdate(es, ws, k, ws[j]);
    DotUpdate(es, ws[k := ws[j]], j, ws[k]);
    DotOtherValue(ds, ws, j, -ds[j]);
    TimesOpposite(ws[j], ds[j]);
    TimesOpposite(ws[k], ds[j]);
    TimesZero(ws[k]);
    TimesZero(ws[j]);
    TimesAdd(ws[k], ws[j], ds[j]);
    NegativeTimes(ws[k] + ws[j], ds[j]);
  }

  lemma TimesZero(w: int)
    ensures Times(w, 0.0) == 0.0
  {
    TimesIsProduct(w, 0.0);
  }

  /**
    The suggested card is worth at least every other choice of teams and order of the weights exactly when
    the weights suit the tied games.
  */
  lemma SuggestedCardIsBestExactlyWhen(pool: Pool, games: seq<Game>, later: seq<Game>, futureWeight: real)
    requires Suggestible(pool, games) && TwoTeams(games)
    ensures SuggestionIsBest(pool, games, later, futureWeight) <==> WeightsSuit(pool, games)
  {
    hide WeightsFor, Rated, Dot, TiedGames, TwoTeams, Suggestible, SuggestedRows, TeamValue;
    var ws, z := WeightsFor(pool.rules, |games|), TiedGames(pool.rules, games);
    if WeightsSuit(pool, games) {
      forall qs, ws | AnyCard(pool, games, qs, ws)
        ensures Dot(qs, ws) <= ExpectedPoints(SuggestedRows(pool, games, later, futureWeight))
      {
        SuitingCard(pool, games, later, futureWeight, qs, ws);
      }
    } else {
      var k :| 0 <= k < |ws| && ws[k] < 0 && !(k < z && forall j :: z <= j < |ws| ==> ws[k] + ws[j] >= 0);
      if k >= z {
        SwitchTeam(pool, games, later, futureWeight, k);
      } else {
        var j :| z <= j < |ws| && ws[k] + ws[j] < 0;
        SwapRows(pool, games, later, futureWeight, k, j);
      }
    }
  }

  // ---------------------------------------------------------------- two inputs that fail

  lemma SortedWeightsStay(ws: seq<int>)
    requires AscendingInts(ws)
    ensures SortWeights(ws) == ws
  {
    SortedStays(ws, Lighter);
  }

  lemma OneOfTwoTied(rules: Rules, tied: Game, other: Game)
    requires Tied(rules, tied) && !Tied(rules, other)
    ensures TiedGames(rules, [tied, other]) == 1
  {
    hide Tied;
    var games := [tied, other];
    assert games[..1] == [tied] && games[..1][..0] == [];
    CountSame(games[..1], (g: Game) => Tied(rules, g), (g: Game) => Tied(rules, g));
  }

  lemma SuggestibleExample(weights: seq<int>, games: seq<Game>)
    requires AscendingInts(weights) && Apart(weights) && |weights| == |games| > 0
    requires forall i :: 0 <= i < |games| ==> games[i].winKind == Market
    ensures Suggestible(ExamplePool(weights), games) && WeightsFor(ExamplePool(weights).rules, |games|) == weights
  {
    hide SortWeights;
    SortedWeightsStay(weights);
  }

  /** One game, one weight below zero: the less likely team is worth more. */
  lemma NegativeWeightMisleads() returns (pool: Pool, games: seq<Game>)
    ensures pool.rules.confidenceWeights == [-1] && |games| == 1 && games[0].homeWin == 0.9
    ensures Suggestible(pool, games) && TwoTeams(games) && !SuggestionIsBest(pool, games, [], 0.1)
  {
    hide SortWeights, Suggestible, WeightsFor, SuggestionIsBest;
    pool, games := ExamplePool([-1]), [ExampleGame(1, "NYJ", "BUF", 0.9)];
    SuggestibleExample([-1], games);
    assert !Tied(pool.rules, games[0]);
    assert games[..0] == [];
    assert TiedGames(pool.rules, games) == 0;
    var ws := WeightsFor(pool.rules, 1);
    assert ws[0] < 0;
    SuggestedCardIsBestExactlyWhen(pool, games, [], 0.1);
  }

  /** A tied game takes the weight below zero, and the card is still not the best one. */
  lemma OutweighedTieMisleads() returns (pool: Pool, games: seq<Game>)
    ensures pool.rules.confidenceWeights == [-5, 1] && |games| == 2 && games[0].homeWin == 0.5 && games[1].homeWin == 0.9
    ensures Suggestible(pool, games) && TwoTeams(games) && !SuggestionIsBest(pool, games, [], 0.1)
  {
    hide SortWeights, Suggestible, WeightsFor, SuggestionIsBest, TiedGames;
    pool, games := ExamplePool([-5, 1]), [ExampleGame(1, "MIA", "NE", 0.5), ExampleGame(2, "NYJ", "BUF", 0.9)];
    SuggestibleExample([-5, 1], games);
    OneOfTwoTied(pool.rules, games[0], games[1]);
    var ws := WeightsFor(pool.rules, 2);
    assert ws[0] < 0 && ws[0] + ws[1] < 0;
    SuggestedCardIsBestExactlyWhen(pool, games, [], 0.1);
  }
}
