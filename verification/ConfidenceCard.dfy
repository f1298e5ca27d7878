/**
  The one-week confidence card: each game's likelier permitted team, the likelier the
  heavier. No other choice of permitted teams and no other use of the weights is worth more.
*/
module ConfidenceCard {
  import opened Wrappers
  import opened Flow
  import opened PoolModel
  import opened Rearrangement
  import opened Sequences
  import opened Sorting

  /** A team and the probability that picking it succeeds. */
  datatype Candidate = Candidate(success: real, team: string)

  datatype Chosen = Chosen(success: real, game: Game, team: string)

  datatype CardRow = CardRow(gameId: int, team: string, probability: real, weight: int)

  /** The home probability of a game that can still be picked on current, supported evidence. */
  function PoolProbability(pool: Pool, g: Game, now: int): Option<real> {
    var p := HomeProbability(pool.rules, g);
    var kind := KindFor(pool.rules, g);
    if || g.season != pool.season || g.completed || GameLocked(g, now)
       || g.away == "" || g.home == "" || g.away == g.home
       || now - g.sourceTimestamp > STALE_SECONDS
       || (pool.rules.basis.AgainstSpread? && g.spreadHome.None?)
       || !Supported(kind)
       || !(0.0 <= p <= 1.0)
    then None
    else Some(p)
  }

  predicate Forbidden(rules: Rules, team: string) {
    OffList(rules, team) || Blocked(rules, team)
  }

  /** The permitted teams of a game, away first. */
  function Candidates(rules: Rules, g: Game, home: real): seq<Candidate> {
    (if Forbidden(rules, g.away) then [] else [Candidate(Success(rules, g, home, g.away), g.away)])
    + (if Forbidden(rules, g.home) then [] else [Candidate(Success(rules, g, home, g.home), g.home)])
  }

  /** Spellings in code-point order. */
  predicate SpeltAfter(a: string, b: string) {
    if a == "" then false
    else if b == "" then true
    else if a[0] != b[0] then a[0] > b[0]
    else SpeltAfter(a[1..], b[1..])
  }

  function Better(c: Candidate, d: Candidate): Candidate {
    if d.success > c.success || (d.success == c.success && SpeltAfter(d.team, c.team)) then d else c
  }

  function Likeliest(cs: seq<Candidate>): (c: Candidate)
    requires cs != []
    ensures c in cs
    ensures forall d :: d in cs ==> d.success <= c.success
  {
    if |cs| == 1 then cs[0]
    else
      var n := |cs| - 1;
      assert cs == cs[..n] + [cs[n]];
      Better(Likeliest(cs[..n]), cs[n])
  }

  /** What the card may pick in a game; nothing when the game cannot be picked. */
  function Options(pool: Pool, g: Game, now: int): seq<Candidate> {
    match PoolProbability(pool, g, now)
    case None => []
    case Some(home) => Candidates(pool.rules, g, home)
  }

  // ---------------------------------------------------------------- sorting

  /** Less likely first, then the smaller game number. */
  predicate ChosenAhead(a: Chosen, b: Chosen) {
    a.success < b.success || (a.success == b.success && a.game.id < b.game.id)
  }

  function SortChosen(s: seq<Chosen>): (r: seq<Chosen>)
    ensures |r| == |s| && multiset(r) == multiset(s)
  {
    SortBy(s, ChosenAhead)
  }

  function Successes(s: seq<Chosen>): (ps: seq<real>)
    ensures |ps| == |s| && forall i :: 0 <= i < |s| ==> ps[i] == s[i].success
  {
    seq(|s|, i requires 0 <= i < |s| => s[i].success)
  }

  lemma SortChosenAscends(s: seq<Chosen>) returns (places: seq<nat>)
    ensures IsSorted(s, SortChosen(s), places, ChosenAhead) && Ascending(Successes(SortChosen(s)))
  {
    places := SortIsSorted(s, ChosenAhead);
    var r := SortChosen(s);
    forall i, j | 0 <= i < j < |r| ensures r[i].success <= r[j].success {
      assert InTurn(r, places, i, j, ChosenAhead);
    }
  }

  predicate Lighter(v: int, w: int) {
    v < w
  }

  function SortWeights(ws: seq<int>): (r: seq<int>)
    ensures |r| == |ws| && multiset(r) == multiset(ws)
  {
    SortBy(ws, Lighter)
  }

  lemma SortWeightsAscends(ws: seq<int>)
    ensures AscendingInts(SortWeights(ws))
  {
    var places := SortIsSorted(ws, Lighter);
    var r := SortWeights(ws);
    forall i, j | 0 <= i < j < |r| ensures r[i] <= r[j] {
      assert InTurn(r, places, i, j, Lighter);
    }
  }

  // ---------------------------------------------------------------- the card

  /** The configured weights, or one up to the number of games. */
  function WeightsFor(rules: Rules, n: nat): (ws: seq<int>)
    ensures if rules.confidenceWeights == [] then ws == seq(n, i => i + 1)
            else multiset(ws) == multiset(rules.confidenceWeights)
  {
    if rules.confidenceWeights != [] then SortWeights(rules.confidenceWeights) else seq(n, i => i + 1)
  }

  predicate UsableWeights(ws: seq<int>, n: nat) {
    && |ws| == n
    && (forall i, j :: 0 <= i < j < |ws| ==> ws[i] != ws[j])
    && (forall i :: 0 <= i < |ws| ==> ws[i] > 0)
  }

  lemma WeightsAscend(rules: Rules, n: nat)
    ensures AscendingInts(WeightsFor(rules, n))
  {
    SortWeightsAscends(rules.confidenceWeights);
  }

  predicate OneWeek(games: seq<Game>) {
    forall i :: 0 <= i < |games| ==> games[i].week == games[0].week
  }

  /** The card can be recommended: one week, every game open with a permitted team, weights that fit. */
  predicate Recommendable(pool: Pool, games: seq<Game>, now: int) {
    && pool.poolType.Confidence? && games != [] && OneWeek(games)
    && (forall i :: 0 <= i < |games| ==> Options(pool, games[i], now) != [])
    && UsableWeights(WeightsFor(pool.rules, |games|), |games|)
  }

  function Choose(pool: Pool, games: seq<Game>, now: int): (cs: seq<Chosen>)
    requires forall i :: 0 <= i < |games| ==> Options(pool, games[i], now) != []
    ensures |cs| == |games|
    ensures forall i :: 0 <= i < |games| ==>
              var c := Likeliest(Options(pool, games[i], now)); cs[i] == Chosen(c.success, games[i], c.team)
  {
    seq(|games|, i requires 0 <= i < |games| =>
      var c := Likeliest(Options(pool, games[i], now)); Chosen(c.success, games[i], c.team))
  }

  function RowOf(c: Chosen, w: int): CardRow {
    CardRow(c.game.id, c.team, c.success, w)
  }

  /** Heaviest first. */
  function Rows(cs: seq<Chosen>, ws: seq<int>): seq<CardRow>
    requires |cs| == |ws|
  {
    if |cs| == 0 then []
    else [RowOf(cs[|cs| - 1], ws[|ws| - 1])] + Rows(cs[..|cs| - 1], ws[..|ws| - 1])
  }

  function ExpectedPoints(rows: seq<CardRow>): real {
    if |rows| == 0 then 0.0 else Times(rows[0].weight, rows[0].probability) + ExpectedPoints(rows[1..])
  }

  lemma {:induction false} RowsAreDot(cs: seq<Chosen>, ws: seq<int>)
    requires |cs| == |ws|
    ensures ExpectedPoints(Rows(cs, ws)) == Dot(Successes(cs), ws)
  {
    if |cs| != 0 {
      var n := |cs| - 1;
      RowsAreDot(cs[..n], ws[..n]);
      assert Successes(cs)[..n] == Successes(cs[..n]);
      assert Rows(cs, ws)[1..] == Rows(cs[..n], ws[..n]);
    }
  }

  /** The likeliest permitted team of each game, unless some game has none. */
  method ChooseAll(pool: Pool, games: seq<Game>, now: int) returns (ok: bool, choices: seq<Chosen>)
    ensures ok <==> forall i :: 0 <= i < |games| ==> Options(pool, games[i], now) != []
    ensures ok ==> choices == Choose(pool, games, now)
  {
    hide Options;
    choices := [];
    for i := 0 to |games|
      invariant forall k :: 0 <= k < i ==> Options(pool, games[k], now) != []
      invariant choices == Choose(pool, games[..i], now)
    {
      var options := Options(pool, games[i], now);
      if options == [] {
        ok := false;
        return;
      }
      var c := Likeliest(options);
      choices := choices + [Chosen(c.success, games[i], c.team)];
    }
    assert games[..|games|] == games;
    ok := true;
  }

  method PairUp(choices: seq<Chosen>, weights: seq<int>) returns (output: seq<CardRow>)
    requires |choices| == |weights|
    ensures output == Rows(choices, weights)
  {
    output := [];
    for i := 0 to |choices|
      invariant output == Rows(choices[..i], weights[..i])
    {
      assert choices[..i + 1][..i] == choices[..i] && weights[..i + 1][..i] == weights[..i];
      output := [RowOf(choices[i], weights[i])] + output;
    }
    assert choices[..|choices|] == choices && weights[..|weights|] == weights;
  }

  /** The recommended card: empty when it cannot be made. */
  method ConfidenceRecommendations(pool: Pool, games: seq<Game>, now: int) returns (output: seq<CardRow>)
    ensures !Recommendable(pool, games, now) ==> output == []
    ensures Recommendable(pool, games, now) ==> output == BestRows(pool, games, now)
  {
    hide Options, OneWeek, UsableWeights, SortChosen, Rows;
    output := [];
    if !pool.poolType.Confidence? || games == [] || !OneWeek(games) {
      return;
    }
    var ok, choices := ChooseAll(pool, games, now);
    var weights := WeightsFor(pool.rules, |games|);
    if !ok || !UsableWeights(weights, |games|) {
      return;
    }
    UsableCount(weights, |games|);
    output := PairUp(SortChosen(choices), weights);
  }

  lemma UsableCount(ws: seq<int>, n: nat)
    requires UsableWeights(ws, n)
    ensures |ws| == n
  {
  }

  /** The likeliest teams in ascending order against the weights in ascending order. */
  function BestRows(pool: Pool, games: seq<Game>, now: int): seq<CardRow>
    requires Recommendable(pool, games, now)
  {
    Rows(SortChosen(Choose(pool, games, now)), WeightsFor(pool.rules, |games|))
  }

  ghost predicate HasOption(pool: Pool, g: Game, now: int, success: real) {
    exists c :: c in Options(pool, g, now) && c.success == success
  }

  /** Another way to fill the card: for each game the success of some permitted team, and a weight. */
  ghost predicate OtherCard(pool: Pool, games: seq<Game>, now: int, qs: seq<real>, ws: seq<int>) {
    && |qs| == |ws| == |games|
    && (forall i :: 0 <= i < |games| ==> HasOption(pool, games[i], now, qs[i]))
    && multiset(ws) == multiset(WeightsFor(pool.rules, |games|))
  }

  lemma SuccessMultiset(a: seq<Chosen>, b: seq<Chosen>)
    requires multiset(a) == multiset(b)
    ensures multiset(Successes(a)) == multiset(Successes(b))
  {
    MappedMultiset(a, b, (c: Chosen) => c.success);
    assert Mapped(a, (c: Chosen) => c.success) == Successes(a);
    assert Mapped(b, (c: Chosen) => c.success) == Successes(b);
  }

  lemma OptionAtMostLikeliest(pool: Pool, g: Game, now: int, q: real)
    requires HasOption(pool, g, now, q)
    ensures Options(pool, g, now) != [] && q <= Likeliest(Options(pool, g, now)).success
  {
    hide Options;
    var c :| c in Options(pool, g, now) && c.success == q;
  }

  lemma OthersAreBelow(pool: Pool, games: seq<Game>, now: int, qs: seq<real>, ws: seq<int>, i: nat)
    requires Recommendable(pool, games, now) && OtherCard(pool, games, now, qs, ws) && i < |games|
    ensures ws[i] >= 0 && qs[i] <= Successes(Choose(pool, games, now))[i]
  {
    hide Options, WeightsFor, HasOption;
    assert ws[i] in multiset(ws);
    assert ws[i] in WeightsFor(pool.rules, |games|);
    OptionAtMostLikeliest(pool, games[i], now, qs[i]);
  }

  /** Pairing both sides in ascending order beats smaller values under any order of the same weights. */
  lemma SortedCardIsBest(cs: seq<Chosen>, sorted: seq<Chosen>, weights: seq<int>, qs: seq<real>, ws: seq<int>)
    requires |cs| == |weights| == |qs| == |ws| == |sorted|
    requires multiset(sorted) == multiset(cs) && Ascending(Successes(sorted))
    requires AscendingInts(weights) && multiset(ws) == multiset(weights)
    requires forall i :: 0 <= i < |ws| ==> Times(ws[i], qs[i]) <= Times(ws[i], Successes(cs)[i])
    ensures Dot(qs, ws) <= ExpectedPoints(Rows(sorted, weights))
  {
    hide *;
    DotBelow(qs, ws, Successes(cs), ws);
    SuccessMultiset(sorted, cs);
    SortedPairingIsBest(Successes(sorted), weights, Successes(cs), ws);
    RowsAreDot(sorted, weights);
  }

  /** The recommended card is worth at least any other choice of permitted teams and use of the weights. */
  lemma CardIsBest(pool: Pool, games: seq<Game>, now: int, qs: seq<real>, ws: seq<int>)
    requires Recommendable(pool, games, now) && OtherCard(pool, games, now, qs, ws)
    ensures Dot(qs, ws) <= ExpectedPoints(BestRows(pool, games, now))
  {
    hide Dot, ExpectedPoints, SortChosen, Rows, Options, HasOption, WeightsFor, Times;
    var cs := Choose(pool, games, now);
    forall i | 0 <= i < |ws| ensures Times(ws[i], qs[i]) <= Times(ws[i], Successes(cs)[i]) {
      OthersAreBelow(pool, games, now, qs, ws, i);
      TimesRaises(ws[i], qs[i], Successes(cs)[i]);
    }
    WeightsAscend(pool.rules, |games|);
    var _ := SortChosenAscends(cs);
    SortedCardIsBest(cs, SortChosen(cs), WeightsFor(pool.rules, |games|), qs, ws);
  }
}
