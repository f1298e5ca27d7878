/**
  What the two pool cards of a week name, read off the games and the rules: the likelier team of each game, and the
  heavier weight for the likelier game.
*/
module CardChances {
  import opened Sorting
  import opened PoolModel
  import opened ConfidenceCard
  import opened WeeklyCard
  import opened Suggestions
  import opened ChanceLaws

  // ---------------------------------------------------------------- the rows of a card

  /** Numbers from zero up to `n`, each once. */
  ghost predicate IsOrderOf(places: seq<nat>, n: nat) {
    && |places| == n
    && (forall i :: 0 <= i < n ==> places[i] < n)
    && forall i, j :: 0 <= i < j < n ==> places[i] != places[j]
  }

  /** The row is for the team of the game, with its chance. */
  ghost predicate RowIsFor(rules: Rules, g: Game, r: CardRow) {
    r.gameId == g.id && (r.team == g.away || r.team == g.home) && HasChance(rules, g, r.team, r.probability)
  }

  /** The configured weights, or one up to the number of rows, from the heaviest down. */
  ghost predicate WeightsDescend(rules: Rules, rows: seq<CardRow>) {
    && (forall i, j :: 0 <= i < j < |rows| ==> rows[i].weight > rows[j].weight)
    && (if rules.confidenceWeights == [] then forall i :: 0 <= i < |rows| ==> rows[i].weight == |rows| - i
        else multiset(Weights(rows)) == multiset(rules.confidenceWeights))
  }

  ghost function Weights(rows: seq<CardRow>): (ws: seq<int>)
    ensures |ws| == |rows| && forall i :: 0 <= i < |rows| ==> ws[i] == rows[i].weight
  {
    seq(|rows|, i requires 0 <= i < |rows| => rows[i].weight)
  }

  lemma {:induction false} RowAt(cs: seq<Chosen>, ws: seq<int>, i: nat)
    requires |cs| == |ws| && i < |cs|
    ensures |Rows(cs, ws)| == |cs| && Rows(cs, ws)[i] == RowOf(cs[|cs| - 1 - i], ws[|cs| - 1 - i])
  {
    var n := |cs| - 1;
    if n > 0 {
      RowAt(cs[..n], ws[..n], if i > 0 then i - 1 else 0);
    }
  }

  lemma {:induction false} RowCount(cs: seq<Chosen>, ws: seq<int>)
    requires |cs| == |ws|
    ensures |Rows(cs, ws)| == |cs|
  {
    if |cs| > 0 {
      RowCount(cs[..|cs| - 1], ws[..|cs| - 1]);
    }
  }

  lemma {:induction false} RowWeights(cs: seq<Chosen>, ws: seq<int>)
    requires |cs| == |ws|
    ensures multiset(Weights(Rows(cs, ws))) == multiset(ws)
  {
    var n := |cs| - 1;
    if |cs| == 0 {
      assert Weights(Rows(cs, ws)) == [] == ws;
    } else {
      RowWeights(cs[..n], ws[..n]);
      assert Weights(Rows(cs, ws)) == [ws[n]] + Weights(Rows(cs[..n], ws[..n]));
      assert ws == ws[..n] + [ws[n]];
    }
  }

  /** The row at `i` is for the element at `places[i]`, and later rows come from before in the sorted list. */
  ghost predicate RowsFollow(cs: seq<Chosen>, rows: seq<CardRow>, places: seq<nat>, ahead: (Chosen, Chosen) -> bool) {
    && |rows| == |cs| && IsOrderOf(places, |cs|)
    && (forall i :: 0 <= i < |rows| ==> Shows(rows[i], cs[places[i]]))
    && forall i, j :: 0 <= i < j < |rows| ==> Follows(cs, places, i, j, ahead)
  }

  ghost predicate Shows(r: CardRow, c: Chosen) {
    r.gameId == c.game.id && r.team == c.team && r.probability == c.success
  }

  ghost predicate Follows(cs: seq<Chosen>, places: seq<nat>, i: nat, j: nat, ahead: (Chosen, Chosen) -> bool)
    requires IsOrderOf(places, |cs|) && i < |cs| && j < |cs|
  {
    var c, d := cs[places[i]], cs[places[j]];
    ahead(d, c) || (!ahead(c, d) && places[i] > places[j])
  }

  lemma RowsOfSorted(cs: seq<Chosen>, sorted: seq<Chosen>, ws: seq<int>, order: seq<nat>, ahead: (Chosen, Chosen) -> bool)
    returns (places: seq<nat>)
    requires IsSorted(cs, sorted, order, ahead) && |ws| == |cs|
    ensures RowsFollow(cs, Rows(sorted, ws), places, ahead)
  {
    hide Rows;
    var n := |cs|;
    RowCount(sorted, ws);
    places := seq(n, i requires 0 <= i < n => order[n - 1 - i]);
    forall i, j | 0 <= i < j < n ensures places[i] != places[j] {
      assert InTurn(sorted, order, n - 1 - j, n - 1 - i, ahead);
    }
    forall i, j | 0 <= i < j < n ensures Follows(cs, places, i, j, ahead) {
      assert InTurn(sorted, order, n - 1 - j, n - 1 - i, ahead);
    }
    forall i | 0 <= i < n ensures Shows(Rows(sorted, ws)[i], cs[places[i]]) {
      RowAt(sorted, ws, i);
    }
  }

  /** Rows taken from ascending, distinct weights. */
  lemma RowsDescend(rules: Rules, cs: seq<Chosen>)
    requires |cs| == |WeightsFor(rules, |cs|)| && Apart(WeightsFor(rules, |cs|))
    ensures WeightsDescend(rules, Rows(cs, WeightsFor(rules, |cs|)))
  {
    hide WeightsFor, Rows;
    var ws := WeightsFor(rules, |cs|);
    var rows := Rows(cs, ws);
    RowCount(cs, ws);
    RowWeights(cs, ws);
    WeightsAscend(rules, |cs|);
    forall i | 0 <= i < |rows| ensures rows[i].weight == ws[|cs| - 1 - i] {
      RowAt(cs, ws, i);
    }
  }

  // ---------------------------------------------------------------- the recommended card

  /** The first spelling comes after the second in code-point order. */
  ghost predicate ComesAfter(a: string, b: string) {
    exists k :: 0 <= k < |a| && k <= |b| && a[..k] == b[..k] && (k == |b| || a[k] > b[k])
  }

  lemma {:induction false} SpellingOrder(a: string, b: string)
    ensures SpeltAfter(a, b) <==> ComesAfter(a, b)
  {
    if a != "" && b != "" {
      SpellingOrder(a[1..], b[1..]);
      if a[0] == b[0] && ComesAfter(a[1..], b[1..]) {
        var k :| 0 <= k < |a| - 1 && k <= |b| - 1 && a[1..][..k] == b[1..][..k] && (k == |b| - 1 || a[1..][k] > b[1..][k]);
        assert a[..k + 1] == [a[0]] + a[1..][..k] && b[..k + 1] == [b[0]] + b[1..][..k];
        assert ComesAfter(a, b);
      } else if a[0] > b[0] {
        assert a[..0] == b[..0];
      }
      if ComesAfter(a, b) {
        var k :| 0 <= k < |a| && k <= |b| && a[..k] == b[..k] && (k == |b| || a[k] > b[k]);
        if k > 0 {
          assert a[0] == a[..k][0] == b[..k][0] == b[0];
          assert a[1..][..k - 1] == a[..k][1..] == b[..k][1..] == b[1..][..k - 1];
          assert ComesAfter(a[1..], b[1..]);
        }
      }
    } else if a != "" {
      assert a[..0] == b[..0];
    }
  }

  /** The game can still be picked, on a fresh and supported chance. */
  ghost predicate Pickable(pool: Pool, g: Game, now: int) {
    && g.season == pool.season && !g.completed && g.lockedAt.None? && now < g.kickoff
    && g.away != "" && g.home != "" && g.away != g.home
    && now - g.sourceTimestamp <= 4 * 24 * 3600
    && OnEvidence(pool.rules, g)
    && (match pool.rules.basis
        case StraightUp => 0.0 <= g.homeWin <= 1.0
        case AgainstSpread => g.spreadHome.Some? && 0.0 <= g.homeCover <= 1.0)
  }

  lemma PickableProbability(pool: Pool, g: Game, now: int)
    ensures PoolProbability(pool, g, now).Some? <==> Pickable(pool, g, now)
    ensures PoolProbability(pool, g, now).Some? ==>
              PoolProbability(pool, g, now).value == HomeProbability(pool.rules, g)
  {
    KindIsEvidence(pool.rules, g);
  }

  lemma OptionsAre(pool: Pool, g: Game, now: int)
    ensures Options(pool, g, now) != [] <==>
            Pickable(pool, g, now) && (PermittedInCapitals(pool.rules, g.away) || PermittedInCapitals(pool.rules, g.home))
    ensures forall c :: c in Options(pool, g, now) ==>
              (c.team == g.away || c.team == g.home) && PermittedInCapitals(pool.rules, c.team)
              && HasChance(pool.rules, g, c.team, c.success)
    ensures forall team :: Pickable(pool, g, now) && (team == g.away || team == g.home) && PermittedInCapitals(pool.rules, team)
              ==> Candidate(Survival(pool.rules, g, team), team) in Options(pool, g, now)
  {
    hide PoolProbability, Pickable, Success, HasChance, PermittedInCapitals, OffList, Blocked, HomeProbability;
    PickableProbability(pool, g, now);
    CapitalChecks(pool.rules, g.away);
    CapitalChecks(pool.rules, g.home);
    SurvivalIsChance(pool.rules, g, g.away);
    SurvivalIsChance(pool.rules, g, g.home);
  }

  /** No permitted team of the game is likelier, and one just as likely does not come after in spelling. */
  ghost predicate NamesLikelier(rules: Rules, g: Game, r: CardRow) {
    && RowIsFor(rules, g, r) && PermittedInCapitals(rules, r.team)
    && forall team, p :: (team == g.away || team == g.home) && PermittedInCapitals(rules, team) && HasChance(rules, g, team, p)
         ==> p < r.probability || (p == r.probability && !ComesAfter(team, r.team))
  }

  lemma {:induction false} LikeliestIsLast(cs: seq<Candidate>, i: nat)
    requires i < |cs| && cs[i].success == Likeliest(cs).success
    ensures !SpeltAfter(cs[i].team, Likeliest(cs).team)
  {
    var n := |cs| - 1;
    NotAfterItself(cs[n].team);
    if n > 0 {
      assert cs == cs[..n] + [cs[n]];
      var best := Likeliest(cs[..n]);
      if i < n {
        LikeliestIsLast(cs[..n], i);
        if SpeltAfter(cs[n].team, best.team) && SpeltAfter(cs[i].team, cs[n].team) {
          AfterIsTransitive(cs[i].team, cs[n].team, best.team);
        }
      }
    }
  }

  lemma {:induction false} NotAfterItself(a: string)
    ensures !SpeltAfter(a, a)
  {
    if a != "" {
      NotAfterItself(a[1..]);
    }
  }

  lemma {:induction false} AfterIsTransitive(a: string, b: string, c: string)
    requires SpeltAfter(a, b) && SpeltAfter(b, c)
    ensures SpeltAfter(a, c)
  {
    if c != "" && a[0] == b[0] == c[0] {
      AfterIsTransitive(a[1..], b[1..], c[1..]);
    }
  }

  lemma OneChance(rules: Rules, g: Game, team: string, p: real)
    requires HasChance(rules, g, team, p)
    ensures p == Survival(rules, g, team)
  {
  }

  lemma ChoiceIsLikelier(pool: Pool, g: Game, now: int, r: CardRow)
    requires Options(pool, g, now) != []
    requires var c := Likeliest(Options(pool, g, now));
             r.gameId == g.id && r.team == c.team && r.probability == c.success
    ensures NamesLikelier(pool.rules, g, r)
  {
    hide Options, Pickable, HasChance, PermittedInCapitals, SpeltAfter, ComesAfter, Likeliest, Survival;
    var options := Options(pool, g, now);
    OptionsAre(pool, g, now);
    forall team, p | (team == g.away || team == g.home) && PermittedInCapitals(pool.rules, team)
                     && HasChance(pool.rules, g, team, p)
      ensures p < r.probability || (p == r.probability && !ComesAfter(team, r.team))
    {
      OneChance(pool.rules, g, team, p);
      assert Candidate(p, team) in options;
      var i :| 0 <= i < |options| && options[i] == Candidate(p, team);
      if p == r.probability {
        LikeliestIsLast(options, i);
        SpellingOrder(team, r.team);
      }
    }
  }

  /** Likelier games come first, then larger game numbers, then games that are later in the list. */
  ghost predicate CardOrder(rows: seq<CardRow>, places: seq<nat>, i: nat, j: nat)
    requires |places| == |rows| && i < |rows| && j < |rows|
  {
    var r, q := rows[i], rows[j];
    || r.probability > q.probability
    || (r.probability == q.probability && (r.gameId > q.gameId || (r.gameId == q.gameId && places[i] > places[j])))
  }

  /**
    The recommended card has one row for each game. It names the likelier permitted team with its chance, the
    later spelling of two that are level, and gives the likelier game the heavier weight.
  */
  lemma CardNamesLikelierTeams(pool: Pool, games: seq<Game>, now: int) returns (places: seq<nat>)
    requires Recommendable(pool, games, now)
    ensures
      var rows := BestRows(pool, games, now);
      && |rows| == |games| && IsOrderOf(places, |games|)
      && (forall i :: 0 <= i < |rows| ==> NamesLikelier(pool.rules, games[places[i]], rows[i]))
      && (forall i, j :: 0 <= i < j < |rows| ==> CardOrder(rows, places, i, j))
      && WeightsDescend(pool.rules, rows)
  {
    hide Options, Likeliest, SortChosen, WeightsFor, Rows, NamesLikelier, WeightsDescend, OneWeek, IsSorted;
    var cs, n := Choose(pool, games, now), |games|;
    var rows, ws := BestRows(pool, games, now), WeightsFor(pool.rules, n);
    var order := SortChosenAscends(cs);
    RowsDescend(pool.rules, SortChosen(cs));
    places := RowsOfSorted(cs, SortChosen(cs), ws, order, ChosenAhead);
    forall i | 0 <= i < n ensures NamesLikelier(pool.rules, games[places[i]], rows[i]) {
      assert Shows(rows[i], cs[places[i]]);
      ChoiceIsLikelier(pool, games[places[i]], now, rows[i]);
    }
    forall i, j | 0 <= i < j < n ensures CardOrder(rows, places, i, j) {
      assert Shows(rows[i], cs[places[i]]) && Shows(rows[j], cs[places[j]]);
      assert Follows(cs, places, i, j, ChosenAhead);
    }
  }

  // ---------------------------------------------------------------- when there is a card

  ghost predicate AllDifferent(ws: seq<int>) {
    forall i, j :: 0 <= i < |ws| && 0 <= j < |ws| && ws[i] == ws[j] ==> i == j
  }

  lemma {:induction false} DifferentIsOnce(ws: seq<int>)
    ensures Apart(ws) <==> forall w :: multiset(ws)[w] <= 1
  {
    if |ws| > 0 {
      var n := |ws| - 1;
      DifferentIsOnce(ws[..n]);
      assert ws == ws[..n] + [ws[n]];
      if Apart(ws) {
        assert ws[n] !in ws[..n];
      } else if Apart(ws[..n]) {
        var i :| 0 <= i < n && ws[i] == ws[n];
        assert ws[..n][i] == ws[n];
        assert multiset(ws)[ws[n]] >= 2;
      } else {
        var w :| multiset(ws[..n])[w] > 1;
        assert multiset(ws)[w] > 1;
      }
    }
  }

  lemma DifferentWeights(rules: Rules, n: nat)
    ensures |WeightsFor(rules, n)| == n && Apart(WeightsFor(rules, n)) <==>
            rules.confidenceWeights == [] || (|rules.confidenceWeights| == n && AllDifferent(rules.confidenceWeights))
    ensures (forall i :: 0 <= i < |WeightsFor(rules, n)| ==> WeightsFor(rules, n)[i] > 0) <==>
            forall i :: 0 <= i < |rules.confidenceWeights| ==> rules.confidenceWeights[i] > 0
  {
    hide SortWeights;
    var ws, sorted := rules.confidenceWeights, WeightsFor(rules, n);
    if ws != [] {
      DifferentIsOnce(ws);
      DifferentIsOnce(sorted);
      forall i | 0 <= i < |ws| ensures ws[i] in sorted {
        assert ws[i] in multiset(ws);
        assert ws[i] in multiset(sorted);
      }
      forall i | 0 <= i < |ws| ensures sorted[i] in ws {
        assert sorted[i] in multiset(sorted);
        assert sorted[i] in multiset(ws);
      }
    }
  }

  /**
    There is a card exactly when a confidence pool has games of one week that can all be picked, each with a
    permitted team, and the configured weights, if any, are as many, all different and above zero.
  */
  lemma RecommendableExactlyWhen(pool: Pool, games: seq<Game>, now: int)
    ensures
      var ws, rules := pool.rules.confidenceWeights, pool.rules;
      Recommendable(pool, games, now) <==>
        && pool.poolType == Confidence && games != []
        && (forall i, j :: 0 <= i < j < |games| ==> games[i].week == games[j].week)
        && (forall g :: g in games ==>
              Pickable(pool, g, now) && (PermittedInCapitals(rules, g.away) || PermittedInCapitals(rules, g.home)))
        && (ws == [] || (|ws| == |games| && AllDifferent(ws) && forall i :: 0 <= i < |ws| ==> ws[i] > 0))
  {
    hide WeightsFor, Options, PermittedInCapitals, Pickable;
    DifferentWeights(pool.rules, |games|);
    forall g | g in games
      ensures Options(pool, g, now) != [] <==>
              Pickable(pool, g, now) && (PermittedInCapitals(pool.rules, g.away) || PermittedInCapitals(pool.rules, g.home))
    {
      OptionsAre(pool, g, now);
    }
  }

  // ---------------------------------------------------------------- the suggestions

  /** The team plays the later game, and its chance there rests on evidence. */
  ghost predicate LaterChance(rules: Rules, later: seq<Game>, team: string, p: real) {
    exists g :: g in later && (team == g.away || team == g.home) && OnEvidence(rules, g) && HasChance(rules, g, team, p)
  }

  /** The team's best chance in the later games, at least zero. */
  ghost predicate IsPeak(rules: Rules, later: seq<Game>, team: string, peak: real) {
    && peak >= 0.0 && (peak == 0.0 || LaterChance(rules, later, team, peak))
    && forall p :: LaterChance(rules, later, team, p) ==> p <= peak
  }

  lemma {:induction false} FuturePeakIsPeak(rules: Rules, later: seq<Game>, team: string)
    ensures IsPeak(rules, later, team, FuturePeak(rules, later, team))
  {
    hide HasChance, Survival, KindFor, Supported, OnEvidence;
    if |later| > 0 {
      var front, g := later[..|later| - 1], later[|later| - 1];
      FuturePeakIsPeak(rules, front, team);
      KindIsEvidence(rules, g);
      SurvivalIsChance(rules, g, team);
      var before, peak := FuturePeak(rules, front, team), FuturePeak(rules, later, team);
      forall p | LaterChance(rules, later, team, p) ensures p <= peak {
        var h :| h in later && (team == h.away || team == h.home) && OnEvidence(rules, h) && HasChance(rules, h, team, p);
        if h in front {
          assert LaterChance(rules, front, team, p);
        } else {
          OneChance(rules, g, team, p);
        }
      }
      if peak == before && before != 0.0 {
        var h :| h in front && (team == h.away || team == h.home) && OnEvidence(rules, h) && HasChance(rules, h, team, peak);
        assert h in later;
      } else if peak != before {
        assert g in later && HasChance(rules, g, team, peak);
      }
    }
  }

  /** Between level teams: the home team only if its future is worth less, both under the weight of the future. */
  ghost predicate BreaksTie(rules: Rules, later: seq<Game>, futureWeight: real, g: Game, team: string) {
    forall a, h :: IsPeak(rules, later, g.away, a) && IsPeak(rules, later, g.home, h) ==>
      (team == g.home && g.home != g.away <==> h * futureWeight < a * futureWeight)
  }

  /** Neither team of the game is likelier than the suggested one. */
  ghost predicate SuggestsLikelier(rules: Rules, later: seq<Game>, futureWeight: real, g: Game, r: CardRow) {
    && RowIsFor(rules, g, r)
    && (forall team, p :: (team == g.away || team == g.home) && HasChance(rules, g, team, p) ==> p <= r.probability)
    && (HasChance(rules, g, g.away, r.probability) && HasChance(rules, g, g.home, r.probability) ==>
          BreaksTie(rules, later, futureWeight, g, r.team))
  }

  lemma OnePeak(rules: Rules, later: seq<Game>, team: string, peak: real)
    requires IsPeak(rules, later, team, peak)
    ensures peak == FuturePeak(rules, later, team)
  {
    hide FuturePeak;
    FuturePeakIsPeak(rules, later, team);
  }

  lemma TopIsLikelier(rules: Rules, later: seq<Game>, futureWeight: real, g: Game, r: CardRow)
    requires var c := TopTeam(rules, later, futureWeight, g);
             r.gameId == g.id && r.team == c.team && r.probability == c.success
    ensures SuggestsLikelier(rules, later, futureWeight, g, r)
  {
    hide FuturePeak, HasChance, Survival, IsPeak;
    SurvivalIsChance(rules, g, r.team);
    forall team, p | (team == g.away || team == g.home) && HasChance(rules, g, team, p) ensures p <= r.probability {
      OneChance(rules, g, team, p);
    }
    if HasChance(rules, g, g.away, r.probability) && HasChance(rules, g, g.home, r.probability) {
      OneChance(rules, g, g.away, r.probability);
      OneChance(rules, g, g.home, r.probability);
      forall a, h | IsPeak(rules, later, g.away, a) && IsPeak(rules, later, g.home, h)
        ensures r.team == g.home && g.home != g.away <==> h * futureWeight < a * futureWeight
      {
        OnePeak(rules, later, g.away, a);
        OnePeak(rules, later, g.home, h);
      }
    }
  }

  /** Suggestions are made exactly for a confidence pool whose games all rest on evidence, with weights that fit. */
  lemma SuggestibleExactlyWhen(pool: Pool, games: seq<Game>)
    ensures
      var ws := pool.rules.confidenceWeights;
      Suggestible(pool, games) <==>
        && pool.poolType == Confidence
        && (forall g :: g in games ==>
              OnEvidence(pool.rules, g) && (pool.rules.basis == AgainstSpread ==> g.spreadHome.Some?))
        && (ws == [] || (|ws| == |games| && AllDifferent(ws)))
  {
    hide WeightsFor, OnEvidence, Apart;
    DifferentWeights(pool.rules, |games|);
    forall g | g in games
      ensures Rated(pool.rules, g) <==>
              OnEvidence(pool.rules, g) && (pool.rules.basis == AgainstSpread ==> g.spreadHome.Some?)
    {
      KindIsEvidence(pool.rules, g);
    }
  }

  /** Likelier games come first, then games that are later in the list. */
  ghost predicate SuggestedOrder(rows: seq<CardRow>, places: seq<nat>, i: nat, j: nat)
    requires |places| == |rows| && i < |rows| && j < |rows|
  {
    var r, q := rows[i], rows[j];
    r.probability > q.probability || (r.probability == q.probability && places[i] > places[j])
  }

  /** One row for each game, with its likelier team; the likelier game has the heavier weight. */
  lemma SuggestionsNameLikelierTeams(pool: Pool, games: seq<Game>, later: seq<Game>, futureWeight: real)
    returns (places: seq<nat>)
    requires Suggestible(pool, games)
    ensures
      var rows := SuggestedRows(pool, games, later, futureWeight);
      && |rows| == |games| && IsOrderOf(places, |games|)
      && (forall i :: 0 <= i < |rows| ==>
            SuggestsLikelier(pool.rules, later, futureWeight, games[places[i]], rows[i]))
      && (forall i, j :: 0 <= i < j < |rows| ==> SuggestedOrder(rows, places, i, j))
      && WeightsDescend(pool.rules, rows)
  {
    hide TopTeam, SortStable, WeightsFor, Rows, SuggestsLikelier, WeightsDescend, Rated, IsSorted;
    var cs, n := Tops(pool.rules, later, futureWeight, games), |games|;
    var rows, ws := SuggestedRows(pool, games, later, futureWeight), WeightsFor(pool.rules, n);
    var order := SortStableAscends(cs);
    RowsDescend(pool.rules, SortStable(cs));
    places := RowsOfSorted(cs, SortStable(cs), ws, order, LessLikely);
    forall i | 0 <= i < n ensures SuggestsLikelier(pool.rules, later, futureWeight, games[places[i]], rows[i]) {
      assert Shows(rows[i], cs[places[i]]);
      TopIsLikelier(pool.rules, later, futureWeight, games[places[i]], rows[i]);
    }
    forall i, j | 0 <= i < j < n ensures SuggestedOrder(rows, places, i, j) {
      assert Shows(rows[i], cs[places[i]]) && Shows(rows[j], cs[places[j]]);
      assert Follows(cs, places, i, j, LessLikely);
    }
  }
}
