/**
  What a best plan means in the words of the pool: the whole card, saved and new picks
  together, obeys the rules; it is complete exactly when the rules allow a complete one;
  and without an overlap penalty no other plan of its size survives more often.
*/
module PlanLaws {
  import opened Wrappers
  import opened Flow
  import opened PlanFlow
  import opened Sequences
  import opened PoolModel
  import opened PoolOutcomes
  import opened SeasonPlan
  import opened Allocator

  /** Plans the rules allow on top of the saved picks, stated without the network. */
  ghost predicate RulesAllow(s: Setting, picks: seq<Pick>, plan: Plan) {
    var open := OpenGames(s, picks, s.games);
    && FitsGames(open, plan)
    && (forall w :: w in Weeks(s.startWeek) ==>
          FixedCount(picks, s.startWeek, w) + WeekLoad(open, plan, w) <= s.pool.rules.picksPerWeek)
    && (UseLimit(s.pool.rules).Some? ==>
          forall t :: t in TeamList(s.games) ==>
            Used(picks, s.startWeek, t) + TeamLoad(open, plan, t) <= UseLimit(s.pool.rules).value)
  }

  /** Every week to plan has all its picks. */
  ghost predicate FillsEveryWeek(s: Setting, picks: seq<Pick>, plan: Plan) {
    var open := OpenGames(s, picks, s.games);
    && |plan| == |open|
    && forall w :: w in Weeks(s.startWeek) ==>
         FixedCount(picks, s.startWeek, w) + WeekLoad(open, plan, w) == s.pool.rules.picksPerWeek
  }

  // ---------------------------------------------------------------- weekly loads

  lemma {:induction false} NoWeekLoad(weeks: seq<WeekNeed>)
    ensures Sum(WeekFlow(weeks, [], [])) == 0
  {
    if |weeks| != 0 {
      NoWeekLoad(weeks[..|weeks| - 1]);
      assert WeekFlow(weeks, [], [])[..|weeks| - 1] == WeekFlow(weeks[..|weeks| - 1], [], []);
    }
  }

  /** Every pick belongs to exactly one week. */
  lemma {:induction false} WeekLoadsAddUp(p: Problem, open: seq<OpenGame>, plan: Plan)
    requires WellFormed(p) && open <= p.open && FitsGames(open, plan)
    ensures Sum(WeekFlow(p.weeks, open, plan)) == Size(plan)
  {
    if |open| == 0 {
      NoWeekLoad(p.weeks);
    } else {
      var n := |open| - 1;
      assert open[..n] <= p.open;
      WeekLoadsAddUp(p, open[..n], plan[..n]);
      var before, after := WeekFlow(p.weeks, open[..n], plan[..n]), WeekFlow(p.weeks, open, plan);
      if plan[n].Some? {
        assert KnownGame(p, p.open[n]) && open[n] == p.open[n];
        var w :| 0 <= w < |p.weeks| && p.weeks[w].week == open[n].week;
        assert after == before[w := before[w] + 1];
        SumBump(before, after, w);
      } else {
        assert after == before;
      }
    }
  }

  lemma {:induction false} LoadsWithinNeeds(needs: seq<WeekNeed>, loads: seq<int>)
    requires |needs| == |loads| && forall w :: 0 <= w < |needs| ==> loads[w] <= needs[w].cap
    ensures Sum(loads) <= Required(needs)
    ensures Sum(loads) == Required(needs) <==> forall w :: 0 <= w < |needs| ==> loads[w] == needs[w].cap
  {
    if |needs| != 0 {
      LoadsWithinNeeds(needs[..|needs| - 1], loads[..|needs| - 1]);
    }
  }

  lemma {:induction false} TeamLoadAtMostSize(open: seq<OpenGame>, plan: Plan, team: string)
    requires FitsGames(open, plan)
    ensures TeamLoad(open, plan, team) <= Size(plan)
  {
    if |open| != 0 {
      TeamLoadAtMostSize(open[..|open| - 1], plan[..|open| - 1], team);
    }
  }

  // ---------------------------------------------------------------- legality, both ways

  lemma WeekWithinLimit(s: Setting, entry: Entry, week: int)
    requires Plannable(s, entry)
    ensures FixedCount(entry.picks, s.startWeek, week) <= s.pool.rules.picksPerWeek
  {
    var fixed := Fixed(entry.picks, s.startWeek);
    if FixedCount(entry.picks, s.startWeek, week) > s.pool.rules.picksPerWeek {
      var i := CountWitness(fixed, (p: Pick) => p.week == week);
    }
  }

  lemma {:induction false} CountWitness<T>(s: seq<T>, f: T -> bool) returns (i: nat)
    requires Count(s, f) > 0
    ensures i < |s| && f(s[i])
  {
    if f(s[|s| - 1]) {
      i := |s| - 1;
    } else {
      i := CountWitness(s[..|s| - 1], f);
    }
  }

  lemma TeamWithinLimit(s: Setting, entry: Entry, team: string)
    requires Plannable(s, entry) && UseLimit(s.pool.rules).Some?
    ensures Used(entry.picks, s.startWeek, team) <= UseLimit(s.pool.rules).value
  {
    if Used(entry.picks, s.startWeek, team) > UseLimit(s.pool.rules).value {
      var i := CountWitness(entry.picks,
        (p: Pick) => p.team == team && (p.week < s.startWeek || IsFixed(p, s.startWeek)));
    }
  }

  lemma NeedIsExact(s: Setting, entry: Entry, w: nat)
    requires Plannable(s, entry) && w < |Weeks(s.startWeek)|
    ensures ProblemOf(s, entry.picks).weeks[w].week == Weeks(s.startWeek)[w]
    ensures ProblemOf(s, entry.picks).weeks[w].cap ==
            s.pool.rules.picksPerWeek - FixedCount(entry.picks, s.startWeek, Weeks(s.startWeek)[w])
  {
    WeekWithinLimit(s, entry, Weeks(s.startWeek)[w]);
  }

  /** A legal plan never exceeds what the weeks still need, and is full exactly when it fills every week. */
  lemma LegalSize(s: Setting, entry: Entry, plan: Plan)
    requires ValidSetting(s) && Plannable(s, entry)
    requires var p := ProblemOf(s, entry.picks);
             FitsGames(p.open, plan)
             && forall w :: 0 <= w < |p.weeks| ==> WeekLoad(p.open, plan, p.weeks[w].week) <= p.weeks[w].cap
    ensures var required := Required(ProblemOf(s, entry.picks).weeks);
            && Size(plan) <= required
            && (Size(plan) == required <==> FillsEveryWeek(s, entry.picks, plan))
  {
    var p := ProblemOf(s, entry.picks);
    ProblemIsWellFormed(s, entry.picks);
    WeekLoadsAddUp(p, p.open, plan);
    LoadsWithinNeeds(p.weeks, WeekFlow(p.weeks, p.open, plan));
    forall w | 0 <= w < |p.weeks|
      ensures p.weeks[w].week == Weeks(s.startWeek)[w]
      ensures p.weeks[w].cap == s.pool.rules.picksPerWeek - FixedCount(entry.picks, s.startWeek, p.weeks[w].week)
    {
      NeedIsExact(s, entry, w);
    }
    if FillsEveryWeek(s, entry.picks, plan) {
      forall w | 0 <= w < |p.weeks| ensures WeekLoad(p.open, plan, p.weeks[w].week) == p.weeks[w].cap {
        assert p.weeks[w].week in Weeks(s.startWeek);
      }
    }
  }

  lemma LegalIsAllowed(s: Setting, entry: Entry, plan: Plan)
    requires ValidSetting(s) && Plannable(s, entry) && Legal(ProblemOf(s, entry.picks), plan)
    ensures RulesAllow(s, entry.picks, plan)
  {
    var p := ProblemOf(s, entry.picks);
    forall w | w in Weeks(s.startWeek)
      ensures FixedCount(entry.picks, s.startWeek, w) + WeekLoad(p.open, plan, w) <= s.pool.rules.picksPerWeek
    {
      var i :| 0 <= i < |Weeks(s.startWeek)| && Weeks(s.startWeek)[i] == w;
      NeedIsExact(s, entry, i);
    }
    if UseLimit(s.pool.rules).Some? {
      forall t | t in TeamList(s.games)
        ensures Used(entry.picks, s.startWeek, t) + TeamLoad(p.open, plan, t) <= UseLimit(s.pool.rules).value
      {
        TeamWithinLimit(s, entry, t);
        var i :| 0 <= i < |TeamList(s.games)| && TeamList(s.games)[i] == t;
        assert p.teams[i].team == t;
      }
    }
  }

  lemma AllowedIsLegal(s: Setting, entry: Entry, plan: Plan)
    requires ValidSetting(s) && Plannable(s, entry) && RulesAllow(s, entry.picks, plan)
    ensures Legal(ProblemOf(s, entry.picks), plan)
  {
    var p := ProblemOf(s, entry.picks);
    forall w | 0 <= w < |p.weeks|
      ensures WeekLoad(p.open, plan, p.weeks[w].week) <= p.weeks[w].cap
    {
      NeedIsExact(s, entry, w);
      assert p.weeks[w].week in Weeks(s.startWeek);
    }
    LegalSize(s, entry, plan);
    forall t | 0 <= t < |p.teams|
      ensures TeamLoad(p.open, plan, p.teams[t].team) <= p.teams[t].cap
    {
      TeamLoadAtMostSize(p.open, plan, p.teams[t].team);
      assert p.teams[t].team == TeamList(s.games)[t];
      assert p.teams[t].team in TeamList(s.games);
    }
  }

  /** The network knows exactly the plans the rules allow. */
  lemma LegalIffAllowed(s: Setting, entry: Entry, plan: Plan)
    requires ValidSetting(s) && Plannable(s, entry)
    ensures Legal(ProblemOf(s, entry.picks), plan) <==> RulesAllow(s, entry.picks, plan)
  {
    if Legal(ProblemOf(s, entry.picks), plan) {
      LegalIsAllowed(s, entry, plan);
    }
    if RulesAllow(s, entry.picks, plan) {
      AllowedIsLegal(s, entry, plan);
    }
  }

  /** A best plan fills every slot exactly when some plan the rules allow does. */
  lemma CompleteIffPossible(s: Setting, entry: Entry, plan: Plan)
    requires ValidSetting(s) && Plannable(s, entry)
    requires var p := ProblemOf(s, entry.picks); BestPlan(p, plan, Required(p.weeks))
    ensures Size(plan) == Required(ProblemOf(s, entry.picks).weeks) <==>
            exists q :: RulesAllow(s, entry.picks, q) && FillsEveryWeek(s, entry.picks, q)
  {
    var p := ProblemOf(s, entry.picks);
    LegalSize(s, entry, plan);
    LegalIsAllowed(s, entry, plan);
    if q :| RulesAllow(s, entry.picks, q) && FillsEveryWeek(s, entry.picks, q) {
      AllowedIsLegal(s, entry, q);
      LegalSize(s, entry, q);
    }
  }

  // ---------------------------------------------------------------- the whole card

  /** Saved picks first, then the new ones. */
  ghost function Card(s: Setting, picks: seq<Pick>, plan: Plan): seq<PlanItem>
    requires FitsGames(OpenGames(s, picks, s.games), plan)
    requires forall p :: p in Fixed(picks, s.startWeek) ==> NamesItsGame(s.games, p)
  {
    assert forall p :: p in Fixed(picks, s.startWeek) ==> NamesItsGame(s.games, p) && p.gameId.Some?;
    SavedItems(Fixed(picks, s.startWeek)) + NewItems(OpenGames(s, picks, s.games), plan)
  }

  function InWeek(week: int): PlanItem -> bool {
    (x: PlanItem) => x.week == week
  }

  function OnTeam(team: string): PlanItem -> bool {
    (x: PlanItem) => x.team == team
  }

  lemma {:induction false} SavedCounts(fixed: seq<Pick>, week: int, team: string)
    requires forall p :: p in fixed ==> p.gameId.Some?
    ensures Count(SavedItems(fixed), InWeek(week)) == Count(fixed, (p: Pick) => p.week == week)
    ensures Count(SavedItems(fixed), OnTeam(team)) == Count(fixed, (p: Pick) => p.team == team)
  {
    if |fixed| != 0 {
      SavedCounts(fixed[..|fixed| - 1], week, team);
    }
  }

  lemma {:induction false} NewCounts(open: seq<OpenGame>, plan: Plan, week: int, team: string)
    requires FitsGames(open, plan)
    ensures Count(NewItems(open, plan), InWeek(week)) == WeekLoad(open, plan, week)
    ensures Count(NewItems(open, plan), OnTeam(team)) == TeamLoad(open, plan, team)
  {
    if |open| != 0 {
      var n := |open| - 1;
      NewCounts(open[..n], plan[..n], week, team);
      var last := if plan[n].Some? then [ItemOf(open[n], open[n].choices[plan[n].value])] else [];
      CountConcat(NewItems(open[..n], plan[..n]), last, InWeek(week));
      CountConcat(NewItems(open[..n], plan[..n]), last, OnTeam(team));
      if plan[n].Some? {
        assert last[..0] == [];
      }
    }
  }

  /** Uses counted by the limit: those before the plan and those on the card. */
  lemma {:induction false} UsedSplits(picks: seq<Pick>, startWeek: int, team: string)
    ensures Used(picks, startWeek, team) ==
            Count(picks, (p: Pick) => p.team == team && p.week < startWeek)
            + Count(Fixed(picks, startWeek), (p: Pick) => p.team == team)
  {
    if |picks| != 0 {
      var n := |picks| - 1;
      UsedSplits(picks[..n], startWeek, team);
      var last := if IsFixed(picks[n], startWeek) then [picks[n]] else [];
      CountConcat(Fixed(picks[..n], startWeek), last, (p: Pick) => p.team == team);
      if IsFixed(picks[n], startWeek) {
        assert last[..0] == [];
      }
    }
  }

  /** At most the allowed picks in each planned week, saved and new together. */
  lemma CardWithinWeeklyLimit(s: Setting, entry: Entry, plan: Plan, week: int)
    requires ValidSetting(s) && Plannable(s, entry) && Legal(ProblemOf(s, entry.picks), plan)
    requires week in Weeks(s.startWeek)
    ensures Count(Card(s, entry.picks, plan), InWeek(week)) <= s.pool.rules.picksPerWeek
  {
    var fixed, open := Fixed(entry.picks, s.startWeek), OpenGames(s, entry.picks, s.games);
    CountConcat(SavedItems(fixed), NewItems(open, plan), InWeek(week));
    SavedCounts(fixed, week, "");
    NewCounts(open, plan, week, "");
    LegalIsAllowed(s, entry, plan);
  }

  /** No team beyond its uses, those of earlier weeks included. */
  lemma CardWithinTeamLimit(s: Setting, entry: Entry, plan: Plan, team: string)
    requires ValidSetting(s) && Plannable(s, entry) && Legal(ProblemOf(s, entry.picks), plan)
    requires UseLimit(s.pool.rules).Some?
    ensures Count(entry.picks, (p: Pick) => p.team == team && p.week < s.startWeek)
            + Count(Card(s, entry.picks, plan), OnTeam(team)) <= UseLimit(s.pool.rules).value
  {
    var p := ProblemOf(s, entry.picks);
    var fixed := Fixed(entry.picks, s.startWeek);
    CountConcat(SavedItems(fixed), NewItems(p.open, plan), OnTeam(team));
    SavedCounts(fixed, 0, team);
    NewCounts(p.open, plan, 0, team);
    UsedSplits(entry.picks, s.startWeek, team);
    TeamWithinLimit(s, entry, team);
    LegalIsAllowed(s, entry, plan);
    ProblemIsWellFormed(s, entry.picks);
    if KnownTeam(p, team) {
      KnownIsListed(s, entry.picks, team);
    } else {
      TeamKnown(p, p.open, plan, team);
    }
  }

  lemma KnownIsListed(s: Setting, picks: seq<Pick>, team: string)
    requires KnownTeam(ProblemOf(s, picks), team)
    ensures team in TeamList(s.games)
  {
    var t :| 0 <= t < |ProblemOf(s, picks).teams| && ProblemOf(s, picks).teams[t].team == team;
    assert TeamList(s.games)[t] == team;
  }

  /** A new pick is on an open game of its week, by a team that plays there and is permitted. */
  lemma {:induction false} NewPickOrigin(s: Setting, picks: seq<Pick>, games: seq<Game>, plan: Plan, i: nat)
    returns (g: Game, k: nat)
    requires FitsGames(OpenGames(s, picks, games), plan)
    requires i < |NewItems(OpenGames(s, picks, games), plan)|
    ensures var x := NewItems(OpenGames(s, picks, games), plan)[i];
            && g in games && IsOpen(s, picks, g)
            && x.gameId == g.id && x.week == g.week && Plays(g, x.team) && !Banned(s.pool.rules, x.team)
            && !x.saved && x.probability == Some(Survival(s.pool.rules, g, x.team))
    ensures k < |OpenGames(s, picks, games)| && OpenGames(s, picks, games)[k].id == g.id
  {
    var open := OpenGames(s, picks, games);
    k := NewPickIndex(open, plan, i);
    g := OpenGameOrigin(s, picks, games, k);
    OfferTeams(s, g, [g.away, g.home]);
    var c := open[k].choices[plan[k].value];
    assert c in Offers(s, g, [g.away, g.home]);
  }

  lemma {:induction false} NewPickIndex(open: seq<OpenGame>, plan: Plan, i: nat) returns (k: nat)
    requires FitsGames(open, plan) && i < |NewItems(open, plan)|
    ensures k < |open| && plan[k].Some? && NewItems(open, plan)[i] == ItemOf(open[k], open[k].choices[plan[k].value])
  {
    var n := |open| - 1;
    if i < |NewItems(open[..n], plan[..n])| {
      k := NewPickIndex(open[..n], plan[..n], i);
    } else {
      k := n;
    }
  }

  lemma {:induction false} NewPicksDiffer(open: seq<OpenGame>, plan: Plan, i: nat, j: nat)
    requires FitsGames(open, plan) && i < j < |NewItems(open, plan)|
    requires forall a, b :: 0 <= a < b < |open| ==> open[a].id != open[b].id
    ensures NewItems(open, plan)[i].gameId != NewItems(open, plan)[j].gameId
  {
    var n := |open| - 1;
    var front := NewItems(open[..n], plan[..n]);
    if j < |front| {
      NewPicksDiffer(open[..n], plan[..n], i, j);
    } else {
      var k := NewPickIndex(open[..n], plan[..n], i);
    }
  }

  lemma {:induction false} FixedOrigin(picks: seq<Pick>, startWeek: int, i: nat, j: nat) returns (a: nat, b: nat)
    requires i < j < |Fixed(picks, startWeek)|
    ensures a < b < |picks|
    ensures picks[a] == Fixed(picks, startWeek)[i] && picks[b] == Fixed(picks, startWeek)[j]
    ensures IsFixed(picks[a], startWeek) && IsFixed(picks[b], startWeek)
  {
    var n := |picks| - 1;
    if j < |Fixed(picks[..n], startWeek)| {
      a, b := FixedOrigin(picks[..n], startWeek, i, j);
    } else {
      a := FixedIndex(picks[..n], startWeek, i);
      b := n;
    }
  }

  lemma {:induction false} FixedIndex(picks: seq<Pick>, startWeek: int, i: nat) returns (a: nat)
    requires i < |Fixed(picks, startWeek)|
    ensures a < |picks| && picks[a] == Fixed(picks, startWeek)[i] && IsFixed(picks[a], startWeek)
  {
    var n := |picks| - 1;
    if i < |Fixed(picks[..n], startWeek)| {
      a := FixedIndex(picks[..n], startWeek, i);
    } else {
      a := n;
    }
  }

  lemma {:induction false} SavedAt(fixed: seq<Pick>, i: nat)
    requires i < |fixed| && forall p :: p in fixed ==> p.gameId.Some?
    ensures |SavedItems(fixed)| == |fixed| && SavedItems(fixed)[i] == SavedItem(fixed[i])
  {
    if i == |fixed| - 1 {
      SavedLength(fixed);
    } else {
      SavedAt(fixed[..|fixed| - 1], i);
    }
  }

  lemma {:induction false} SavedLength(fixed: seq<Pick>)
    requires forall p :: p in fixed ==> p.gameId.Some?
    ensures |SavedItems(fixed)| == |fixed|
  {
    if |fixed| != 0 {
      SavedLength(fixed[..|fixed| - 1]);
    }
  }

  lemma SavedPicksDiffer(s: Setting, entry: Entry, i: nat, j: nat)
    requires ValidSetting(s) && Plannable(s, entry)
    requires i < j < |Fixed(entry.picks, s.startWeek)|
    ensures Fixed(entry.picks, s.startWeek)[i].gameId != Fixed(entry.picks, s.startWeek)[j].gameId
  {
    var a, b := FixedOrigin(entry.picks, s.startWeek, i, j);
    var p, q := entry.picks[a], entry.picks[b];
    GradedPickHasGame(s.pool, entry, s.games, 31, p);
    GradedPickHasGame(s.pool, entry, s.games, 31, q);
    if p.week == q.week {
      GradedPicksDiffer(s.pool, entry, s.games, 31, a, b);
    }
  }

  lemma NewAvoidsSaved(s: Setting, picks: seq<Pick>, plan: Plan, p: Pick, j: nat)
    requires FitsGames(OpenGames(s, picks, s.games), plan)
    requires p in Fixed(picks, s.startWeek) && j < |NewItems(OpenGames(s, picks, s.games), plan)|
    ensures p.gameId != Some(NewItems(OpenGames(s, picks, s.games), plan)[j].gameId)
  {
    var g, k := NewPickOrigin(s, picks, s.games, plan, j);
  }

  lemma CardAt(s: Setting, picks: seq<Pick>, plan: Plan, i: nat)
    requires FitsGames(OpenGames(s, picks, s.games), plan)
    requires forall p :: p in Fixed(picks, s.startWeek) ==> NamesItsGame(s.games, p)
    requires i < |Card(s, picks, plan)|
    ensures var m := |Fixed(picks, s.startWeek)|;
            var added := NewItems(OpenGames(s, picks, s.games), plan);
            if i < m then Fixed(picks, s.startWeek)[i].gameId == Some(Card(s, picks, plan)[i].gameId)
            else i - m < |added| && Card(s, picks, plan)[i] == added[i - m]
  {
    var fixed := Fixed(picks, s.startWeek);
    assert forall p :: p in fixed ==> NamesItsGame(s.games, p) && p.gameId.Some?;
    SavedLength(fixed);
    if i < |fixed| {
      SavedAt(fixed, i);
    }
  }

  /** The item is on an open game of its week, for a permitted team of that game and with that team's survival. */
  ghost predicate FromOpenGame(s: Setting, picks: seq<Pick>, x: PlanItem) {
    exists g ::
      && g in s.games && IsOpen(s, picks, g)
      && x.gameId == g.id && x.week == g.week && Plays(g, x.team) && !Banned(s.pool.rules, x.team)
      && x.probability == Some(Survival(s.pool.rules, g, x.team))
  }

  lemma UnsavedOrigin(s: Setting, picks: seq<Pick>, plan: Plan, i: nat)
    requires FitsGames(OpenGames(s, picks, s.games), plan)
    requires forall p :: p in Fixed(picks, s.startWeek) ==> NamesItsGame(s.games, p)
    requires i < |Card(s, picks, plan)| && !Card(s, picks, plan)[i].saved
    ensures FromOpenGame(s, picks, Card(s, picks, plan)[i])
  {
    hide IsOpen, NamesItsGame, Survival, Banned, OpenGames, Fixed;
    CardAt(s, picks, plan, i);
    var fixed := Fixed(picks, s.startWeek);
    assert forall p :: p in fixed ==> NamesItsGame(s.games, p);
    NamedGames(s, fixed);
    if i < |fixed| {
      SavedAt(fixed, i);
    } else {
      var g, k := NewPickOrigin(s, picks, s.games, plan, i - |fixed|);
    }
  }

  lemma NamedGames(s: Setting, fixed: seq<Pick>)
    requires forall p :: p in fixed ==> NamesItsGame(s.games, p)
    ensures forall p :: p in fixed ==> p.gameId.Some?
  {
  }

  lemma NewOnesDiffer(s: Setting, picks: seq<Pick>, plan: Plan, i: nat, j: nat)
    requires ValidSetting(s) && FitsGames(OpenGames(s, picks, s.games), plan)
    requires i < j < |NewItems(OpenGames(s, picks, s.games), plan)|
    ensures var added := NewItems(OpenGames(s, picks, s.games), plan);
            added[i].gameId != added[j].gameId
  {
    ProblemIsWellFormed(s, picks);
    NewPicksDiffer(OpenGames(s, picks, s.games), plan, i, j);
  }

  lemma LegalFits(s: Setting, picks: seq<Pick>, plan: Plan)
    requires Legal(ProblemOf(s, picks), plan)
    ensures FitsGames(OpenGames(s, picks, s.games), plan)
  {
  }

  lemma PlannableNames(s: Setting, entry: Entry)
    requires Plannable(s, entry)
    ensures forall p :: p in Fixed(entry.picks, s.startWeek) ==> NamesItsGame(s.games, p)
  {
  }

  /** No game appears twice on the card. */
  lemma CardUsesGamesOnce(s: Setting, entry: Entry, plan: Plan, i: nat, j: nat)
    requires ValidSetting(s) && Plannable(s, entry) && Legal(ProblemOf(s, entry.picks), plan)
    requires i < j < |Card(s, entry.picks, plan)|
    ensures Card(s, entry.picks, plan)[i].gameId != Card(s, entry.picks, plan)[j].gameId
  {
    hide *;
    var picks := entry.picks;
    LegalFits(s, picks, plan);
    PlannableNames(s, entry);
    CardAt(s, picks, plan, i);
    CardAt(s, picks, plan, j);
    var m := |Fixed(picks, s.startWeek)|;
    if j < m {
      SavedPicksDiffer(s, entry, i, j);
    } else if i < m {
      NewAvoidsSaved(s, picks, plan, Fixed(picks, s.startWeek)[i], j - m);
    } else {
      NewOnesDiffer(s, picks, plan, i - m, j - m);
    }
  }

  // ---------------------------------------------------------------- survival

  /** The clamped survival probabilities of the new picks. */
  function Survivals(open: seq<OpenGame>, plan: Plan): seq<real>
    requires FitsGames(open, plan)
  {
    if |open| == 0 then []
    else
      var n := |open| - 1;
      Survivals(open[..n], plan[..n])
      + (if plan[n].Some? then [Clamp(open[n].choices[plan[n].value].survival)] else [])
  }

  function Product(xs: seq<real>): real {
    if |xs| == 0 then 1.0 else Product(xs[..|xs| - 1]) * xs[|xs| - 1]
  }

  function LogSum(negLog: real -> real, xs: seq<real>): real {
    if |xs| == 0 then 0.0 else LogSum(negLog, xs[..|xs| - 1]) + negLog(xs[|xs| - 1])
  }

  ghost predicate AddsOverProduct(negLog: real -> real, x: real, y: real, product: real) {
    x > 0.0 && y > 0.0 && product == x * y ==> negLog(product) == negLog(x) + negLog(y)
  }

  ghost predicate ReversesOrder(negLog: real -> real, x: real, y: real) {
    0.0 < x < y ==> negLog(x) > negLog(y)
  }

  /** `negLog` turns products into sums and reverses the order, as minus the logarithm does. */
  ghost predicate LogLike(negLog: real -> real) {
    && negLog(1.0) == 0.0
    && (forall x, y, z :: AddsOverProduct(negLog, x, y, z))
    && (forall x, y :: ReversesOrder(negLog, x, y))
  }

  /** Choices priced by their survival alone. */
  ghost predicate PricedBySurvival(negLog: real -> real, open: seq<OpenGame>) {
    forall g, j :: 0 <= g < |open| && 0 <= j < |open[g].choices| ==>
      open[g].choices[j].cost == negLog(Clamp(open[g].choices[j].survival))
  }

  lemma {:induction false} LogOfProduct(negLog: real -> real, xs: seq<real>)
    requires LogLike(negLog) && forall i :: 0 <= i < |xs| ==> xs[i] > 0.0
    ensures Product(xs) > 0.0 && negLog(Product(xs)) == LogSum(negLog, xs)
  {
    if |xs| != 0 {
      var n := |xs| - 1;
      LogOfProduct(negLog, xs[..n]);
      var before := Product(xs[..n]);
      assert AddsOverProduct(negLog, before, xs[n], Product(xs));
    }
  }

  lemma {:induction false} SurvivalsPositive(open: seq<OpenGame>, plan: Plan)
    requires FitsGames(open, plan)
    ensures forall i :: 0 <= i < |Survivals(open, plan)| ==> Survivals(open, plan)[i] > 0.0
  {
    if |open| != 0 {
      SurvivalsPositive(open[..|open| - 1], plan[..|open| - 1]);
    }
  }

  lemma {:induction false} CostIsLogSum(negLog: real -> real, open: seq<OpenGame>, plan: Plan)
    requires PricedBySurvival(negLog, open) && FitsGames(open, plan)
    ensures PlanCost(open, plan) == LogSum(negLog, Survivals(open, plan))
  {
    if |open| != 0 {
      var n := |open| - 1;
      var front := Survivals(open[..n], plan[..n]);
      CostIsLogSum(negLog, open[..n], plan[..n]);
      if plan[n].Some? {
        var c := open[n].choices[plan[n].value];
        LogSumSnoc(negLog, front, Clamp(c.survival));
        assert c.cost == negLog(Clamp(c.survival));
      } else {
        assert Survivals(open, plan) == front;
      }
    }
  }

  lemma LogSumSnoc(negLog: real -> real, xs: seq<real>, x: real)
    ensures LogSum(negLog, xs + [x]) == LogSum(negLog, xs) + negLog(x)
  {
    assert (xs + [x])[..|xs|] == xs;
  }

  /** Without an overlap penalty, choices are priced by their survival alone. */
  lemma NoPenaltyPricesSurvival(s: Setting, picks: seq<Pick>)
    requires s.penalty == 0.0
    ensures PricedBySurvival(s.negLog, OpenGames(s, picks, s.games))
  {
    var open := OpenGames(s, picks, s.games);
    forall i, j | 0 <= i < |open| && 0 <= j < |open[i].choices|
      ensures open[i].choices[j].cost == s.negLog(Clamp(open[i].choices[j].survival))
    {
      var g := OpenGameOrigin(s, picks, s.games, i);
      OfferTeams(s, g, [g.away, g.home]);
      assert open[i].choices[j] in Offers(s, g, [g.away, g.home]);
      TimesIsProduct(Exposed(s.exposure, g.week, open[i].choices[j].team), s.penalty);
    }
  }

  /** Without an overlap penalty no allowed plan of the same size is likelier to survive. */
  lemma BestPlanMaximisesSurvival(s: Setting, entry: Entry, plan: Plan, other: Plan)
    requires ValidSetting(s) && Plannable(s, entry) && s.penalty == 0.0 && LogLike(s.negLog)
    requires var p := ProblemOf(s, entry.picks); BestPlan(p, plan, Required(p.weeks))
    requires RulesAllow(s, entry.picks, other) && Size(other) == Size(plan)
    ensures var open := OpenGames(s, entry.picks, s.games);
            Product(Survivals(open, other)) <= Product(Survivals(open, plan))
  {
    var open := OpenGames(s, entry.picks, s.games);
    AllowedIsLegal(s, entry, other);
    NoPenaltyPricesSurvival(s, entry.picks);
    CostIsLogSum(s.negLog, open, plan);
    CostIsLogSum(s.negLog, open, other);
    SurvivalsPositive(open, plan);
    SurvivalsPositive(open, other);
    LogOfProduct(s.negLog, Survivals(open, plan));
    LogOfProduct(s.negLog, Survivals(open, other));
    assert ReversesOrder(s.negLog, Product(Survivals(open, plan)), Product(Survivals(open, other)));
  }
}
