/**
  The season strategy: entries are planned one after another, and each plan raises the
  exposure that later entries pay for.
*/
module Planner {
  import opened Flow
  import opened Residual
  import opened SeasonNetwork
  import opened PlanFlow
  import opened Sequences
  import opened PoolModel
  import opened PoolOutcomes
  import opened SeasonPlan
  import opened Allocator
  import opened PlanLaws

  // ---------------------------------------------------------------- reading the network

  function UnitsAt(f: seq<int>, ks: seq<nat>): (units: seq<int>)
    requires forall c :: 0 <= c < |ks| ==> ks[c] < |f|
    ensures Reads(f, ks, units)
  {
    seq(|ks|, c requires 0 <= c < |ks| => f[ks[c]])
  }

  /** A forward edge of capacity one is used up exactly when its arc carries a unit. */
  lemma SpentMeansPicked(g: Graph, L: Ledger, c: Candidate, item: PlanItem, k: nat)
    requires Shape(g, L) && PlacedAt(L, c, item, k) && L.arcs[k].cap == 1
    ensures HasEdge(g, c.node, c.index) && (g[c.node][c.index].cap == 0 <==> L.flow[k] == 1)
  {
    assert InPlace(g, L, k);
  }

  /** Collects the candidates whose edge is used up. */
  method ReadPicks(net: Network, candidates: seq<Candidate>, ghost items: seq<PlanItem>, ghost ks: seq<nat>)
    returns (output: seq<PlanItem>)
    requires net.Valid() && Placed(net.book, candidates, items, ks)
    requires forall c :: 0 <= c < |ks| ==> ks[c] < |net.book.arcs| && net.book.arcs[ks[c]].cap == 1
    ensures output == Picked(items, UnitsAt(net.book.flow, ks))
  {
    output := [];
    ghost var units := UnitsAt(net.book.flow, ks);
    for i := 0 to |candidates|
      invariant output == Picked(items[..i], units[..i])
    {
      assert items[..i + 1][..i] == items[..i] && units[..i + 1][..i] == units[..i];
      assert PlacedAt(net.book, candidates[i], items[i], ks[i]);
      SpentMeansPicked(net.graph, net.book, candidates[i], items[i], ks[i]);
      if net.graph[candidates[i].node][candidates[i].index].cap == 0 {
        output := output + [candidates[i].item];
      }
    }
    assert items[..|items|] == items && units[..|units|] == units;
  }

  lemma {:induction false} GameArcsAreUnit(open: seq<OpenGame>)
    ensures forall k :: 0 <= k < |GameArcs(open)| ==> GameArcs(open)[k].cap == 1
  {
    hide ChoiceArcs;
    if |open| != 0 {
      var g := open[|open| - 1];
      GameArcsAreUnit(open[..|open| - 1]);
      ChoiceCapacities(g.id, g.choices);
    }
  }

  function CandidateArcsOf(p: Problem): (ks: seq<nat>)
    ensures forall c :: 0 <= c < |ks| ==> ks[c] < |AllArcs(p)|
  {
    CandidateArcs(p.open, |p.weeks| + |p.teams|)
  }

  lemma CandidateArcsAreUnit(p: Problem)
    ensures forall c :: 0 <= c < |CandidateArcsOf(p)| ==> AllArcs(p)[CandidateArcsOf(p)[c]].cap == 1
  {
    hide GameArcs, CandidateArcs;
    GameArcsAreUnit(p.open);
  }

  lemma GamePart(p: Problem, f: seq<int>, plan: Plan)
    requires FitsGames(p.open, plan) && f == FlowOf(p, plan)
    ensures var base := |p.weeks| + |p.teams|;
            |f| == base + |GameArcs(p.open)| && f[base..base + |GameArcs(p.open)|] == GameFlow(p.open, plan)
  {
  }

  lemma PicksOfPlan(p: Problem, f: seq<int>, plan: Plan)
    requires FitsGames(p.open, plan) && f == FlowOf(p, plan)
    ensures Picked(Candidates(p.open), UnitsAt(f, CandidateArcsOf(p))) == NewItems(p.open, plan)
  {
    hide CandidateArcs, GameArcs, GameFlow, Candidates, NewItems, Picked, FitsGames, FlowOf, AllArcs;
    GamePart(p, f, plan);
    PickedIsPlan(p.open, plan, |p.weeks| + |p.teams|, f, UnitsAt(f, CandidateArcsOf(p)));
  }

  /** The picks read off a shipped network are the new picks of the plan its flow carries. */
  lemma PicksAreThePlan(p: Problem, f: seq<int>, value: int)
    requires WellFormed(p) && IsFlow(AllArcs(p), f, value)
    ensures Picked(Candidates(p.open), UnitsAt(f, CandidateArcsOf(p))) == NewItems(p.open, PlanOf(p, f))
  {
    FlowIsPlan(p, f, value);
    PicksOfPlan(p, f, PlanOf(p, f));
  }

  // ---------------------------------------------------------------- weeks left open

  function Missing(weeks: seq<int>, items: seq<PlanItem>, perWeek: nat): seq<int> {
    if |weeks| == 0 then []
    else
      var n := |weeks| - 1;
      Missing(weeks[..n], items, perWeek)
      + (if Count(items, InWeek(weeks[n])) < perWeek then [weeks[n]] else [])
  }

  lemma {:induction false} NothingMissing(weeks: seq<int>, items: seq<PlanItem>, perWeek: nat)
    ensures Missing(weeks, items, perWeek) == [] <==>
            forall w :: w in weeks ==> Count(items, InWeek(w)) >= perWeek
  {
    if |weeks| != 0 {
      var n := |weeks| - 1;
      NothingMissing(weeks[..n], items, perWeek);
      assert weeks == weeks[..n] + [weeks[n]];
    }
  }

  /** The card misses no week exactly when the plan is full. */
  lemma FullIffNothingMissing(s: Setting, entry: Entry, plan: Plan)
    requires ValidSetting(s) && Plannable(s, entry) && Legal(ProblemOf(s, entry.picks), plan)
    ensures Missing(Weeks(s.startWeek), Card(s, entry.picks, plan), s.pool.rules.picksPerWeek) == [] <==>
            Size(plan) == Required(ProblemOf(s, entry.picks).weeks)
  {
    var fixed, open := Fixed(entry.picks, s.startWeek), OpenGames(s, entry.picks, s.games);
    var card := Card(s, entry.picks, plan);
    NothingMissing(Weeks(s.startWeek), card, s.pool.rules.picksPerWeek);
    LegalSize(s, entry, plan);
    forall w | w in Weeks(s.startWeek)
      ensures Count(card, InWeek(w)) == FixedCount(entry.picks, s.startWeek, w) + WeekLoad(open, plan, w)
      ensures Count(card, InWeek(w)) <= s.pool.rules.picksPerWeek
    {
      CountConcat(SavedItems(fixed), NewItems(open, plan), InWeek(w));
      SavedCounts(fixed, w, "");
      NewCounts(open, plan, w, "");
      CardWithinWeeklyLimit(s, entry, plan, w);
    }
  }

  // ---------------------------------------------------------------- the planner

  /** What the planner promises for one entry: a refusal, or the card of a best plan. */
  ghost predicate Planned(s: Setting, entry: Entry, result: EntryPlan, choice: Plan) {
    && result.entryId == entry.id
    && if !Plannable(s, entry) then
         result == EntryPlan(entry.id, Refusal(s, entry), [], [])
       else
         var p := ProblemOf(s, entry.picks);
         var required := Required(p.weeks);
         && BestPlan(p, choice, required)
         && result.picks == Card(s, entry.picks, choice)
         && result.status == (if Weeks(s.startWeek) != [] && Size(choice) == required then Complete else Partial)
         && result.missingWeeks == Missing(Weeks(s.startWeek), result.picks, s.pool.rules.picksPerWeek)
  }

  /** The result is what the planner promises, for some best plan. */
  ghost predicate IsPlanned(s: Setting, entry: Entry, result: EntryPlan) {
    exists choice :: Planned(s, entry, result, choice)
  }

  ghost predicate CanBeComplete(s: Setting, picks: seq<Pick>) {
    exists q :: RulesAllow(s, picks, q) && FillsEveryWeek(s, picks, q)
  }

  /**
    The planned card, saved and new picks together, obeys the weekly limit and the limit on team uses and
    uses no game twice; every pick that was not saved before is on an open game of its week for a permitted
    team; it is called complete exactly when there is a week to plan and the rules allow a
    plan that fills every week.
  */
  lemma PlannedCardObeysTheRules(s: Setting, entry: Entry, result: EntryPlan)
    requires ValidSetting(s) && Plannable(s, entry) && IsPlanned(s, entry, result)
    ensures forall w :: w in Weeks(s.startWeek) ==> Count(result.picks, InWeek(w)) <= s.pool.rules.picksPerWeek
    ensures UseLimit(s.pool.rules).Some? ==>
              forall team ::
                Count(entry.picks, (p: Pick) => p.team == team && p.week < s.startWeek) + Count(result.picks, OnTeam(team))
                <= UseLimit(s.pool.rules).value
    ensures forall i, j :: 0 <= i < j < |result.picks| ==> result.picks[i].gameId != result.picks[j].gameId
    ensures forall i :: 0 <= i < |result.picks| && !result.picks[i].saved ==> FromOpenGame(s, entry.picks, result.picks[i])
    ensures result.status == Complete <==> Weeks(s.startWeek) != [] && CanBeComplete(s, entry.picks)
    ensures result.missingWeeks == [] <==> CanBeComplete(s, entry.picks)
  {
    hide ProblemOf, Card, Count, Legal, Weeks, Missing, RulesAllow, FillsEveryWeek, FromOpenGame, Plannable,
         ValidSetting, Size, Required;
    var choice :| Planned(s, entry, result, choice);
    var p := ProblemOf(s, entry.picks);
    BestIsLegal(p, choice, Required(p.weeks));
    forall w | w in Weeks(s.startWeek) ensures Count(result.picks, InWeek(w)) <= s.pool.rules.picksPerWeek {
      CardWithinWeeklyLimit(s, entry, choice, w);
    }
    if UseLimit(s.pool.rules).Some? {
      forall team
        ensures Count(entry.picks, (p: Pick) => p.team == team && p.week < s.startWeek) + Count(result.picks, OnTeam(team))
                <= UseLimit(s.pool.rules).value
      {
        CardWithinTeamLimit(s, entry, choice, team);
      }
    }
    forall i, j | 0 <= i < j < |result.picks| ensures result.picks[i].gameId != result.picks[j].gameId {
      CardUsesGamesOnce(s, entry, choice, i, j);
    }
    forall i | 0 <= i < |result.picks| && !result.picks[i].saved ensures FromOpenGame(s, entry.picks, result.picks[i]) {
      UnsavedInCard(s, entry, choice, i);
    }
    CompleteIffPossible(s, entry, choice);
    FullIffNothingMissing(s, entry, choice);
  }

  lemma UnsavedInCard(s: Setting, entry: Entry, choice: Plan, i: nat)
    requires ValidSetting(s) && Plannable(s, entry) && Legal(ProblemOf(s, entry.picks), choice)
    requires i < |Card(s, entry.picks, choice)| && !Card(s, entry.picks, choice)[i].saved
    ensures FromOpenGame(s, entry.picks, Card(s, entry.picks, choice)[i])
  {
    hide OpenGames, Card, FromOpenGame;
    UnsavedOrigin(s, entry.picks, choice, i);
  }

  lemma BestIsLegal(p: Problem, plan: Plan, required: nat)
    requires BestPlan(p, plan, required)
    ensures Legal(p, plan)
  {
  }

  /** Ships what is required through a built network and reads the new picks. */
  method ShipAndRead(net: Network, candidates: seq<Candidate>, required: nat, ghost p: Problem)
    returns (added: seq<PlanItem>, flow: nat, ghost choice: Plan)
    requires WellFormed(p)
    requires net.Valid() && Unshipped(net.book) && net.book.arcs == AllArcs(p)
    requires Placed(net.book, candidates, Candidates(p.open), CandidateArcsOf(p))
    modifies net
    ensures BestPlan(p, choice, required) && Size(choice) == flow && added == NewItems(p.open, choice)
  {
    ghost var built, pi := net.book, (v: Node) => 0.0;
    flow, pi := net.Fill(required);
    PricedIsSlack(net.graph, net.book, pi);
    ghost var f := net.book.flow;
    choice := PlanOf(p, f);
    FlowIsBest(p, f, flow, required, pi);
    PicksAreThePlan(p, f, flow);
    KeepsPlaces(built, net.book, candidates, Candidates(p.open), CandidateArcsOf(p));
    CandidateArcsAreUnit(p);
    added := ReadPicks(net, candidates, Candidates(p.open), CandidateArcsOf(p));
  }

  method SolveProblem(s: Setting, picks: seq<Pick>, required: nat, ghost p: Problem)
    returns (added: seq<PlanItem>, flow: nat, ghost choice: Plan)
    requires ValidSetting(s) && WellFormed(p) && p == ProblemOf(s, picks)
    ensures BestPlan(p, choice, required) && Size(choice) == flow && added == NewItems(p.open, choice)
  {
    hide WellFormed, BestPlan, ProblemOf, Placed, Shape, ValidSetting;
    var net, candidates := BuildNetwork(s, picks);
    added, flow, choice := ShipAndRead(net, candidates, required, p);
  }

  /** The new picks for an entry whose saved picks passed the gate. */
  method SolveEntry(s: Setting, picks: seq<Pick>)
    returns (added: seq<PlanItem>, flow: nat, required: nat, ghost choice: Plan)
    requires ValidSetting(s)
    ensures required == Required(ProblemOf(s, picks).weeks)
    ensures BestPlan(ProblemOf(s, picks), choice, required)
    ensures Size(choice) == flow && added == NewItems(OpenGames(s, picks, s.games), choice)
  {
    required := Required(Needs(s, picks, Weeks(s.startWeek)));
    ProblemIsWellFormed(s, picks);
    added, flow, choice := SolveProblem(s, picks, required, ProblemOf(s, picks));
  }

  /** Plans one entry: a refusal, or the card of a best plan. */
  method PlanEntry(s: Setting, entry: Entry) returns (result: EntryPlan)
    requires ValidSetting(s)
    ensures IsPlanned(s, entry, result)
  {
    var ok, output := CheckSaved(s, entry);
    if !ok {
      result := EntryPlan(entry.id, Refusal(s, entry), [], []);
      assert Planned(s, entry, result, []);
      return;
    }
    var added, flow, required;
    ghost var choice;
    added, flow, required, choice := SolveEntry(s, entry.picks);
    output := output + added;
    var weeks := Weeks(s.startWeek);
    result := EntryPlan(entry.id, if weeks != [] && flow == required then Complete else Partial, output,
                        Missing(weeks, output, s.pool.rules.picksPerWeek));
    assert Planned(s, entry, result, choice);
  }

  class SeasonPlanner {
    const pool: Pool
    const games: seq<Game>
    const startWeek: int
    const penalty: real
    const now: int
    const negLog: real -> real
    var exposure: Exposure

    constructor (pool: Pool, games: seq<Game>, startWeek: int, penalty: real, now: int, negLog: real -> real)
      ensures Here() == Setting(pool, games, startWeek, penalty, now, negLog, map[])
    {
      this.pool, this.games, this.startWeek := pool, games, startWeek;
      this.penalty, this.now, this.negLog := penalty, now, negLog;
      exposure := map[];
    }

    function Here(): Setting
      reads this
    {
      Setting(pool, games, startWeek, penalty, now, negLog, exposure)
    }

    /** Counts the picks of a finished plan. */
    method Expose(items: seq<PlanItem>)
      modifies this
      ensures exposure == AddExposure(old(exposure), items)
    {
      for i := 0 to |items|
        invariant exposure == AddExposure(old(exposure), items[..i])
      {
        assert items[..i + 1][..i] == items[..i];
        var x := items[i];
        exposure := exposure[(x.week, x.team) := Exposed(exposure, x.week, x.team) + 1];
      }
      assert items[..|items|] == items;
    }

    /** Plans one entry and counts its picks as exposure. */
    method Allocate(entry: Entry) returns (result: EntryPlan)
      requires ValidSetting(Here())
      modifies this
      ensures IsPlanned(old(Here()), entry, result)
      ensures Here() == old(Here()).(exposure := AddExposure(old(exposure), result.picks))
    {
      result := PlanEntry(Here(), entry);
      Expose(result.picks);
    }

    /** Plans all entries in order; each is best for the exposure left by those before it. */
    method Strategy(entries: seq<Entry>) returns (plans: seq<EntryPlan>)
      requires ValidSetting(Here()) && exposure == map[]
      modifies this
      ensures |plans| == |entries|
      ensures forall i :: 0 <= i < |entries| ==> PlannedAt(old(Here()), entries, plans, i)
    {
      hide ValidSetting, IsPlanned;
      plans := [];
      ghost var s := Here();
      SettingStays(s, map[]);
      for i := 0 to |entries|
        invariant |plans| == i
        invariant Here() == s.(exposure := ExposureAfter(plans))
        invariant forall k :: 0 <= k < i ==> PlannedAt(s, entries, plans, k)
      {
        SettingStays(s, exposure);
        var plan := Allocate(entries[i]);
        PlansStay(s, entries, plans, plan);
        plans := plans + [plan];
      }
    }
  }

  /** The plan of one entry is what the planner promises after the plans before it. */
  ghost predicate PlannedAt(s: Setting, entries: seq<Entry>, plans: seq<EntryPlan>, i: nat)
    requires i < |entries| && i < |plans|
  {
    IsPlanned(s.(exposure := ExposureAfter(plans[..i])), entries[i], plans[i])
  }

  lemma SettingStays(s: Setting, exposure: Exposure)
    ensures ValidSetting(s) <==> ValidSetting(s.(exposure := exposure))
  {
  }

  lemma PlansStay(s: Setting, entries: seq<Entry>, plans: seq<EntryPlan>, plan: EntryPlan)
    requires |plans| < |entries|
    requires forall k :: 0 <= k < |plans| ==> PlannedAt(s, entries, plans, k)
    requires IsPlanned(s.(exposure := ExposureAfter(plans)), entries[|plans|], plan)
    ensures forall k :: 0 <= k <= |plans| ==> PlannedAt(s, entries, plans + [plan], k)
    ensures ExposureAfter(plans + [plan]) == AddExposure(ExposureAfter(plans), plan.picks)
  {
    hide IsPlanned;
    var after := plans + [plan];
    assert after[..|plans|] == plans;
    forall k | 0 <= k < |plans| ensures PlannedAt(s, entries, after, k) {
      assert PlannedAt(s, entries, plans, k);
      assert after[..k] == plans[..k];
    }
  }

  /** The exposure left by a list of plans. */
  function ExposureAfter(plans: seq<EntryPlan>): Exposure {
    if |plans| == 0 then map[]
    else AddExposure(ExposureAfter(plans[..|plans| - 1]), plans[|plans| - 1].picks)
  }

  /** Shipping moves no edge. */
  lemma KeepsPlaces(before: Ledger, after: Ledger, candidates: seq<Candidate>, items: seq<PlanItem>, ks: seq<nat>)
    requires Placed(before, candidates, items, ks)
    requires after.arcs == before.arcs && after.slots == before.slots
    ensures Placed(after, candidates, items, ks)
  {
    forall c | 0 <= c < |ks| ensures PlacedAt(after, candidates[c], items[c], ks[c]) {
      assert PlacedAt(before, candidates[c], items[c], ks[c]);
    }
  }

  /** The gate: standing, grades, games and limits of the saved picks, and the saved items when it opens. */
  method CheckSaved(s: Setting, entry: Entry) returns (ok: bool, output: seq<PlanItem>)
    ensures ok <==> Plannable(s, entry)
    ensures ok ==> output == SavedItems(Fixed(entry.picks, s.startWeek))
  {
    hide Fixed, OverLimit, StandingOf, HasUngraded, Plays;
    output := [];
    if !StandingOf(s.pool, entry, s.games, 31).Alive? || HasUngraded(s.pool, entry, s.games, 31) {
      ok := false;
      return;
    }
    var fixed := Fixed(entry.picks, s.startWeek);
    for i := 0 to |fixed|
      invariant forall k :: 0 <= k < i ==> NamesItsGame(s.games, fixed[k])
      invariant forall k :: 0 <= k < i ==> fixed[k].gameId.Some?
      invariant forall p :: p in fixed[..i] ==> p.gameId.Some?
      invariant output == SavedItems(fixed[..i])
    {
      if !NamesItsGame(s.games, fixed[i]) {
        assert fixed[i] in fixed;
        ok := false;
        return;
      }
      assert fixed[..i + 1][..i] == fixed[..i];
      output := output + [SavedItem(fixed[i])];
    }
    assert fixed[..|fixed|] == fixed;
    ok := !OverLimit(s, entry.picks);
  }
}
