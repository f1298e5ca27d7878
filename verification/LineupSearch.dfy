/**
  The slot-first lineup search: each slot in turn is left open or given to an unused
  eligible player, and answers are remembered by slot and used players.
*/
module LineupSearch {
  import opened Wrappers
  import opened Sequences
  import opened Matching

  /** For each slot from the current one on, the player it is given to, if any. */
  type Path = seq<Option<nat>>

  /** A way to go on from slot `k` without the players already used. */
  ghost predicate LegalPath(players: seq<Entrant>, n: nat, k: nat, used: set<nat>, path: Path) {
    && k <= n && |path| == n - k
    && (forall j :: 0 <= j < |path| && path[j].Some? ==>
          path[j].value < |players| && path[j].value !in used && k + j in players[path[j].value].fits)
    && (forall i, j :: 0 <= i < j < |path| && path[i].Some? ==> path[i] != path[j])
  }

  function PathTotal(players: seq<Entrant>, path: Path): real {
    if |path| == 0 then 0.0
    else (if path[0].Some? && path[0].value < |players| then players[path[0].value].points else 0.0)
         + PathTotal(players, path[1..])
  }

  /** A legal continuation that no other continuation outscores. */
  ghost predicate Optimal(players: seq<Entrant>, n: nat, k: nat, used: set<nat>, score: real, path: Path) {
    && LegalPath(players, n, k, used, path) && PathTotal(players, path) == score
    && forall q :: LegalPath(players, n, k, used, q) ==> PathTotal(players, q) <= score
  }

  /** The first step of a continuation and what remains of it. */
  lemma PathHead(players: seq<Entrant>, n: nat, k: nat, used: set<nat>, path: Path)
    requires k < n && |path| == n - k
    ensures LegalPath(players, n, k, used, path) <==>
            match path[0]
            case None => LegalPath(players, n, k + 1, used, path[1..])
            case Some(p) => p < |players| && p !in used && k in players[p].fits
                            && LegalPath(players, n, k + 1, used + {p}, path[1..])
  {
    var rest := path[1..];
    if LegalPath(players, n, k, used, path) {
      forall j | 0 <= j < |rest| && rest[j].Some?
        ensures rest[j].value < |players| && rest[j].value !in used && k + 1 + j in players[rest[j].value].fits
        ensures rest[j] != path[0]
      {
        assert rest[j] == path[j + 1];
      }
    }
    if match path[0] case None => LegalPath(players, n, k + 1, used, rest)
       case Some(p) => p < |players| && p !in used && k in players[p].fits
                       && LegalPath(players, n, k + 1, used + {p}, rest) {
      forall j | 0 <= j < |path| && path[j].Some?
        ensures path[j].value < |players| && path[j].value !in used && k + j in players[path[j].value].fits
      {
        if j > 0 {
          assert path[j] == rest[j - 1];
        }
      }
      forall i, j | 0 <= i < j < |path| && path[i].Some? ensures path[i] != path[j] {
        assert path[j] == rest[j - 1];
        if i > 0 {
          assert path[i] == rest[i - 1];
        }
      }
    }
  }

  /** The best seen so far: no continuation that benches the slot or tries an earlier player beats it. */
  ghost predicate BestSoFar(players: seq<Entrant>, n: nat, k: nat, used: set<nat>, tried: nat, score: real, path: Path) {
    && LegalPath(players, n, k, used, path) && PathTotal(players, path) == score
    && forall q: Path :: LegalPath(players, n, k, used, q) && |q| > 0 && (q[0].Some? ==> q[0].value < tried) ==>
         PathTotal(players, q) <= score
  }

  lemma BenchFirst(players: seq<Entrant>, n: nat, k: nat, used: set<nat>, score: real, path: Path)
    requires k < n && Optimal(players, n, k + 1, used, score, path)
    ensures BestSoFar(players, n, k, used, 0, score, [None] + path)
  {
    PathHead(players, n, k, used, [None] + path);
    forall q: Path | LegalPath(players, n, k, used, q) && |q| > 0 && q[0].None?
      ensures PathTotal(players, q) <= score
    {
      PathHead(players, n, k, used, q);
    }
  }

  /** Trying one more player keeps the better of the two. */
  lemma TryPlayer(players: seq<Entrant>, n: nat, k: nat, used: set<nat>, i: nat, score: real, path: Path,
                  remainder: real, tail: Path)
    requires k < n && i < |players| && i !in used && k in players[i].fits
    requires BestSoFar(players, n, k, used, i, score, path)
    requires Optimal(players, n, k + 1, used + {i}, remainder, tail)
    ensures var total := players[i].points + remainder;
            if total > score then BestSoFar(players, n, k, used, i + 1, total, [Some(i)] + tail)
            else BestSoFar(players, n, k, used, i + 1, score, path)
  {
    var longer := [Some(i)] + tail;
    PathHead(players, n, k, used, longer);
    assert longer[1..] == tail;
    forall q: Path | LegalPath(players, n, k, used, q) && |q| > 0 && q[0] == Some(i)
      ensures PathTotal(players, q) <= players[i].points + remainder
    {
      PathHead(players, n, k, used, q);
    }
  }

  lemma SkipPlayer(players: seq<Entrant>, n: nat, k: nat, used: set<nat>, i: nat, score: real, path: Path)
    requires k < n && i < |players| && (i in used || k !in players[i].fits)
    requires BestSoFar(players, n, k, used, i, score, path)
    ensures BestSoFar(players, n, k, used, i + 1, score, path)
  {
    forall q: Path | LegalPath(players, n, k, used, q) && |q| > 0 && q[0].Some? && q[0].value < i + 1
      ensures q[0].value < i
    {
      PathHead(players, n, k, used, q);
    }
  }

  lemma AllTried(players: seq<Entrant>, n: nat, k: nat, used: set<nat>, score: real, path: Path)
    requires k < n && BestSoFar(players, n, k, used, |players|, score, path)
    ensures Optimal(players, n, k, used, score, path)
  {
    forall q: Path | LegalPath(players, n, k, used, q)
      ensures PathTotal(players, q) <= score
    {
      PathHead(players, n, k, used, q);
    }
  }

  class SlotSearch {
    const players: seq<Entrant>
    const slotCount: nat
    var cache: map<(nat, set<nat>), (real, Path)>

    constructor (players: seq<Entrant>, slotCount: nat)
      ensures Valid() && this.players == players && this.slotCount == slotCount
    {
      this.players, this.slotCount := players, slotCount;
      cache := map[];
    }

    /** Every remembered answer is optimal. */
    ghost predicate Valid()
      reads this
    {
      forall key :: key in cache ==> Optimal(players, slotCount, key.0, key.1, cache[key].0, cache[key].1)
    }

    method Solve(k: nat, used: set<nat>) returns (score: real, path: Path)
      requires Valid() && k <= slotCount
      modifies this
      ensures Valid() && Optimal(players, slotCount, k, used, score, path)
      decreases slotCount - k
    {
      hide Optimal, BestSoFar;
      if (k, used) in cache {
        return cache[(k, used)].0, cache[(k, used)].1;
      }
      if k == slotCount {
        NothingLeft(players, slotCount, used);
        score, path := 0.0, [];
      } else {
        score, path := Solve(k + 1, used);
        BenchFirst(players, slotCount, k, used, score, path);
        path := [None] + path;
        for index := 0 to |players|
          invariant Valid() && BestSoFar(players, slotCount, k, used, index, score, path)
        {
          if index !in used && k in players[index].fits {
            var remainder, tail := Solve(k + 1, used + {index});
            TryPlayer(players, slotCount, k, used, index, score, path, remainder, tail);
            var total := players[index].points + remainder;
            if total > score {
              score, path := total, [Some(index)] + tail;
            }
          } else {
            SkipPlayer(players, slotCount, k, used, index, score, path);
          }
        }
        AllTried(players, slotCount, k, used, score, path);
      }
      cache := cache[(k, used) := (score, path)];
    }
  }

  lemma NothingLeft(players: seq<Entrant>, n: nat, used: set<nat>)
    ensures Optimal(players, n, n, used, 0.0, [])
  {
  }

  // ---------------------------------------------------------------- paths and assignments

  ghost predicate FitsBelow(players: seq<Entrant>, n: nat) {
    forall p, s :: 0 <= p < |players| && s in players[p].fits ==> s < n
  }

  /** A continuation as an assignment of the slots from `k` on. */
  lemma {:induction false} PathToAssignment(players: seq<Entrant>, n: nat, k: nat, used: set<nat>, path: Path)
    returns (a: Assignment)
    requires LegalPath(players, n, k, used, path)
    ensures Legal(players, a) && Total(players, a) == PathTotal(players, path)
    ensures forall s :: s in Filled(a) ==> k <= s
    ensures forall p :: 0 <= p < |a| && p in used ==> a[p].None?
    decreases |path|
  {
    if |path| == 0 {
      a := seq(|players|, i => None);
      Benched(players, a);
    } else {
      PathHead(players, n, k, used, path);
      if path[0].None? {
        a := PathToAssignment(players, n, k + 1, used, path[1..]);
      } else {
        var p := path[0].value;
        var b := PathToAssignment(players, n, k + 1, used + {p}, path[1..]);
        Start(players, b, p, k);
        a := b[p := Some(k)];
      }
    }
  }

  lemma {:induction false} Benched(players: seq<Entrant>, a: Assignment)
    requires |a| == |players| && forall p :: 0 <= p < |a| ==> a[p].None?
    ensures Legal(players, a) && Filled(a) == {} && Total(players, a) == 0.0
  {
    if |a| != 0 {
      Benched(players[..|a| - 1], a[..|a| - 1]);
    }
  }

  lemma {:induction false} NobodyStarts(players: seq<Entrant>, a: Assignment)
    requires Legal(players, a) && Filled(a) == {}
    ensures Total(players, a) == 0.0
  {
    forall p | 0 <= p < |a| ensures a[p].None? {
      if a[p].Some? {
        FilledHas(a, a[p].value);
      }
    }
    Benched(players, a);
  }

  /** An assignment of the slots from `k` on as a continuation. */
  lemma {:induction false} AssignmentToPath(players: seq<Entrant>, n: nat, k: nat, used: set<nat>, a: Assignment)
    returns (path: Path)
    requires k <= n && FitsBelow(players, n) && Legal(players, a)
    requires forall s :: s in Filled(a) ==> k <= s
    requires forall p :: 0 <= p < |a| && p in used ==> a[p].None?
    ensures LegalPath(players, n, k, used, path) && PathTotal(players, path) == Total(players, a)
    decreases n - k
  {
    if k == n {
      path := [];
      if s :| s in Filled(a) {
        var p := StarterOf(players, a, s);
      }
      NobodyStarts(players, a);
    } else if k in Filled(a) {
      var p := StarterOf(players, a, k);
      var b := a[p := None];
      BenchStarter(players, a, p);
      var rest := AssignmentToPath(players, n, k + 1, used + {p}, b);
      path := [Some(p)] + rest;
      PathHead(players, n, k, used, path);
    } else {
      var rest := AssignmentToPath(players, n, k + 1, used, a);
      path := [None] + rest;
      PathHead(players, n, k, used, path);
    }
  }

  // ---------------------------------------------------------------- the two optimisers agree

  /** The highest total in a table of states. */
  ghost predicate Highest(states: States, points: real) {
    && (exists mask :: mask in states && states[mask] == points)
    && (forall mask :: mask in states ==> states[mask] <= points)
  }

  /** The slot-first search finds exactly the highest total of the player-first table. */
  lemma SearchAgreesWithTable(players: seq<Entrant>, n: nat, states: States, score: real, path: Path)
    requires FitsBelow(players, n) && Exact(players, states)
    requires Optimal(players, n, 0, {}, score, path)
    ensures Highest(states, score)
  {
    forall mask | mask in states ensures states[mask] <= score {
      assert Achieved(players, mask, states[mask]);
      var a :| Legal(players, a) && Filled(a) == mask && Total(players, a) == states[mask];
      var q := AssignmentToPath(players, n, 0, {}, a);
    }
    var a := PathToAssignment(players, n, 0, {}, path);
    assert Filled(a) in states && score <= states[Filled(a)];
  }

  /** No legal assignment of any of the players outscores the search. */
  lemma SearchIsMaximal(players: seq<Entrant>, n: nat, score: real, path: Path, a: Assignment)
    requires FitsBelow(players, n) && Optimal(players, n, 0, {}, score, path) && Legal(players, a)
    ensures Total(players, a) <= score
  {
    var q := AssignmentToPath(players, n, 0, {}, a);
  }

  /** Adding a player never lowers the optimum. */
  lemma AddingNeverLowers(players: seq<Entrant>, c: Entrant, n: nat, score: real, path: Path, score': real, path': Path)
    requires FitsBelow(players + [c], n)
    requires Optimal(players, n, 0, {}, score, path) && Optimal(players + [c], n, 0, {}, score', path')
    ensures score <= score'
  {
    var a := PathToAssignment(players, n, 0, {}, path);
    LegalSnoc(players, a, c, None);
    SearchIsMaximal(players + [c], n, score', path', a + [None]);
  }

  // ---------------------------------------------------------------- the optimiser

  /** A roster player: his position, his score in the chosen mode, whether he can start at all, and his slot now, if any. */
  datatype RosterPlayer = RosterPlayer(position: string, score: real, available: bool, slotNow: string)

  predicate Starts(p: RosterPlayer) {
    p.slotNow != "" && p.slotNow != "BN" && p.slotNow != "BENCH" && p.slotNow != "IR" && p.slotNow != "NA"
  }

  /** What the players who start now score together. */
  function CurrentTotal(players: seq<RosterPlayer>): real {
    if |players| == 0 then 0.0
    else
      var p := players[|players| - 1];
      CurrentTotal(players[..|players| - 1]) + (if Starts(p) then p.score else 0.0)
  }

  /** Upper-cased slot names that never start anyone. */
  predicate IsReserve(slot: string) {
    slot == "BN" || slot == "BENCH" || slot == "IR" || slot == "IR+" || slot == "NA"
  }

  predicate IsFlex(slot: string) {
    || slot == "FLEX" || slot == "W/R/T" || slot == "W/R" || slot == "W/T"
    || slot == "SUPERFLEX" || slot == "Q/W/R/T" || slot == "OP"
  }

  predicate FlexTakes(slot: string, position: string) {
    match position
    case "WR" => true
    case "RB" => slot != "W/T"
    case "TE" => slot != "W/R"
    case "QB" => slot == "SUPERFLEX" || slot == "Q/W/R/T" || slot == "OP"
    case _ => false
  }

  /** Whether an upper-cased position may fill an upper-cased slot. */
  predicate Eligible(position: string, slot: string) {
    if IsReserve(slot) then false
    else if IsFlex(slot) then FlexTakes(slot, position)
    else if slot == "D/ST" || slot == "DST" then position == "DEF" || position == "D/ST" || position == "DST"
    else position == slot
  }

  function ActiveSlots(rosterSlots: seq<string>): seq<string> {
    Keep(rosterSlots, (slot: string) => !IsReserve(slot))
  }

  function Candidates(players: seq<RosterPlayer>): seq<RosterPlayer> {
    Keep(players, (p: RosterPlayer) => p.available)
  }

  function EntrantOf(p: RosterPlayer, slots: seq<string>): Entrant {
    var fits := set s: nat | s < |slots| && Eligible(p.position, slots[s]);
    Entrant(fits, p.score)
  }

  function EntrantsOf(players: seq<RosterPlayer>, slots: seq<string>): (es: seq<Entrant>)
    ensures |es| == |players|
    ensures FitsBelow(es, |slots|)
  {
    seq(|players|, i requires 0 <= i < |players| => EntrantOf(players[i], slots))
  }

  datatype LineupResult = LineupResult(assignments: seq<(string, RosterPlayer, real)>, total: real, currentTotal: real,
                                       unfilled: seq<string>)

  function ScoreSum(assignments: seq<(string, RosterPlayer, real)>): real {
    if |assignments| == 0 then 0.0
    else ScoreSum(assignments[..|assignments| - 1]) + assignments[|assignments| - 1].2
  }

  lemma {:induction false} PathTotalSnoc(players: seq<Entrant>, path: Path, step: Option<nat>)
    ensures PathTotal(players, path + [step]) == PathTotal(players, path)
              + (if step.Some? && step.value < |players| then players[step.value].points else 0.0)
  {
    if |path| == 0 {
      assert path + [step] == [step] && [step][1..] == [];
      assert PathTotal(players, [step][1..]) == 0.0;
    } else {
      PathTotalSnoc(players, path[1..], step);
      assert (path + [step])[1..] == path[1..] + [step];
    }
  }

  /** Each given slot with its player and score, in slot order. */
  function Assigned(slots: seq<string>, players: seq<RosterPlayer>, path: Path): seq<(string, RosterPlayer, real)>
    requires |path| == |slots|
  {
    if |path| == 0 then []
    else
      var n := |path| - 1;
      Assigned(slots[..n], players, path[..n])
      + (if path[n].Some? && path[n].value < |players|
         then [(slots[n], players[path[n].value], players[path[n].value].score)] else [])
  }

  function Unfilled(slots: seq<string>, path: Path): seq<string>
    requires |path| == |slots|
  {
    if |path| == 0 then []
    else
      var n := |path| - 1;
      Unfilled(slots[..n], path[..n]) + (if path[n].None? then [slots[n]] else [])
  }

  /** The scores of the given slots add up to the total of the path. */
  lemma {:induction false} AssignedTotal(slots: seq<string>, names: seq<string>, players: seq<RosterPlayer>, path: Path)
    requires |path| == |slots|
    ensures ScoreSum(Assigned(slots, players, path)) == PathTotal(EntrantsOf(players, names), path)
  {
    if |path| != 0 {
      var n := |path| - 1;
      AssignedTotal(slots[..n], names, players, path[..n]);
      PathTotalSnoc(EntrantsOf(players, names), path[..n], path[n]);
      assert path == path[..n] + [path[n]];
      var front := Assigned(slots[..n], players, path[..n]);
      if path[n].Some? && path[n].value < |players| {
        var last := (slots[n], players[path[n].value], players[path[n].value].score);
        ScoreSumSnoc(front, last);
        assert Assigned(slots, players, path) == front + [last];
      } else {
        assert Assigned(slots, players, path) == front;
      }
    }
  }

  lemma ScoreSumSnoc(front: seq<(string, RosterPlayer, real)>, last: (string, RosterPlayer, real))
    ensures ScoreSum(front + [last]) == ScoreSum(front) + last.2
  {
    assert (front + [last])[..|front|] == front;
  }

  method TotalNow(players: seq<RosterPlayer>) returns (total: real)
    ensures total == CurrentTotal(players)
  {
    total := 0.0;
    for i := 0 to |players|
      invariant total == CurrentTotal(players[..i])
    {
      assert players[..i + 1][..i] == players[..i];
      if Starts(players[i]) {
        total := total + players[i].score;
      }
    }
    assert players[..|players|] == players;
  }

  /**
    The best lineup of a roster: a legal path through the active slots, read off as assignments
    and open slots, that no other path of the available players outscores.
  */
  method OptimizeLineup(players: seq<RosterPlayer>, rosterSlots: seq<string>)
    returns (result: LineupResult, ghost path: Path)
    ensures var slots := ActiveSlots(rosterSlots);
            var candidates := Candidates(players);
            && Optimal(EntrantsOf(candidates, slots), |slots|, 0, {}, result.total, path)
            && result.assignments == Assigned(slots, candidates, path)
            && result.unfilled == Unfilled(slots, path)
    ensures ScoreSum(result.assignments) == result.total
    ensures result.currentTotal == CurrentTotal(Candidates(players))
  {
    hide EntrantOf;
    var slots := ActiveSlots(rosterSlots);
    var candidates := Candidates(players);
    var entrants := EntrantsOf(candidates, slots);
    var search := new SlotSearch(entrants, |slots|);
    var total, chosen := search.Solve(0, {});
    path := chosen;
    var assignments: seq<(string, RosterPlayer, real)>, unfilled: seq<string> := [], [];
    for i := 0 to |slots|
      invariant assignments == Assigned(slots[..i], candidates, chosen[..i])
      invariant unfilled == Unfilled(slots[..i], chosen[..i])
    {
      assert slots[..i + 1][..i] == slots[..i] && chosen[..i + 1][..i] == chosen[..i];
      if chosen[i].None? {
        unfilled := unfilled + [slots[i]];
      } else {
        var player := candidates[chosen[i].value];
        assignments := assignments + [(slots[i], player, player.score)];
      }
    }
    assert slots[..|slots|] == slots && chosen[..|slots|] == chosen;
    AssignedTotal(slots, slots, candidates, chosen);
    var current := TotalNow(candidates);
    result := LineupResult(assignments, total, current, unfilled);
  }

  /** The lineup of now as an assignment: everyone who starts has a slot, and nobody else. */
  ghost predicate StartersPlaced(players: seq<RosterPlayer>, a: Assignment) {
    |a| == |players| && forall p :: 0 <= p < |a| ==> (a[p].Some? <==> Starts(players[p]))
  }

  lemma {:induction false} StartersTotal(players: seq<RosterPlayer>, slots: seq<string>, a: Assignment)
    requires StartersPlaced(players, a)
    ensures Total(EntrantsOf(players, slots), a) == CurrentTotal(players)
  {
    hide EntrantOf, Eligible;
    if |players| != 0 {
      var n := |players| - 1;
      StartersTotal(players[..n], slots, a[..n]);
      assert EntrantsOf(players, slots)[..n] == EntrantsOf(players[..n], slots);
      EntrantPoints(players[n], slots);
    }
  }

  lemma EntrantPoints(p: RosterPlayer, slots: seq<string>)
    ensures EntrantOf(p, slots).points == p.score
  {
  }

  /** If the players who start now fit the slots at once, the best lineup scores at least what they do. */
  lemma BestIsAtLeastCurrent(players: seq<RosterPlayer>, slots: seq<string>, a: Assignment, total: real, path: Path)
    requires Optimal(EntrantsOf(players, slots), |slots|, 0, {}, total, path)
    requires Legal(EntrantsOf(players, slots), a) && StartersPlaced(players, a)
    ensures CurrentTotal(players) <= total
  {
    hide EntrantOf;
    StartersTotal(players, slots, a);
    SearchIsMaximal(EntrantsOf(players, slots), |slots|, total, path, a);
  }
}
