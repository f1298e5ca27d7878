/** The optimised lineup of a roster told on positions, slots and scores. */
module SlotLaws {
  import opened Wrappers
  import opened Matching
  import opened LineupSearch

  /** The positions that may fill a slot; slots of the bench and the injured take nobody. */
  ghost function Takers(slot: string): set<string> {
    if slot in {"BN", "BENCH", "IR", "IR+", "NA"} then {}
    else if slot in {"FLEX", "W/R/T"} then {"RB", "WR", "TE"}
    else if slot == "W/R" then {"RB", "WR"}
    else if slot == "W/T" then {"WR", "TE"}
    else if slot in {"SUPERFLEX", "Q/W/R/T", "OP"} then {"QB", "RB", "WR", "TE"}
    else if slot in {"D/ST", "DST"} then {"DEF", "D/ST", "DST"}
    else {slot}
  }

  lemma EligibleTold(position: string, slot: string)
    ensures Eligible(position, slot) <==> position in Takers(slot)
  {
  }

  /** The slot starts players. */
  ghost predicate IsActive(slot: string) {
    slot !in {"BN", "BENCH", "IR", "IR+", "NA"}
  }

  /** A player of the roster who can start, in a slot his position may fill, with his own score. */
  ghost predicate WellPlaced(players: seq<RosterPlayer>, slots: seq<string>, x: (string, RosterPlayer, real)) {
    x.1 in players && x.1.available && x.0 in slots && x.1.position in Takers(x.0) && x.2 == x.1.score
  }

  lemma {:induction false} AssignedTold(players: seq<RosterPlayer>, slots: seq<string>, names: seq<string>, path: Path,
                                        x: (string, RosterPlayer, real))
    requires |path| == |slots| && slots <= names && x in Assigned(slots, players, path)
    requires forall j :: 0 <= j < |path| && path[j].Some? ==>
               path[j].value < |players| && j in EntrantsOf(players, names)[path[j].value].fits
    ensures x.1 in players && x.0 in slots && x.1.position in Takers(x.0) && x.2 == x.1.score
  {
    hide Eligible, Takers;
    var n := |path| - 1;
    if x in Assigned(slots[..n], players, path[..n]) {
      assert slots[..n] <= names;
      AssignedTold(players, slots[..n], names, path[..n], x);
    } else {
      assert x == (slots[n], players[path[n].value], players[path[n].value].score);
      assert n in EntrantOf(players[path[n].value], names).fits;
      EligibleTold(x.1.position, slots[n]);
      assert slots[n] == names[n];
    }
  }

  /** The slots with and without a player are together the active slots. */
  lemma {:induction false} SlotsSplit(players: seq<RosterPlayer>, slots: seq<string>, path: Path)
    requires |path| == |slots| && forall j :: 0 <= j < |path| && path[j].Some? ==> path[j].value < |players|
    ensures multiset(Names(Assigned(slots, players, path))) + multiset(Unfilled(slots, path)) == multiset(slots)
  {
    hide Names, Assigned, Unfilled;
    if |path| == 0 {
      NothingToSplit(players, slots, path);
    } else {
      var n := |path| - 1;
      SlotsSplit(players, slots[..n], path[..n]);
      SplitOneMore(players, slots, path);
      assert slots == slots[..n] + [slots[n]];
    }
  }

  lemma NothingToSplit(players: seq<RosterPlayer>, slots: seq<string>, path: Path)
    requires |path| == |slots| == 0
    ensures Names(Assigned(slots, players, path)) == [] && Unfilled(slots, path) == []
  {
  }

  lemma SplitOneMore(players: seq<RosterPlayer>, slots: seq<string>, path: Path)
    requires |path| == |slots| > 0 && forall j :: 0 <= j < |path| && path[j].Some? ==> path[j].value < |players|
    ensures
      var n := |path| - 1;
      var names, open := Names(Assigned(slots[..n], players, path[..n])), Unfilled(slots[..n], path[..n]);
      && (path[n].Some? ==> Names(Assigned(slots, players, path)) == names + [slots[n]] && Unfilled(slots, path) == open)
      && (path[n].None? ==> Names(Assigned(slots, players, path)) == names && Unfilled(slots, path) == open + [slots[n]])
  {
    hide Names;
    var n := |path| - 1;
    AssignedOneMore(players, slots, path);
    if path[n].Some? {
      NamesSnoc(Assigned(slots[..n], players, path[..n]), (slots[n], players[path[n].value], players[path[n].value].score));
    }
    UnfilledOneMore(slots, path);
  }

  lemma AssignedOneMore(players: seq<RosterPlayer>, slots: seq<string>, path: Path)
    requires |path| == |slots| > 0 && forall j :: 0 <= j < |path| && path[j].Some? ==> path[j].value < |players|
    ensures
      var n := |path| - 1;
      var front := Assigned(slots[..n], players, path[..n]);
      && (path[n].None? ==> Assigned(slots, players, path) == front)
      && (path[n].Some? ==> Assigned(slots, players, path)
                            == front + [(slots[n], players[path[n].value], players[path[n].value].score)])
  {
  }

  lemma UnfilledOneMore(slots: seq<string>, path: Path)
    requires |path| == |slots| > 0
    ensures
      var n := |path| - 1;
      && (path[n].None? ==> Unfilled(slots, path) == Unfilled(slots[..n], path[..n]) + [slots[n]])
      && (path[n].Some? ==> Unfilled(slots, path) == Unfilled(slots[..n], path[..n]))
  {
  }

  lemma NamesSnoc(front: seq<(string, RosterPlayer, real)>, last: (string, RosterPlayer, real))
    ensures Names(front + [last]) == Names(front) + [last.0]
  {
  }

  ghost function Names(assignments: seq<(string, RosterPlayer, real)>): (names: seq<string>)
    ensures |names| == |assignments| && forall i :: 0 <= i < |names| ==> names[i] == assignments[i].0
  {
    seq(|assignments|, i requires 0 <= i < |assignments| => assignments[i].0)
  }

  /** The places of the chosen players among the candidates, in slot order; nobody is chosen twice. */
  ghost predicate ChosenOnce(candidates: seq<RosterPlayer>, assignments: seq<(string, RosterPlayer, real)>, chosen: seq<nat>) {
    && |chosen| == |assignments|
    && (forall i :: 0 <= i < |chosen| ==> chosen[i] < |candidates| && assignments[i].1 == candidates[chosen[i]])
    && forall i, j :: 0 <= i < j < |chosen| ==> chosen[i] != chosen[j]
  }

  lemma {:induction false} ChosenAre(players: seq<RosterPlayer>, slots: seq<string>, path: Path) returns (chosen: seq<nat>)
    requires |path| == |slots| && forall j :: 0 <= j < |path| && path[j].Some? ==> path[j].value < |players|
    requires forall i, j :: 0 <= i < j < |path| && path[i].Some? ==> path[i] != path[j]
    ensures ChosenOnce(players, Assigned(slots, players, path), chosen)
    ensures forall k :: k in chosen ==> Some(k) in path
  {
    chosen := [];
    if |path| > 0 {
      var n := |path| - 1;
      var front := ChosenAre(players, slots[..n], path[..n]);
      chosen := front;
      if path[n].Some? {
        chosen := front + [path[n].value];
        forall k | k in front ensures k != path[n].value {
          assert Some(k) in path[..n];
          var i :| 0 <= i < n && path[..n][i] == Some(k);
          assert path[i] != path[n];
        }
      }
      assert path == path[..n] + [path[n]];
    }
  }

  /**
    The lineup of a legal path: available players, each once, in active slots that take their positions and with
    their own scores; the slots without a player are the others.
  */
  lemma LineupTold(players: seq<RosterPlayer>, rosterSlots: seq<string>, path: Path, total: real) returns (chosen: seq<nat>)
    requires Optimal(EntrantsOf(Candidates(players), ActiveSlots(rosterSlots)), |ActiveSlots(rosterSlots)|, 0, {}, total, path)
    ensures |path| == |ActiveSlots(rosterSlots)|
    ensures
      var slots, candidates := ActiveSlots(rosterSlots), Candidates(players);
      var assignments := Assigned(slots, candidates, path);
      && (forall x :: x in assignments ==> WellPlaced(players, rosterSlots, x) && IsActive(x.0))
      && ChosenOnce(candidates, assignments, chosen)
      && multiset(Names(assignments)) + multiset(Unfilled(slots, path)) == multiset(slots)
      && (forall slot :: slot in slots <==> slot in rosterSlots && IsActive(slot))
      && (forall p :: p in candidates <==> p in players && p.available)
  {
    hide EntrantOf, Takers, Assigned, Unfilled;
    var slots, candidates := ActiveSlots(rosterSlots), Candidates(players);
    PathFits(candidates, slots, total, path);
    SlotsSplit(candidates, slots, path);
    chosen := ChosenAre(candidates, slots, path);
    forall x | x in Assigned(slots, candidates, path) ensures WellPlaced(players, rosterSlots, x) && IsActive(x.0) {
      AssignedTold(candidates, slots, slots, path, x);
    }
  }

  lemma PathFits(candidates: seq<RosterPlayer>, slots: seq<string>, total: real, path: Path)
    requires Optimal(EntrantsOf(candidates, slots), |slots|, 0, {}, total, path)
    ensures |path| == |slots|
    ensures forall j :: 0 <= j < |path| && path[j].Some? ==>
              path[j].value < |candidates| && j in EntrantsOf(candidates, slots)[path[j].value].fits
    ensures forall i, j :: 0 <= i < j < |path| && path[i].Some? ==> path[i] != path[j]
  {
    hide EntrantOf;
  }

  // ---------------------------------------------------------------- the lineup of now

  /** The player is in a slot that starts him. */
  ghost predicate StartsNow(p: RosterPlayer) {
    p.slotNow !in {"", "BN", "BENCH", "IR", "NA"}
  }

  /** What the players who start now score, told from the front of the list. */
  ghost function ScoreNow(players: seq<RosterPlayer>): real {
    if |players| == 0 then 0.0 else (if StartsNow(players[0]) then players[0].score else 0.0) + ScoreNow(players[1..])
  }

  lemma {:induction false} ScoreNowSnoc(players: seq<RosterPlayer>, p: RosterPlayer)
    ensures ScoreNow(players + [p]) == ScoreNow(players) + (if StartsNow(p) then p.score else 0.0)
  {
    if |players| == 0 {
      assert players + [p] == [p];
      assert ScoreNow([p][1..]) == 0.0;
    } else {
      ScoreNowSnoc(players[1..], p);
      assert (players + [p])[1..] == players[1..] + [p];
    }
  }

  lemma {:induction false} CurrentTold(players: seq<RosterPlayer>)
    ensures CurrentTotal(players) == ScoreNow(players)
  {
    if |players| > 0 {
      var n := |players| - 1;
      CurrentTold(players[..n]);
      ScoreNowSnoc(players[..n], players[n]);
      assert players == players[..n] + [players[n]];
    }
  }
}
