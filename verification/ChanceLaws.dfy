/** What a chance is, read off the game and the rules. */
module ChanceLaws {
  import opened PoolModel

  /**
    The chance that a pick of the team counts. The home team has the game's chance on the basis of the pool, the
    other team its complement; where losers are picked the two are exchanged.
  */
  ghost predicate HasChance(rules: Rules, g: Game, team: string, p: real) {
    match (rules.basis, rules.direction)
    case (StraightUp, Winner) => p == (if team == g.home then g.homeWin else 1.0 - g.homeWin)
    case (StraightUp, Loser) => p == (if team == g.home then 1.0 - g.homeWin else g.homeWin)
    case (AgainstSpread, Winner) => p == (if team == g.home then g.homeCover else 1.0 - g.homeCover)
    case (AgainstSpread, Loser) => p == (if team == g.home then 1.0 - g.homeCover else g.homeCover)
  }

  /** The evidence behind that chance. */
  ghost predicate HasKind(rules: Rules, g: Game, kind: ProbabilityKind) {
    match rules.basis
    case StraightUp => kind == g.winKind
    case AgainstSpread => kind == g.coverKind
  }

  ghost predicate IsEvidence(kind: ProbabilityKind) {
    kind in {Market, ProbabilityKind.Manual, Model}
  }

  /** The chance of the game rests on evidence. */
  ghost predicate OnEvidence(rules: Rules, g: Game) {
    match rules.basis
    case StraightUp => IsEvidence(g.winKind)
    case AgainstSpread => IsEvidence(g.coverKind)
  }

  lemma SurvivalIsChance(rules: Rules, g: Game, team: string)
    ensures HasChance(rules, g, team, Survival(rules, g, team))
    ensures HasChance(rules, g, team, Success(rules, g, HomeProbability(rules, g), team))
  {
  }

  lemma KindIsEvidence(rules: Rules, g: Game)
    ensures HasKind(rules, g, KindFor(rules, g)) && (Supported(KindFor(rules, g)) <==> IsEvidence(KindFor(rules, g)))
    ensures Supported(KindFor(rules, g)) <==> OnEvidence(rules, g)
  {
  }

  /** Named on the allow list, if there is one, and not on the block list, in the spelling of the lists. */
  ghost predicate Permitted(rules: Rules, team: string) {
    (rules.allowedTeams == [] || team in rules.allowedTeams) && !(team in rules.blockedTeams)
  }

  lemma PermittedIsNotBanned(rules: Rules, team: string)
    ensures Permitted(rules, team) <==> !Banned(rules, team)
  {
  }

  // ---------------------------------------------------------------- capitals

  /** The same letters, each small one raised to its capital. */
  ghost predicate Capitals(a: string, b: string) {
    && |a| == |b|
    && forall i :: 0 <= i < |a| ==>
         if 'a' <= a[i] <= 'z' then b[i] as int == a[i] as int - 32 else b[i] == a[i]
  }

  lemma {:induction false} UpperIsCapitals(a: string)
    ensures Capitals(a, Upper(a))
  {
    if |a| > 0 {
      UpperIsCapitals(a[..|a| - 1]);
    }
  }

  lemma {:induction false} CapitalsAreUpper(a: string, b: string)
    requires Capitals(a, b)
    ensures Upper(a) == b
  {
    UpperIsCapitals(a);
    var u := Upper(a);
    forall i | 0 <= i < |a| ensures u[i] == b[i] {
      assert (if 'a' <= a[i] <= 'z' then u[i] as int == a[i] as int - 32 else u[i] == a[i]);
    }
  }

  /** Some spelling of the list has these capitals. */
  ghost predicate OnList(teams: seq<string>, team: string) {
    exists i :: 0 <= i < |teams| && Capitals(teams[i], team)
  }

  /** Named on the allow list, if there is one, and not on the block list, whatever the spelling of the lists. */
  ghost predicate PermittedInCapitals(rules: Rules, team: string) {
    (rules.allowedTeams == [] || OnList(rules.allowedTeams, team)) && !OnList(rules.blockedTeams, team)
  }

  lemma ListInCapitals(teams: seq<string>, team: string)
    ensures team in UpperAll(teams) <==> OnList(teams, team)
  {
    hide Upper, Capitals;
    if team in UpperAll(teams) {
      var i :| 0 <= i < |teams| && Upper(teams[i]) == team;
      UpperIsCapitals(teams[i]);
    }
    if OnList(teams, team) {
      var i :| 0 <= i < |teams| && Capitals(teams[i], team);
      CapitalsAreUpper(teams[i], team);
      assert Upper(teams[i]) == team;
    }
  }

  /** The two list checks of the card are this one. */
  lemma CapitalChecks(rules: Rules, team: string)
    ensures PermittedInCapitals(rules, team) <==> !OffList(rules, team) && !Blocked(rules, team)
  {
    hide Upper, OnList;
    ListInCapitals(rules.allowedTeams, team);
    ListInCapitals(rules.blockedTeams, team);
  }
}
