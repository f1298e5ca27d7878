/** First cards of an entry on which the checks of saving, judging and settling a card differ. */
module CardExamples {
  import opened Wrappers
  import opened PoolModel
  import opened PoolOutcomes
  import opened WeeklyCard
  import opened CardLaws
  import opened CardAgreement
  import opened CardSettlement
  import opened Examples

  /** One game, no pick yet. */
  function FirstDesk(): Desk {
    Desk([ExampleGame(1, "NYJ", "BUF", 0.9)], [], map[], 1)
  }

  /** The home team, without a weight. */
  function HomeRequest(): Request {
    Request(None, 1, "BUF", None)
  }

  lemma OneGame(pool: Pool)
    requires pool.season == 2025
    ensures StampDesk(pool, FirstDesk(), 0) == FirstDesk()
    ensures WeekOf(pool, FirstDesk().games, 1) == FirstDesk().games && PicksIn(FirstDesk().picks, 1) == []
    ensures GamesNumbered(FirstDesk().games) && FindGame(FirstDesk().games, 1) == Some(FirstDesk().games[0])
  {
    var games := FirstDesk().games;
    assert games[..0] == [];
    assert InSeason(games, 2025) == games;
  }

  lemma NothingIsLocked(pool: Pool)
    requires pool.season == 2025 && pool.rules.lockMode.GameStart?
    ensures !HasConflict(pool, FirstDesk(), 1, [HomeRequest()], 0)
  {
    hide WeekOf, PicksIn, StampDesk, FindGame;
    OneGame(pool);
    var games, requests := FirstDesk().games, [HomeRequest()];
    assert FindPick(pool, [], Some(1)).None?;
    assert !TooLate(pool, games, [], requests[0], 0);
    assert LateConflicts(pool, games, [], requests, 0, 0) == [];
    assert LateConflicts(pool, games, [], requests, 1, 0) == [];
    assert PickConflicts(pool, games, games, requests, [], 0, 0) == [];
  }

  lemma NothingIsWrong(pool: Pool)
    requires pool.poolType.Confidence? && pool.season == 2025 && !WeightsMisfit(pool, 1)
    requires !OffList(pool.rules, "BUF") && !Blocked(pool.rules, "BUF")
    ensures !HasFinding(pool, FirstDesk(), 1, [HomeRequest()])
  {
    hide OffList, Blocked, WeightsMisfit, WeekOf, FindGame, StampDesk;
    OneGame(pool);
    var games, requests := FirstDesk().games, [HomeRequest()];
    assert requests[..0] == [];
    assert RequestCodes(pool, [], 1, games, requests, requests[0]) == [];
    assert RequestFindings(pool, [], 1, games, requests, 0) == [];
    assert RequestFindings(pool, [], 1, games, requests, 1) == [];
  }

  /** The card is accepted before the kickoff. */
  lemma FirstCard(pool: Pool)
    requires pool.poolType.Confidence? && pool.season == 2025 && !WeightsMisfit(pool, 1)
    requires !OffList(pool.rules, "BUF") && !Blocked(pool.rules, "BUF") && pool.rules.lockMode.GameStart?
    ensures SaveCard(pool, true, FirstDesk(), 1, 0, [HomeRequest()], 0)
            == Saved(Stored(pool, FirstDesk(), 1, [HomeRequest()], 0))
    ensures Accepted(pool, FirstDesk(), 1, [HomeRequest()], 0) && WellFormedCard(pool, FirstDesk(), 1)
    ensures GamesNumbered(FirstDesk().games)
  {
    hide OffList, Blocked, WeightsMisfit, WeekOf, StampDesk, HasConflict, HasFinding, Stored;
    OneGame(pool);
    NothingIsLocked(pool);
    NothingIsWrong(pool);
  }

  /** What is stored for the request. */
  lemma OnePick(pool: Pool) returns (p: Pick)
    requires pool.poolType.Confidence? && pool.season == 2025 && !WeightsMisfit(pool, 1)
    requires !OffList(pool.rules, "BUF") && !Blocked(pool.rules, "BUF") && pool.rules.lockMode.GameStart?
    ensures p in PicksIn(Stored(pool, FirstDesk(), 1, [HomeRequest()], 0).picks, 1)
    ensures p.team == "BUF" && p.confidence.None?
  {
    hide OffList, Blocked, WeightsMisfit, WeekOf, PicksIn, Accepted, Stored, CardLines, WellFormedCard;
    FirstCard(pool);
    var requests := [HomeRequest()];
    SavedCardIsRequested(pool, FirstDesk(), 1, requests, 0);
    var card := PicksIn(Stored(pool, FirstDesk(), 1, requests, 0).picks, 1);
    assert requests[..0] == [];
    assert LineOfRequest(pool, requests[0]) in RequestLines(pool, requests);
    var i := LineIsThere(pool, card, LineOfRequest(pool, requests[0]));
    p := card[i];
  }

  lemma {:induction false} LineIsThere(pool: Pool, card: seq<Pick>, line: CardLine) returns (i: nat)
    requires line in CardLines(pool, card)
    ensures i < |card| && LineOf(pool, card[i]) == line
  {
    var n := |card| - 1;
    if line in CardLines(pool, card[..n]) {
      i := LineIsThere(pool, card[..n], line);
    } else {
      i := n;
    }
  }

  /** A team allowed in small letters can be saved, and settlement calls the pick malformed. */
  lemma SmallLettersMislead() returns (pool: Pool, p: Pick)
    ensures pool == ExamplePool([]).(rules := ExamplePool([]).rules.(allowedTeams := ["buf"]))
    ensures
      var outcome := SaveCard(pool, true, FirstDesk(), 1, 0, [HomeRequest()], 0);
      && outcome.Saved? && p in outcome.desk.picks && Banned(pool.rules, p.team)
      && Malformed(pool, outcome.desk.picks, InSeason(outcome.desk.games, pool.season), p)
  {
    hide SaveCard, Stored, Malformed, InSeason, PicksIn, Accepted, WellFormedCard, GamesNumbered;
    pool := ExamplePool([]).(rules := ExamplePool([]).rules.(allowedTeams := ["buf"]));
    assert Upper("buf") == "BUF" by {
      assert "buf"[..2] == "bu" && "bu"[..1] == "b" && "b"[..0] == "";
    }
    assert Upper(pool.rules.allowedTeams[0]) == "BUF";
    assert !OffList(pool.rules, "BUF");
    FirstCard(pool);
    p := OnePick(pool);
    SavedPickIsMalformedExactlyWhen(pool, FirstDesk(), 1, [HomeRequest()], 0, p);
  }

  /** A confidence pick can be saved without a weight, and settlement calls it malformed. */
  lemma MissingWeightMisleads() returns (pool: Pool, p: Pick)
    ensures pool == ExamplePool([])
    ensures
      var outcome := SaveCard(pool, true, FirstDesk(), 1, 0, [HomeRequest()], 0);
      && outcome.Saved? && p in outcome.desk.picks && p.confidence.None?
      && Malformed(pool, outcome.desk.picks, InSeason(outcome.desk.games, pool.season), p)
  {
    hide SaveCard, Stored, Malformed, InSeason, PicksIn, Accepted, WellFormedCard, GamesNumbered;
    pool := ExamplePool([]);
    FirstCard(pool);
    p := OnePick(pool);
    SavedPickIsMalformedExactlyWhen(pool, FirstDesk(), 1, [HomeRequest()], 0, p);
  }

  /** With a weight of zero the card is accepted and still in need of repair, at any later time. */
  lemma ZeroWeightMisleads(judged: int) returns (pool: Pool)
    ensures pool == ExamplePool([0])
    ensures
      var outcome := SaveCard(pool, true, FirstDesk(), 1, 0, [HomeRequest()], 0);
      && outcome.Saved?
      && CardFindings(pool, outcome.desk.games, outcome.desk.picks, 1, |PicksIn(outcome.desk.picks, 1)|) == []
      && StateOf(pool, outcome.desk.games, outcome.desk.picks, 1, judged) == NeedsRepair
  {
    hide SaveCard, Stored, PicksIn, Accepted, WellFormedCard, GamesNumbered, CardFindings, StateOf;
    pool := ExamplePool([0]);
    FirstCard(pool);
    SavedCardHasNoFindings(pool, FirstDesk(), 1, [HomeRequest()], 0);
    assert pool.rules.confidenceWeights[0] == 0;
    ValidatorsAgreeExactlyWhen(pool, FirstDesk(), 1, [HomeRequest()], 0, judged);
  }
}
