# Open Gridiron: verified models of its planning, drafting and pool logic

A Dafny model of the parts of Open Gridiron that decide things: the season allocator for survivor
pools, the lineup optimisers, the draft room with its event log and provider reconciliation, the
weekly pool card, and the import of the season schedule. The operations in the table below follow the
Python code they cite in branches, error cases and constants, apart from what "Left out" names. Each
row says what is proved of its member, for all inputs or for all runs; a promise that the code does not
keep has its exact condition under "What turned out not to hold". `dafny verify dfyconfig.toml` checks
everything.

## The parts

**Season allocator** (`Sequences`, `Sorting`, `Flow`, `Residual`, `PathSearch`, `Augmentation`, `SeasonNetwork`, `PlanFlow`,
`PoolModel`, `PoolOutcomes`, `SeasonPlan`, `Allocator`, `PlanLaws`, `Planner`, `PlanChances`,
`ChanceLaws`, `GradeLaws`). `Network` is an object
with adjacency lists whose capacities change in place. A ghost ledger ties each edge pair to an arc and
its flow. The Bellman-Ford loops, the walk back along the predecessors and the unit augmentation are
proved against it, with prices as the witness that no residual cycle is negative. The flow is then
read back as a plan, and the plan as a card that obeys the rules of the pool.

**Lineups** (`Matching`, `LineupTable`, `LineupUtility`, `LineupSearch`, `Replacement`,
`FitLaws`, `SlotLaws`, `Rearrangement`, `ConfidenceCard`, `Suggestions`, `SuggestionLaws`, `CardChances`). A legal assignment of players to
slots is defined once. The player-first table, the fast query on it and the remembered slot-first search are all proved
exact against it, and so agree with each other.

**Draft room** (`DraftLog`, `DraftRoom`, `DraftLaws`, `Reconciling`, `DraftRuns`, `DraftLimits`,
`PassBoard`, `DraftFeeds`, `DraftStatus`, `DraftMutations`, `DraftSession`, `DraftRoster`, `DraftTakeover`,
`MockDraft`, `RequestLaws`, `RowLaws`, `MockLaws`). `DraftRoom` gives the meaning of every request as a value: the room after it, or an error. `DraftSession.Session` is the object whose fields the requests change;
each method is proved to bring its fields to that value, or to leave them alone. The laws are about
runs: any sequence of requests, provider syncs, mode changes and conflict resolutions.

**Weekly card** (`WeeklyCard`, `CardDesk`, `CardLaws`, `CardAgreement`, `CardSettlement`,
`CardExamples`, `LockLaws`, `ReceiptLaws`, `CodeLaws`, `StateLaws`). The same shape: values, an object proved against them, and laws over saves and over runs in which the
clock moves, games are stamped, schedules are refreshed and cards are saved in any order.

**Schedule import** (`Schedule`, `ScheduleLaws`). Plan first, then write, over two unique keys.

The modules whose names end in Laws or Chances tell what the definitions mean on the fields of games, picks,
rows and requests: chances, grades, receipts, conflict rows, placements, findings and states, without the
functions that compute them.

## What turned out not to hold

These are properties a reader could expect of the code; each is stated with the exact condition under
which the code meets it, or with the family of inputs that fails.

- Reconciliation can draft one player twice: `PassBoard.BatchRepeatsExactlyWhen` and
  `DraftLimits.PassRepeatsExactlyWhen` (exactly when), `DraftFeeds.FeedCanRepeatAPlayer` (a run from a new
  room in every session).
- So can accepting a conflict row: `DraftLimits.ResolveRepeatsExactlyWhen` (exactly when) and
  `DraftFeeds.AcceptedRowCanRepeat` (a run from a new room in every session).
- Accepting a conflict row can add a pick beyond the end of the draft: `DraftRuns.ResolveKeeps` (exactly
  when) and `DraftFeeds.AcceptedRowCanOverflow` (a run from a new room in every session).
- Picks reach the board of a session that is not live, even of an abandoned one, because only pick requests
  look at the status: `DraftStatus.AddsOutsideLiveExactlyWhen` (exactly when) and
  `DraftFeeds.AbandonedSessionTakesPicks` (a run from a new room in every session).
- A live draft that a batch completes is not taken over into the league roster:
  `DraftTakeover.CompletionIsShownExactlyWhen` (exactly when) and `DraftTakeover.SyncedDraftIsNotTakenOver`
  (a run from a new room in every live session). Requests alone keep the roster in step:
  `DraftTakeover.RequestsKeepInStep`.
- A card can be accepted and be in need of repair at once, without a finding, because only the judgement of
  stored cards looks for configured confidence weights of zero or less: `CardAgreement.SavedCardHasNoFindings`,
  `CardAgreement.ValidatorsAgreeExactlyWhen` (exactly when) and `CardExamples.ZeroWeightMisleads`.
- Settlement compares team lists in the spelling they are stored in, the weekly card in capitals, and only
  settlement asks for a weight: `CardSettlement.SavedPickIsMalformedExactlyWhen` (exactly when),
  `CardExamples.SmallLettersMislead` and `CardExamples.MissingWeightMisleads`.
- Suggestions on a weekly card are best over every order of the weights, but with weights below zero not
  always over every choice of teams and order: `SuggestionLaws.SuggestedCardIsBestExactlyWhen` (exactly
  when), `SuggestionLaws.NegativeWeightMisleads` and `SuggestionLaws.OutweighedTieMisleads`.
- An import can succeed and still lose a row, because both keys are looked up in the games as they were
  before the import: `Schedule.RowsAreKeptExactlyWhen` and `Schedule.ImportCanLoseARow`.

## Model

| member | source | states |
|---|---|---|
| `SeasonNetwork.Network.AddEdge` | backend/app/services/pool_strategy.py:44-51 | Inserting an edge adds one arc without flow and its empty reverse; arcs, flows and edge pairs already there keep their places. |
| `SeasonNetwork.Network.Round` | backend/app/services/pool_strategy.py:140-145 | One round over all edges in place: distances only fall, every edge is relaxed against the distances before the round, and the predecessor links stay an acyclic tree from the source over edges with capacity left. |
| `SeasonNetwork.Network.ShortestPaths` | backend/app/services/pool_strategy.py:135-147 | One round fewer than there are nodes, or an unchanged round, is enough: afterwards no edge with capacity left can be relaxed, and the links still form a tree. |
| `PathSearch.RelaxKeepsTree` | backend/app/services/pool_strategy.py:142-144 | Relaxing an edge keeps the links a tree although distances behind them have moved on: with prices that make no edge negative, a link can never close a cycle. |
| `PathSearch.ChainIsAcyclic` | backend/app/services/pool_strategy.py:150-152 | The walk back from any node visits no node twice. |
| `PathSearch.RoundsSuffice` | backend/app/services/pool_strategy.py:138-147 | After as many rounds as there are nodes but one, every relaxable edge would need a longer path than there are nodes, so none is left. |
| `PathSearch.DistancesPrice` | backend/app/services/pool_strategy.py:135-147 | The distances of a finished search, added to the old prices, are prices under which no edge with capacity left is negative and every link is tight. |
| `SeasonNetwork.Network.Augment` | backend/app/services/pool_strategy.py:150-156 | The walk from the sink ends at the source; edge pairs keep their sums and no capacity turns negative, prices stay good, inner nodes stay balanced and exactly one more unit leaves the source. |
| `Augmentation.PushKeepsWalking` | backend/app/services/pool_strategy.py:152-156 | One push on the walk moves the surplus unit one node back and keeps the residual graph, the prices and the rest of the chain. |
| `Residual.ShiftKeepsShape` | backend/app/services/pool_strategy.py:154-155 | Taking one unit from an edge and giving it to its reverse keeps every edge paired with its arc: forward capacity is the capacity not used, reverse capacity the flow. |
| `Residual.NoNegativeCycle` | backend/app/services/pool_strategy.py:140-156 | Priced residual graphs, and so those after every augmentation, have no cycle of negative cost. |
| `SeasonNetwork.Network.Fill` | backend/app/services/pool_strategy.py:133-157 | Successive shortest paths ships up to the required units: the result is a flow, its residual graph is priced, and it ships less than asked only when no flow ships more. |
| `Flow.SlackFlowIsCheapest` | backend/app/services/pool_strategy.py:133-157 | A flow whose residual edges are all non-negative under some prices costs no more than any flow of the same size. |
| `Flow.SaturatedCutIsMaximal` | backend/app/services/pool_strategy.py:148-149 | When the search no longer reaches the sink, the reached nodes are a saturated cut and no flow is larger. |
| `Augmentation.UnreachedSinkIsCut` | backend/app/services/pool_strategy.py:148-149 | The nodes a finished search reached form such a cut when the sink is not among them. |
| `PlanFlow.PlanIsFlow` | backend/app/services/pool_strategy.py:79-131 | Every plan within the limits of weeks, teams and games is a flow of its size through the four layers. |
| `PlanFlow.FlowIsPlan` | backend/app/services/pool_strategy.py:79-158 | Every flow through the four layers is the flow of exactly such a plan. |
| `PlanFlow.PlanCostIsFlowCost` | backend/app/services/pool_strategy.py:118-119 | The cost of the flow is the sum of the costs of the picks. |
| `Allocator.BuildNetwork` | backend/app/services/pool_strategy.py:79-132 | The loops over weeks, teams and games build the network of the planning problem, without flow, and keep for each candidate the place of its edge. |
| `Allocator.FlowIsBest` | backend/app/services/pool_strategy.py:133-157 | Read back as a plan, the shipped flow is legal, as large as any legal plan up to the required size, and cheapest among the legal plans of its size. |
| `SeasonPlan.PickedIsPlan` | backend/app/services/pool_strategy.py:158 | The saturated candidate edges are exactly the picks of the plan, in order. |
| `Planner.ReadPicks` | backend/app/services/pool_strategy.py:158 | Reading the used-up edges gives the candidates whose arcs carry a unit. |
| `Planner.CheckSaved` | backend/app/services/pool_strategy.py:36-77 | The gate before planning passes exactly the entries that are active, fully gradable, name a game and one of its teams in every saved pick, and stay within the weekly and team limits. |
| `Planner.PlanEntry` | backend/app/services/pool_strategy.py:26-172 | A refused entry gets its refusal; any other gets the card of a best plan, its status and the weeks left open. |
| `Planner.SeasonPlanner.Allocate` | backend/app/services/pool_strategy.py:161-162 | Planning an entry raises the exposure of later entries by its own picks and changes nothing else. |
| `Planner.SeasonPlanner.Strategy` | backend/app/services/pool_strategy.py:182-195 | Entries are planned in order, each best for the exposure left by exactly those before it. |
| `Planner.PlannedCardObeysTheRules` | backend/app/services/pool_strategy.py:36-172 | Saved and new picks together stay within the weekly limit and the team limit and use no game twice; every pick that was not saved before is on an open game of its week for a permitted team; the card is complete exactly when the rules allow a plan that fills every week, and no week is listed as missing exactly then. |
| `PlanLaws.LegalIffAllowed` | backend/app/services/pool_strategy.py:78-131 | The plans the network admits are exactly those that weekly and team limits allow, stated without the network. |
| `PlanLaws.CompleteIffPossible` | backend/app/services/pool_strategy.py:156 | A best plan has the required size exactly when some allowed plan fills every week. |
| `PlanLaws.CardWithinWeeklyLimit` | backend/app/services/pool_strategy.py:78-80 | No week to plan holds more picks than allowed, saved ones included. |
| `PlanLaws.CardWithinTeamLimit` | backend/app/services/pool_strategy.py:81-84 | No team is used more often than allowed, picks of earlier weeks included. |
| `PlanLaws.CardUsesGamesOnce` | backend/app/services/pool_strategy.py:57-95 | No game appears twice on the card. |
| `PlanLaws.NewPickOrigin` | backend/app/services/pool_strategy.py:86-132 | A new pick is on an open game of its week - not locked, started, stale or already picked, with supported evidence - for a permitted team of that game. |
| `PlanLaws.BestPlanMaximisesSurvival` | backend/app/services/pool_strategy.py:118 | Without an overlap penalty no allowed plan of the same size has a larger product of clamped survival probabilities, for any logarithm-like cost. |
| `PoolOutcomes.EntryResults` | backend/app/services/pool_outcomes.py:33-75 | Every stored pick gets its grade, or is ungraded when it breaks the pool rules or its game moved. |
| `PoolOutcomes.SettleSeason` | backend/app/services/pool_outcomes.py:78-95 | Every entry of every pool of the season gets the grades of its picks stored; what was recorded for a pick without a game of the season is kept, and entries of other seasons are left alone. |
| `PoolOutcomes.SettlingTwiceIsOnce` | backend/app/services/pool_outcomes.py:78-95 | Settling again changes nothing. |
| `PoolOutcomes.GradedPicksDiffer` | backend/app/services/pool_outcomes.py:39-64 | When nothing is ungraded, two survivor picks of a week differ in game, team and slot. |
| `PoolOutcomes.GradedPickHasGame` | backend/app/services/pool_outcomes.py:45-55 | A pick that is not ungraded names a game of its own week that its team plays in. |
| `PlanChances.OpenIsOnOffer` | backend/app/services/pool_strategy.py:88-112 | A game may receive a pick exactly when it is to be planned and no saved pick is on it, it is neither completed, locked nor started - with locks at the start of the week no game of the week is -, its forecast is at most 96 hours old and rests on market, manual or model evidence, and there is a line where the pool plays against one. |
| `PlanChances.NewItemIsOnOffer` | backend/app/services/pool_strategy.py:86-132 | Every pick that was not saved is on such a game, in its week, for one of its teams that the lists permit, and carries the chance of that team read off the game: the home chance on the basis of the pool for the home team, its complement for the away team, the two exchanged where losers are picked. |
| `PlanChances.OpponentCostsNoLess` | backend/app/services/pool_strategy.py:115-158 | Exchange law: had the permitted opponent a use left, taking him instead would not have cost less; cost is the logarithm of the clamped chance and the penalty for the picks of earlier plans. |
| `PlanChances.OpponentIsNoLikelier` | backend/app/services/pool_strategy.py:115-118 | Without a penalty no pick is on the team of a game whose permitted opponent has a use left and strictly the better clamped chance. |
| `PlanChances.ExposureCounts` | backend/app/services/pool_strategy.py:118-195 | The exposure a plan pays for counts the picks of the team in that week over all plans before it. |
| `PlanChances.SavedPartOfCard` | backend/app/services/pool_strategy.py:54-77 | The card begins with the saved picks of the weeks to plan, as they were saved. |
| `PlanChances.PlannedExactlyWhen` | backend/app/services/pool_strategy.py:36-77 | An entry is planned exactly when it is active and not out, every pick can be graded, the picks of the weeks to plan name a game on file and one of its teams, and all stay within the weekly and the team limit; a refused one is called inactive, eliminated or in need of repair. |
| `PlanChances.MissingWeeksTold` | backend/app/services/pool_strategy.py:159-172 | The missing weeks are the weeks to plan with fewer picks on the card than the pool asks for. |
| `ChanceLaws.SurvivalIsChance` | backend/app/services/pool_week.py:94-118 | The chance of a team is the one read off the game, for both bases and both directions. |
| `ChanceLaws.CapitalChecks` | backend/app/services/pool_week.py:189-190 | The list checks of the card ban a team exactly when no spelling of the allow list has its capitals, or some spelling of the block list has. |
| `GradeLaws.MalformedTold` | backend/app/services/pool_outcomes.py:45-74 | Settlement takes a pick exactly when its game is of its week and season, its team plays there and is permitted, no other pick of the week has the game or the team, and slot and uses, or weight, are within the rules and its own. |
| `GradeLaws.ResultTold` | backend/app/services/pool_outcomes.py:15-75 | The result of a pick on its scores: nothing before the game is over with both scores, ungraded without a stored line where the pool plays against one; otherwise it wins exactly when its team scored more under the line - less, where losers are picked - and a level game is what the pool makes of it. |
| `GradeLaws.OppositeGrades` | backend/app/services/pool_outcomes.py:20-30 | The two teams of one game under one line get opposite grades unless the game is level. |
| `GradeLaws.SettledTold` | backend/app/services/pool_outcomes.py:78-95 | What settlement stores is that result, for the picks whose game is of the season, and what was stored for the others. |
| `GradeLaws.EliminatedExactlyWhen` | backend/app/services/pool_outcomes.py:98-129 | A survivor entry is out exactly when it is active and a well-formed pick before the week lost on the scores. |
| `LineupTable.LineupStates` | backend/app/draft/recommendations.py:159-176 | The player-first table has exactly the slot sets that different fitting players can cover, each with its greatest points. |
| `Matching.ExactIsUnique` | backend/app/draft/recommendations.py:159-176 | There is only one such table, so the order of players and slots does not matter. |
| `Matching.MorePlayersNeverHurt` | backend/app/draft/recommendations.py:164-175 | Another player loses no slot set and makes none worse. |
| `LineupTable.BestLineupState` | backend/app/draft/recommendations.py:179-181 | The fullest state of the table, and among those the richest. |
| `LineupTable.BestLineupWithCandidate` | backend/app/draft/recommendations.py:184-201 | The best way to start the candidate on top of a state: fuller, then richer, then in the earlier slot; none exactly when he fits nowhere free. |
| `LineupUtility.FastQueryIsExact` | backend/app/draft/recommendations.py:179-201 | The best lineup of all players with the candidate is the better of the old best and the forced lineup: the fast query refines recomputation. |
| `LineupUtility.ForcingKeepsFill` | backend/app/draft/recommendations.py:221-233 | Exchange argument: a candidate who fits some slot starts in a lineup that fills no fewer slots than the base and at most one more. |
| `LineupUtility.MarginalLineupUtility` | backend/app/draft/recommendations.py:221-270 | The utility read off the tables is the one that the best lineups before and after signing the candidate give, for all slots and for direct slots; the flexible slot it names is the first one open in a best lineup that he may fill, or one he may fill if none is open. |
| `LineupUtility.UtilityIsFixed` | backend/app/draft/recommendations.py:221-270 | Recomputing both lineups leaves no choice: need, gain and kind of impact are the same for every utility that follows from best lineups. |
| `LineupUtility.AfterSigning` | backend/app/draft/recommendations.py:221-233 | The best lineup after signing, told from the best one before and the forced one. |
| `LineupUtility.CandidateUtilities` | backend/app/draft/recommendations.py:566-616 | The tables are built once; the utility of every candidate is that of recomputing both lineups with him. |
| `LineupSearch.SlotSearch.Solve` | backend/app/services/decision.py:71-86 | The remembered slot-first search returns a legal path and no legal path scores more; every remembered answer is optimal. |
| `LineupSearch.OptimizeLineup` | backend/app/services/decision.py:59-103 | The reported assignments and open slots are read off an optimal path of the players who can start, and their scores add up to the reported total; the current total is that of the players who start now. |
| `LineupSearch.BestIsAtLeastCurrent` | backend/app/services/decision.py:88-103 | If the players who start now fit the slots at once, the best lineup scores at least what they do. |
| `LineupSearch.SearchIsMaximal` | backend/app/services/decision.py:71-88 | No legal assignment of players to slots scores more than the search. |
| `LineupSearch.SearchAgreesWithTable` | backend/app/services/decision.py:71-88 | Under one eligibility relation the search finds exactly the highest total of the table of states. |
| `LineupSearch.PathToAssignment` | backend/app/services/decision.py:88-96 | Every legal path is a legal assignment of the same total. |
| `LineupSearch.AssignmentToPath` | backend/app/services/decision.py:76-85 | Every legal assignment is a legal path of the same total. |
| `LineupSearch.AddingNeverLowers` | backend/app/services/decision.py:59-88 | Adding a player never lowers the optimum. |
| `Replacement.ReplacementBaselines` | backend/app/draft/recommendations.py:319-364 | The loops consume what direct slots and then flexible slots, narrowest first, take; each baseline is the best row left at its position, zero if none is. |
| `Replacement.ConsumedIsPrefix` | backend/app/draft/recommendations.py:337-364 | Consumed rows are a prefix of the order of every position, a baseline lies between the consumed rows and the others, and no more rows are consumed than the league starts. |
| `Replacement.StartersAreConsumed` | backend/app/draft/recommendations.py:343-345 | The first rows of the position of a direct slot, one for each team and slot, are all consumed. |
| `Replacement.FlexTakesItsDemand` | backend/app/draft/recommendations.py:349-358 | A flexible slot consumes as many new rows as it needs, or all that are left to it. |
| `Replacement.DirectKeepsPrefix` | backend/app/draft/recommendations.py:343-345 | Consuming for a direct slot leaves prefixes at every position. |
| `Replacement.FlexKeepsPrefix` | backend/app/draft/recommendations.py:349-358 | Consuming for a flexible slot, across its positions, leaves prefixes at every position. |
| `FitLaws.TableHoldsPlacements` | backend/app/draft/recommendations.py:159-176 | Behind every entry of the table is a placement that gives just its slots for just its points, each started player in a slot that lists one of his positions; and every such placement has its slots in the table for no less. |
| `FitLaws.SingleSlots` | backend/app/draft/recommendations.py:164-175 | A single slot is an entry exactly when it lists a position of some player. |
| `FitLaws.UtilityTold` | backend/app/draft/recommendations.py:221-270 | A candidate cannot start exactly when no slot lists one of his positions. Otherwise the best lineups without and with him decide, over all slots and over slots of one position: 1 for opening a direct slot, 0.75 for opening another, three quarters of a gain up to 20 points, else nothing. |
| `FitLaws.DirectSlotTold` | backend/app/draft/recommendations.py:235-244 | The direct slot an impact names is the first one in which a best lineup over direct slots with the candidate starts him. |
| `FitLaws.FlexSlotTold` | backend/app/draft/recommendations.py:245-259 | The flexible slot an impact names is the first one that a best lineup of the owner leaves open and that lists the candidate, or else the first one in which a best lineup with him starts him. |
| `SlotLaws.EligibleTold` | backend/app/services/decision.py:16-40 | Who may fill a slot, as a table of positions by slot name. |
| `SlotLaws.LineupTold` | backend/app/services/decision.py:59-103 | The reported lineup gives available players, each once, active slots that take their positions, with their own scores; the slots without a player are exactly the other active ones. |
| `SlotLaws.CurrentTold` | backend/app/services/decision.py:98-102 | The current total is that of the available players in slots that start them. |
| `Replacement.BaselineTold` | backend/app/draft/recommendations.py:360-364 | The baseline of a position is the most points of a row of it that is left, and zero when none is. |
| `Replacement.SortFlexibleIsStable` | backend/app/draft/recommendations.py:347-349 | Flexible slots take their turns from the fewest positions up, those of one number in roster order. |
| `ConfidenceCard.ConfidenceRecommendations` | backend/app/services/decision.py:423-484 | The card is empty unless every game of the one week is open with a permitted team and the weights fit; otherwise it pairs the likeliest teams in ascending order with the weights in ascending order. |
| `ConfidenceCard.CardIsBest` | backend/app/services/decision.py:436-470 | No other choice of permitted teams and no other order of the weights has more expected points. |
| `Rearrangement.SortedPairingIsBest` | backend/app/services/decision.py:457-470 | Pairing two ascending lists gives the largest sum of products over all orders of the weights. |
| `Suggestions.Suggest` | backend/app/services/pool_week.py:105-163 | Suggestions are made only when every game is rated and the weights fit; they pair the likelier teams with the weights in ascending order. |
| `Suggestions.SuggestedOrderIsBest` | backend/app/services/pool_week.py:152-162 | For the suggested teams no other order of the weights is worth more, whatever the signs of the weights. |
| `SuggestionLaws.SuggestedCardIsBestExactlyWhen` | backend/app/services/pool_week.py:105-163 | For any configured weights, the suggestion is worth at least every choice of teams with every order of the weights exactly when, in ascending order, the weights below zero are no more than the tied games and none of them outweighs a weight that is left for the other games. Games have two different teams. |
| `SuggestionLaws.NegativeWeightMisleads` | backend/app/services/pool_week.py:148-162 | A failing input: one game of .9 to .1 and the weight -1. |
| `SuggestionLaws.OutweighedTieMisleads` | backend/app/services/pool_week.py:148-162 | A second one: a tied game and one of .9 to .1, with the weights -5 and 1; the tie takes the -5 and the card is still not the best. |
| `CardChances.RecommendableExactlyWhen` | backend/app/services/decision.py:430-469 | There is a recommended card exactly when a confidence pool has games of one week, each of them still to be played, of the season, fresh, on evidence, with a line where needed and a chance between 0 and 1, each with a permitted team, and weights, if configured, as many as games, different and above zero. |
| `CardChances.CardNamesLikelierTeams` | backend/app/services/decision.py:436-484 | It has one row for each game: the permitted team whose chance read off the game is larger - the later spelling of two that are level - with the weights from the heaviest on the likeliest game down. |
| `CardChances.SuggestibleExactlyWhen` | backend/app/services/pool_week.py:124-158 | Suggestions are made exactly for a confidence pool whose games all rest on evidence, with a line where needed, and whose weights fit. |
| `CardChances.SuggestionsNameLikelierTeams` | backend/app/services/pool_week.py:116-162 | They name the likelier team of each game, the home team of two that are level only when its best later chance is worth less, with the weights from the heaviest on the likeliest game down. |
| `DraftLog.ReducePicks` | backend/app/draft/reducer.py:29-57 | The loop over the events gives the replayed board: recordings and replacements set their overall, a reversal clears the overall of the event it names, incomplete events are passed over. |
| `DraftLog.ReplayClears` | backend/app/draft/reducer.py:37-40 | Reversing an active event clears exactly its overall, also when the event came before others. |
| `DraftRoster.SnakeInverse` | backend/app/draft/reducer.py:17-26 | The snake round and slot of the overall that belongs to a round and a slot are that round and slot. |
| `DraftRoster.SnakeForward` | backend/app/draft/reducer.py:17-26 | And every overall is the one that belongs to its snake round and slot. |
| `DraftSession.Session.constructor` | backend/app/draft/session.py:222-261 | A session that is ready to start is an empty, sound room. |
| `DraftSession.Session.AddEvent` | backend/app/draft/session.py:384-420 | An event takes the next number and the next sequence and is appended. |
| `DraftSession.Session.AppendPickEvent` | backend/app/draft/session.py:563-721 | Recording, undoing and replacing bring the fields to what the value-level room says; an error, also one found after events were added, leaves every field as it was; the room stays sound. |
| `DraftSession.Session.TransitionSession` | backend/app/draft/session.py:423-498 | The same for start, pause, resume, complete, abandon and reopen. |
| `DraftSession.Session.Observe` | backend/app/draft/reconciliation.py:197-299 | One provider observation against the board carried along: confirmation, placeholder upgrade, safe new pick or proposal. |
| `DraftSession.Session.ReconcileObservations` | backend/app/draft/reconciliation.py:181-313 | The loop with its carried board does what the value-level pass does, drops no active overall, and rolls back as a whole. |
| `DraftSession.Session.Resolve` | backend/app/draft/reconciliation.py:358-453 | Settling a conflict row does what the value-level room says, or nothing on an error. |
| `DraftSession.Session.ChangeSourceMode` | backend/app/draft/reconciliation.py:463-515 | Automatic modes follow their approval mode and need clearance; the change is logged. |
| `DraftLaws.AppendPickKeeps` | backend/app/draft/session.py:563-721 | An accepted request keeps the log in order and the board a gapless snake, changes the board exactly as its kind says, and is found under its key afterwards; a key used before changes nothing. |
| `DraftLaws.OutcomeKeepsNoRepeat` | backend/app/draft/session.py:599-606 | Recording and replacing never put a player on the board twice. |
| `DraftLaws.TransitionKeeps` | backend/app/draft/session.py:423-498 | A session action keeps the board and the order of the log. |
| `DraftRuns.ResolveKeeps` | backend/app/draft/reconciliation.py:387-450 | Accepting a row gives its pick to the chosen player and moves nothing else; contiguity and snake slots stay; the board outgrows the draft exactly when the row lies just past a full board. |
| `DraftLimits.ResolveRepeatsExactlyWhen` | backend/app/draft/reconciliation.py:375-443 | Resolving a row repeats a player exactly when the row is open, is accepted, and its player is drafted at another overall. |
| `DraftFeeds.AcceptedRowCanRepeat` | backend/app/draft/reconciliation.py:181-443 | From a new room, in every session with legal settings and for every identified player: a batch for approval names him for the first two picks and both rows are accepted; before the last acceptance no player is active twice, after it he is. |
| `DraftFeeds.AcceptedRowCanOverflow` | backend/app/draft/reconciliation.py:181-443 | From a new room, in every session with legal settings and fewer than 480 picks and for every list of identified players: a mode change, the start, a batch with one entry after the last pick, and the acceptance of the row it leaves give the board one pick more than the draft has. |
| `Reconciling.ReconcileOneKeeps` | backend/app/draft/reconciliation.py:197-299 | After each observation the carried board is the replay of the log, and at most the named pick changes, to the observed player. |
| `Reconciling.CarriedBoardIsReplay` | backend/app/draft/reconciliation.py:191-299 | After every observation of a batch the carried board equals the replay of the whole log, no active overall is dropped and the board stays within the draft. |
| `Reconciling.SecondRunChangesNothing` | backend/app/draft/reconciliation.py:181-313 | Running one batch with different overalls and provider keys again, in any source mode, leaves the whole room as it is: no event, no pick, no conflict row changes. |
| `Reconciling.StepKeepsQuiet` | backend/app/draft/reconciliation.py:213-299 | A later turn of another overall and another provider entry cannot wake an observation that is settled, although events and rows are added. |
| `Reconciling.SortIsStable` | backend/app/draft/reconciliation.py:197 | The sorted batch lists each observation of the batch once, by overall, and those of one overall in the order in which they came. |
| `DraftLimits.PassRepeatsExactlyWhen` | backend/app/draft/reconciliation.py:191-299 | At no point of a pass over a batch is a player active twice, exactly when no observation is applied at its turn for a player who is drafted at another overall, spelled out in the guards of the two branches that apply one. |
| `PassBoard.PassBoardIs` | backend/app/draft/reconciliation.py:191-299 | A pass in order of overalls leaves a board told from the room and the batch alone: the overalls up to the end of the unbroken run of usable entries, each with the upgraded, the new or the old player, and the picks no entry names as they were. |
| `PassBoard.BatchBoard` | backend/app/draft/reconciliation.py:181-313 | The same for a whole batch in any order that has no overall and no key twice. |
| `PassBoard.BatchRepeatsExactlyWhen` | backend/app/draft/reconciliation.py:181-313 | Such a batch leaves a player active twice exactly when two overalls of that table have one player, which can be told before the call. A batch with ties that names no placeholder does exactly when an entry drafts a player again at its turn. |
| `DraftLimits.StepRepeatsExactlyWhen` | backend/app/draft/reconciliation.py:213-298 | The same for one observation. |
| `DraftFeeds.FeedCanRepeatAPlayer` | backend/app/draft/reconciliation.py:181-313 | From a new room, in every session with legal settings and for every identified player: a mode change, the start and one batch that names him for the first two picks leave him active twice. |
| `DraftStatus.AddsOutsideLiveExactlyWhen` | backend/app/draft/session.py:581-588 | Outside a live session no pick request, action or mode change adds to the board; a batch without ties does exactly when its usable entries reach beyond the board, and resolving a row exactly when it is accepted for the next overall. |
| `DraftFeeds.AbandonedSessionTakesPicks` | backend/app/draft/reconciliation.py:181-313 | From a new room, in every session: after a mode change and the abandonment of the session, a batch fills the board, in part or in full, and the session stays abandoned. |
| `DraftTakeover.RequestsKeepInStep` | backend/app/draft/session.py:483-713 | Over every run of requests and takeovers in any order, a live draft that is completed on a full board is on the league roster: every drafted player with the team of his pick, everyone else free. |
| `DraftTakeover.CompletionIsShownExactlyWhen` | backend/app/draft/session.py:705-713 | The step that completes a live draft on a full board of different players leaves a roster that shows it, except when a batch completes it and the roster did not show that board before. |
| `DraftTakeover.SyncedDraftIsNotTakenOver` | backend/app/draft/reconciliation.py:301-313 | From a new room, in every live session and for every list of identified players: a batch with an entry for every pick completes the draft, and a league of free players stays one. |
| `DraftRuns.RunIsOrdered` | backend/app/draft/session.py:563-698 | After any run of requests, syncs, mode changes and resolutions: sequences are one to the current one, keys are unique, active picks occupy the overalls one to k with the snake rounds and slots. |
| `DraftRuns.RunIsBounded` | backend/app/draft/session.py:589-591 | Without accepted rows k never exceeds the number of picks of the draft. |
| `DraftRuns.RunNeverRepeats` | backend/app/draft/session.py:599-675 | In every run of picks, session actions and mode changes no player is active twice. |
| `DraftRuns.OneRequestWins` | backend/app/draft/session.py:347-358 | Of two requests that expect the same sequence only one can ever add to the log, whatever happens between them. |
| `DraftRuns.ResentPickIsAnswered` | backend/app/draft/session.py:573-575 | An accepted pick request sent again at any later point changes nothing and returns its own event. |
| `DraftRuns.ResentActionIsAnswered` | backend/app/draft/session.py:428-430 | The same for a session action. |
| `DraftMutations.MutationsLinearise` | backend/app/draft/events.py:23-63 | Sessions with settings of their own; workers entering, nesting, working, committing, rolling back and leaving in any interleaving: each stored room is that of its committed commands run one after the other, and no two workers are inside one session. |
| `DraftMutations.MoveKeeps` | backend/app/draft/events.py:26-51 | Every single move keeps locks, working copies and committed histories in step. |
| `DraftRoster.FullBoardIsEven` | backend/app/draft/reducer.py:17-26 | On a full board every team slot holds exactly one pick a round. |
| `DraftRoster.LeagueRoster.ProjectLiveRoster` | backend/app/draft/session.py:159-219 | Only a completed live draft is projected; a full board first frees every player, an early end only adds; each known pick gives its player to its team, and those picks are counted. |
| `DraftRoster.FullBoardRosters` | backend/app/draft/session.py:184-199 | A full board without repeats rosters exactly as many players as the draft has picks, each by the team of his pick, and frees every other player. |
| `DraftRoster.RequestsFillTheRoster` | backend/app/draft/session.py:159-199 | The same for whatever requests led to the full board. |
| `MockDraft.RankingFindings` | backend/app/draft/ranking_sources.py:80-126 | The loops report a ranked and projected pool smaller than the draft, and every position with fewer eligible rows than its scaled demand, and nothing else; the other names of a defence count as DEF in rows and slots. |
| `MockDraft.SelectOpponent` | backend/app/draft/mock.py:90-138 | The chosen player is open - ranked, projected, undrafted - and no open row comes before him by score, rank, points and numbers; nothing is chosen exactly when no row is open. |
| `MockDraft.BestIsUnique` | backend/app/draft/mock.py:136 | The order leaves no choice: two best choices are the same. |
| `MockDraft.AdvanceOpponentPick` | backend/app/draft/mock.py:141-189 | An automatic turn answers a known key with its event, is refused for the reasons of the code in their order, and otherwise records the best open player. |
| `MockDraft.OpponentPickIsRecorded` | backend/app/draft/mock.py:168-189 | At an opponent turn a new key with the current sequence fills the next overall for the team on the clock, unless the chosen player is no identified player of the league or the key that would complete the draft is taken; each gets its own refusal. |
| `MockDraft.ReadyPoolLasts` | backend/app/draft/ranking_sources.py:92-104 | A ranked and projected pool as large as the draft leaves someone open at every unfilled turn, whoever was drafted. |
| `MockDraft.ReadyMockNeverRunsOut` | backend/app/draft/mock.py:132-135 | With no findings at the start and inputs that stay bound, no run of requests reaches an exhausted pool at an opponent turn. |
| `RowLaws.TurnOfRows` | backend/app/draft/reconciliation.py:113-152 | One observation and every row, by status and action: on the board nothing changes; applied, its open row is settled automatically with the new event; otherwise a row that took the incoming pick is open again on the event active at that overall, a missing row is opened on it, and a row the owner settled against the provider stays. |
| `RowLaws.BatchOfRows` | backend/app/draft/reconciliation.py:181-299 | The same for a whole batch in which no provider entry comes twice, each observation at its turn; rows of other entries stay. |
| `RowLaws.KeptRowsStay` | backend/app/draft/reconciliation.py:113-453 | Over every run of requests, syncs, mode changes and choices a provider entry has one row, its status, action and events fit, and a row settled by keeping the own pick or by ignoring the incoming one never changes. |
| `RowLaws.RowsOverRuns` | backend/app/draft/reconciliation.py:113-453 | So every run from a new room has rows that are apart and told by status, action and events. |
| `RowLaws.ChoiceOfRow` | backend/app/draft/reconciliation.py:367-453 | What a choice of the owner makes of an open row: its status, its action and the numbers of the events it added; other rows stay. |
| `RowLaws.DifferencesAreShown` | backend/app/draft/reconciliation.py:181-313 | After a batch without an overall or a provider entry twice, each of its picks is on the board or has a row that is open or that the owner settled against the provider. |
| `RowLaws.PlaceholderTold` | backend/app/draft/reconciliation.py:167-178 | A placeholder is the player whose source number names the pick in decimal digits, with the name, team and position of the incoming one. |
| `RowLaws.ChoiceKeysDiffer` | backend/app/draft/reconciliation.py:393 | The events of a choice have a key of their own for each row, each sequence at which it was opened and each revision, so a row that is opened again later gets a new one. |
| `RowLaws.DigitsTold` | backend/app/draft/reconciliation.py:170 | Numbers are written in decimal digits without zeros in front, and can be read back. |
| `DraftMutations.LeavingUndoesEntering` | backend/app/draft/events.py:23-51 | Entering a free session takes its lock and its stored room, entering again only nests, a held session is waited for; each leave undoes one entering and the outermost frees the lock. |
| `RequestLaws.ActionExactlyWhen` | backend/app/draft/session.py:424-482 | A session action with a new key is done exactly along the arrows of the session, at the sequence it expects, ready for a start and with a reason where one is needed. |
| `RequestLaws.ActionTold` | backend/app/draft/session.py:431-498 | It leads to the end of its arrow, leaves one event of its kind, and opening again starts a new replay. |
| `RequestLaws.ModeExactlyWhen` | backend/app/draft/reconciliation.py:464-515 | An automatic mode is entered exactly from the approval mode of the same feed and when cleared; any other mode always. |
| `RequestLaws.RecordedExactlyWhen` | backend/app/draft/session.py:563-712 | A new pick is recorded exactly when the session is live at the expected sequence, the overall is the next one of the draft, the player is identified in the league and undrafted, an automatic opponent is not picked for by hand, the owner has fresh advice, and the draft can be closed if it is the last pick. |
| `RequestLaws.UndoneExactlyWhen` | backend/app/draft/session.py:622-650 | Exactly the last pick can be undone, while live or paused. |
| `RequestLaws.ReplacedExactlyWhen` | backend/app/draft/session.py:622-693 | A pick can be replaced exactly by an identified player who holds no other pick, while live or paused. |
| `RequestLaws.PickLeavesSession` | backend/app/draft/session.py:695-713 | An accepted pick request completes a live session whose board is full; rows, mode and otherwise the status stay. |
| `RequestLaws.ChoiceExactlyWhen` | backend/app/draft/reconciliation.py:358-453 | A choice is taken exactly at the expected sequence for a row there is; an open row is accepted exactly when an identified player is mapped or named, its overall is on the board or next, and its keys are new. |
| `MockLaws.ScoreTold` | backend/app/draft/mock.py:69-133 | The score of a row: its rank, less 7 for each starter the team lacks at the position - 14 when no more picks are left than starters are missing -, less 3 when it only fits an open flexible slot, plus 4 for each player beyond the starters. |
| `MockLaws.NeedGoesFirst` | backend/app/draft/mock.py:93-136 | Of two equally ranked players the one at a position that lacks starters goes before one at a position that does not. |
| `MockLaws.UnmetTold` | backend/app/draft/mock.py:87 | The unmet starters of a team are the starters missing at each position of the lineup, each position once. |
| `MockLaws.PoolTold` | backend/app/draft/ranking_sources.py:88-104 | The pool is short exactly when fewer players are ranked and projected than the draft has picks. |
| `MockLaws.ShortTold` | backend/app/draft/ranking_sources.py:33-44 | A position of the lineup is short exactly when fewer of its players are ranked and projected than its starters over all teams, scaled down to the picks of the draft, or than one; a defence has three names. |
| `MockLaws.TurnTold` | backend/app/draft/mock.py:57-61 | The turn sees the players of the team on the clock and everybody who is drafted. |
| `MockLaws.TeamSize` | backend/app/draft/mock.py:61-86 | Every pick of the team counts once. |
| `CardDesk.ValidateRequestedCard` | backend/app/services/pool_week.py:635-784 | The findings of a request and its conflicts with locked picks, in the order of the code. |
| `CardDesk.EvaluateWeeklyCard` | backend/app/services/pool_week.py:178-304 | The findings of a stored card, the configuration errors kept apart from them, and its state. |
| `CardDesk.BuildPicks` | backend/app/services/pool_week.py:917-951 | The new picks of a card: requests that a locked pick answers are passed over, confidence picks keep a free old slot or take the lowest free one. |
| `CardDesk.LowestFreeSlot` | backend/app/services/pool_week.py:928-930 | The slot search ends, at the lowest slot that is free. |
| `CardDesk.EntryDesk.StampDue` | backend/app/services/pool_week.py:33-42 | Every due game of the season is stamped once; nothing else changes. |
| `CardDesk.EntryDesk.SaveWeeklyCard` | backend/app/services/pool_week.py:787-967 | A save brings games, picks and versions to what the value-level desk says; every refusal leaves picks and versions alone. |
| `CardLaws.SavedCardIsRequested` | backend/app/services/pool_week.py:905-951 | From a well-formed card an accepted save stores exactly the requested picks: the normalised cards are equal. |
| `CardLaws.ResentCardIsUnchanged` | backend/app/services/pool_week.py:831-843 | The same request with its old version, sent again at any time, is answered with the unchanged card. |
| `CardLaws.SavedDeskIsValid` | backend/app/services/pool_week.py:912-951 | Numbers stay unique and no slot of a week is taken twice. |
| `CardLaws.CardAfterSave` | backend/app/services/pool_week.py:817-951 | The version goes up by one; picks and versions of other weeks stay. |
| `CardAgreement.SavedCardHasNoFindings` | backend/app/services/pool_week.py:187-257 | A card that was accepted has no findings, whatever the weights. |
| `CardAgreement.ValidatorsAgreeExactlyWhen` | backend/app/services/pool_week.py:195-209 | An accepted card has a configuration error, and is in need of repair, exactly when a configured confidence weight is zero or less. |
| `CardExamples.ZeroWeightMisleads` | backend/app/services/pool_week.py:195-209 | A failing input: one game and the weight 0; the save is accepted, the findings are empty, the card needs repair. |
| `CardAgreement.AcceptedSave` | backend/app/services/pool_week.py:787-967 | All of this for one accepted save. |
| `CardAgreement.CompleteExactlyWhenPaired` | backend/app/services/pool_week.py:274-304 | A confidence card is judged complete, locked or not, exactly when it has no finding, the pool has no configuration error, and it pairs the games of the week one to one with the allowed weights. |
| `CardSettlement.SavedPickIsMalformedExactlyWhen` | backend/app/services/pool_outcomes.py:33-75 | Of the picks an accepted save leaves, settlement calls malformed exactly those that a list bans in its own spelling and confidence picks without a weight. |
| `CardSettlement.CapitalListsAgree` | backend/app/services/pool_outcomes.py:51-52 | With lists in capitals both checks ban the same teams. |
| `CardExamples.SmallLettersMislead` | backend/app/services/pool_outcomes.py:51-52 | A failing input: the team allowed as buf, a pick of BUF is saved and then called malformed. |
| `CardExamples.MissingWeightMisleads` | backend/app/services/pool_outcomes.py:66-74 | A second one: a confidence pick without a weight is saved and then called malformed. |
| `LockLaws.AddedIsNotLocked` | backend/app/services/pool_week.py:763-783 | No accepted save adds a pick that is locked at that moment, in either lock mode. |
| `LockLaws.SaveRespectsLocks` | backend/app/services/pool_week.py:737-784 | What a save takes away was not locked, what it adds is of its week and not locked. |
| `LockLaws.LockedPickNeverChanges` | backend/app/services/pool_week.py:29-42 | With locks at game start, over any order of clock, stamping, schedule refreshes and saves: a pick whose game is locked stays on file with its team, weight, line and probability, and its game stays locked. |
| `LockLaws.NoLatePickInAnyRun` | backend/app/services/pool_week.py:775-783 | In every run a pick that a step adds is on a game that is on file and not locked at that moment. |
| `ReceiptLaws.SavedPickIsReceipt` | backend/app/services/pool_week.py:938-951 | Every pick that an accepted save adds is on a game on file of its week and season, for one of its permitted teams, and records the line of the game, the kind of its forecast on the basis of the pool, and exactly on evidence the chance of the team. |
| `ReceiptLaws.ReceiptIsGradedExactlyWhen` | backend/app/services/pool_outcomes.py:20-30 | Joined to settlement: such a pick, well formed on a game that is over, is won, lost or pushed exactly when its game had a line at the save or the pool plays without one; a later line does not help. |
| `ReceiptLaws.SavedSlotsTold` | backend/app/services/pool_week.py:917-931 | A new confidence pick has the slot its game had, if nobody has it now, or else the lowest free one. |
| `CodeLaws.RequestFindingsTold` | backend/app/services/pool_week.py:640-735 | The findings of a request, code by code, on its fields, the games, the other requests and earlier picks. |
| `CodeLaws.CardFindingsTold` | backend/app/services/pool_week.py:211-257 | The findings of a stored card, code by code. |
| `CodeLaws.ConfigurationErrorsTold` | backend/app/services/pool_week.py:195-209 | The configuration is at fault exactly when the weights do not fit the games, or one of them is not above zero. |
| `StateLaws.ConflictExactlyWhen` | backend/app/services/pool_week.py:737-784 | A save conflicts exactly when a locked pick is not asked for again as it is, or a request changes the card on a game that has begun, or in a week that is locked. |
| `StateLaws.SavedExactlyWhen` | backend/app/services/pool_week.py:806-951 | A save is accepted exactly when the entry is active and not out, the version is the stored one, nothing locked is changed and no request has an objection. |
| `StateLaws.UnchangedExactlyWhen` | backend/app/services/pool_week.py:831-843 | With another version than the stored one a save is answered with the unchanged card exactly when the requests ask for its picks, one for one. |
| `StateLaws.SurvivorStateTold` | backend/app/services/pool_week.py:262-304 | The five states of a survivor card: in need of repair with any finding or configuration error; complete when every slot is taken, locked complete when every pick is locked too; locked incomplete when the week is over before that. |
| `StateLaws.ConfidenceStateTold` | backend/app/services/pool_week.py:274-304 | The same for a confidence card, complete when games and weights are paired one to one. |
| `StateLaws.StampsTold` | backend/app/services/pool_week.py:29-42 | Stamping locks exactly the games of the season that have begun without a lock. |
| `Schedule.ParsedSchedule` | backend/app/services/nflverse.py:141-199 | The feed is read exactly when no matchup and no identity occurs twice among its rows of the season. |
| `Schedule.Season.ParseSchedule` | backend/app/services/nflverse.py:202-278 | Every row is planned against the stored games before any is written; a conflict writes nothing; otherwise all rows are written in order and counted, and the entries of the season are settled against the new games. |
| `Schedule.ImportKeepsKeysUnique` | backend/app/services/nflverse.py:242-275 | A successful import leaves matchups and identities unique over the season, after moves and promotions too. |
| `Schedule.ImportKeepsLocks` | backend/app/services/nflverse.py:267-271 | Games keep their place and number; a game that was locked or due stays locked whatever its new kickoff, and a stamp is never changed. |
| `Schedule.RowsAreKeptExactlyWhen` | backend/app/services/nflverse.py:215-273 | Every row of an import is on file afterwards exactly when no two rows update one game. |
| `Schedule.ImportCanLoseARow` | backend/app/services/nflverse.py:215-240 | The failing family: a moved game and a nameless row at its old matchup are both accepted and the move is lost. |
| `ScheduleLaws.KeptRowsTold` | backend/app/services/nflverse.py:141-172 | The rows taken over are those of the season, of an accepted kind, with two different teams and a week. |
| `ScheduleLaws.TargetTold` | backend/app/services/nflverse.py:216-240 | A row updates the game of its identity unless another game has its teams, or else the game of its teams unless both have identities that are not the provisional and the final one of the same game; it is new when no game has either, and refused otherwise. |
| `ScheduleLaws.GamesAfterImport` | backend/app/services/nflverse.py:242-276 | Without two rows for one game an import leaves a game that no row updates as it was, gives every other one all that its row says, stamps those whose old kickoff had come, and adds the unknown rows as new games without a lock. |

## Left out

Modelled in other terms:

- Numbers: probabilities, points and costs are exact reals; rounding, the tolerance of 1e-12 in the relaxation test and the logarithm itself are not modelled. The logarithm is a parameter that is non-negative on the clamped probabilities and, where survival is maximised, turns products into sums and reverses order.
- Text: team, slot and position names are taken trimmed and, except on the team lists of a pool, in capitals; raising to capitals covers the letters a to z. Explanations, labels, messages and payloads are not modelled.
- Time: seconds as integers, one clock value per request. The moment a card or event was stored is not kept.
- Database rows: sequences and maps; unique keys and foreign keys become invariants. A rollback restores the fields. A unique-key clash that the code lets escape as a database error is the error KeyTaken.
- Order of insertion: teams and games enter the network in the order of the stored games, not alphabetically, and a plan is not sorted by week and team at the end. Only ties between equally good plans depend on it.
- Slot masks: sets of slot positions.
- Player deletion: players named by events stay in the league, so every active pick has a player.
- Draft configuration: team count, round count, owner slot and kind are fixed while a draft runs, and the model begins when the session is ready. Setup changes, archiving, input rebinding and board preferences are not modelled.
- Advice: whether a fresh recommendation snapshot was sent is a field of the request, and whether start checks pass is a parameter of the start action. Recommendation snapshots are not published.
- Mock opponents: an unmapped row and a row that names player zero are both skipped. Snapshots that are missing or not ready, and rankings more than a day old, are refused before the model starts.
- Weekly card: stored results are kept beside the entries that the import settles, not on the picks of the card; the picks of a card are judged in stored order rather than by slot, which only changes the positions named in findings. An entry that does not exist is not modelled.
- Schedule rows: CSV parsing, odds and forecasts are done when a row reaches the model. A key without a kind, and games of other seasons with the same key, do not occur.
- Survival of a whole plan: the rounded product that the allocator reports for a complete plan is not part of the plan.

Not modelled at all:

- `week_start` locks over whole runs: they depend on the games that are listed for the week, and a refresh may move a game out of it. The laws about single saves hold in both lock modes.
- The next owner pick, no-vig odds, market ranks, depth targets and bye weeks: easy members that no property above needs.
- HTTP routes, providers, news, authentication, backups, statistics and the frontend.
- SQLite's single writer: the model has one lock for each session, as the code does, and takes commits as atomic.
- Nested database sessions: a worker of DraftMutations is a database session, and the source's lock can be entered again by the same thread, so two database sessions on one thread could both be inside one draft.

Weaker than it could be:

- SuggestionLaws.SuggestedCardIsBestExactlyWhen: takes the two teams of a game to be different, which the game form (backend/app/schemas.py:200-204) and the schedule import (backend/app/services/nflverse.py:154) demand.
- PassBoard.BatchBoard: a batch that has an overall or a key twice is told turn by turn only. The saved results of a league have each overall once (backend/app/models.py:112), and the keys made from them carry their numbers (backend/app/draft/router.py:654-657).
- DraftStatus.AddsOutsideLiveExactlyWhen: asks the same of its batches.
