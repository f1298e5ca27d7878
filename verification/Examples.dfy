/** Small pools and games on which a property fails. */
module Examples {
  import opened Wrappers
  import opened PoolModel

  function ExamplePool(weights: seq<int>): Pool {
    Pool(Confidence, 2025, Rules(Winner, StraightUp, 1, None, [], [], TiePushes, GameStart, weights))
  }

  function ExampleGame(id: int, away: string, home: string, homeWin: real): Game {
    Game(id, 2025, 1, away, home, 1000, None, homeWin, 0.5, Market, Unavailable, None, None, None, false, 0, true, None)
  }
}
