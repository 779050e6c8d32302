/**
 * The level catalogue, the order in which levels follow each other, and the
 * game state a level starts from.
 */
module Levels {
  import opened Types
  import opened Board

  /** The three missions: fly to the edge, collect three stars, collect four stars. */
  const LEVELS: seq<Level> := [
    Level(1, 55, 55, 0),
    Level(2, 15, 85, 3),
    Level(3, 45, 45, 4)
  ]

  /** The level after the last one is the first one again. */
  function NextLevelIndex(i: nat): (r: nat)
    requires i < |LEVELS|
    ensures r < |LEVELS|
    ensures r == (i + 1) % |LEVELS|
  {
    if i < |LEVELS| - 1 then i + 1 else 0
  }

  /**
   * What the star generator guarantees: as many stars as the level asks
   * for, on distinct cell centres, none on the start cell.
   */
  predicate AlignedStars(lv: Level, stars: seq<Star>) {
    && |stars| == lv.stars
    && DistinctCells(stars)
    && forall i :: 0 <= i < |stars| ==> !(stars[i].x == lv.initialX && stars[i].y == lv.initialY)
  }

  /** The state a level is (re)started in: start position, no message, score 0, not running. */
  function StartState(lv: Level, stars: seq<Star>): (g: GameState)
    ensures g.x == lv.initialX && g.y == lv.initialY
    ensures g.score == 0 && !g.isRunning && !g.isGameOver && g.message == None
    ensures g.level == lv.id && g.starPositions == stars
  {
    GameState(lv.initialX, lv.initialY, None, false, 0, lv.id, false, stars)
  }

  /** Every level starts on a cell centre away from the edge, and is not already won there. */
  lemma {:induction false} LevelsStartInPlay(i: nat, stars: seq<Star>)
    requires i < |LEVELS|
    requires AlignedStars(LEVELS[i], stars)
    ensures Cell(LEVELS[i].initialX) && Cell(LEVELS[i].initialY)
    ensures !AtEdge(LEVELS[i].initialX, LEVELS[i].initialY)
    ensures !Won(LEVELS[i], LEVELS[i].initialX, LEVELS[i].initialY, stars)
    ensures LEVELS[i].id != 1 ==> LEVELS[i].stars > 0
  {
    assert i == 0 || i == 1 || i == 2;
  }
}
