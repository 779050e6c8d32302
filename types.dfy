/**
 * The data model of the block game: the instruction blocks a player
 * assembles, the stars on the board, the level catalogue entries and the
 * game state that the screen shows.
 */
module Types {

  datatype Option<+T> = None | Some(value: T)

  /** The closed set of block tags. */
  datatype BlockType =
    | MoveForward
    | Repeat
    | IfEdge
    | IfElseTouching
    | Speak
    | MoveRight
    | MoveLeft
    | MoveUp
    | MoveDown

  predicate IsMove(t: BlockType) {
    t == MoveRight || t == MoveLeft || t == MoveUp || t == MoveDown
  }

  /** The optional payload of a block: a repeat count, a speech text or an edge selector. */
  datatype Value = Absent | Num(n: int) | Str(s: string)

  /**
   * One node of the program forest. A block without children has the empty
   * sequence; the editor always creates blocks with an empty child list.
   */
  datatype Block = Block(id: string, kind: BlockType, value: Value, children: seq<Block>)

  /** A collectible star on the 100 x 100 board. */
  datatype Star = Star(x: int, y: int, id: string)

  /** A level of the catalogue: its number, start position and star count. */
  datatype Level = Level(id: int, initialX: int, initialY: int, stars: nat)

  /** What the screen shows: the published state of the game. */
  datatype GameState = GameState(
    x: int,
    y: int,
    message: Option<string>,
    isRunning: bool,
    score: int,
    level: int,
    isGameOver: bool,
    starPositions: seq<Star>)
}
