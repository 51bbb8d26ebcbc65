/** The game object model: the one record shared by both paddles and the ball. */
module Objects {

  /** Height of a paddle, in rows. */
  const PaddleHeight: int := 4
  /** Velocity the ball starts the game with, in cells per tick. */
  const InitialBallVelocityRow: int := 1
  const InitialBallVelocityCol: int := 2

  /** Glyphs drawn for paddles (full block) and the ball (black circle). */
  const PaddleSymbol: char := '\U{2588}'
  const BallSymbol: char := '\U{25CF}'

  /** A paddle or the ball: position, size and velocity in grid cells, and its glyph. */
  datatype GameObject = GameObject(
    row: int, col: int,
    width: int, height: int,
    velRow: int, velCol: int,
    symbol: char)

  /** Positions of the three objects in the collection the loop iterates over. */
  const Player1: nat := 0
  const Player2: nat := 1
  const Ball: nat := 2

  function Abs(x: int): (r: nat)
    ensures r == x || r == -x
  {
    if x < 0 then -x else x
  }

  /** An object with zero velocity, as both paddles are. */
  predicate AtRest(o: GameObject) {
    o.velRow == 0 && o.velCol == 0
  }

  /** One tick of movement: the position moves by the velocity. */
  function Advance(o: GameObject): (r: GameObject)
    ensures r.(row := o.row, col := o.col) == o
    ensures AtRest(o) ==> r == o
    ensures r.row - o.row == o.velRow && r.col - o.col == o.velCol
  {
    o.(row := o.row + o.velRow, col := o.col + o.velCol)
  }
}
