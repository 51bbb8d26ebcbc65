/** Movement, collision detection and the end-of-game test. */
module Physics {
  import opened Objects

  /** The ball's row after its next move, `row + velRow`, lies outside rows `[0, screenHeight)`. */
  function CollideWithWall(o: GameObject, screenHeight: int): (r: bool)
    ensures r <==> !(0 <= o.row + o.velRow < screenHeight)
    // a ball on the board that does not move vertically never hits a wall
    ensures 0 <= o.row < screenHeight && o.velRow == 0 ==> !r
  {
    o.row + o.velRow < 0 || o.row + o.velRow >= screenHeight
  }

  /** The ball's row lies within the rows the paddle covers. */
  predicate InPaddleSpan(ball: GameObject, paddle: GameObject) {
    paddle.row <= ball.row < paddle.row + paddle.height
  }

  /**
   * The ball reaches the paddle's column on its next move while level with the paddle.
   * Which side it is tested from is chosen by the ball's current column.
   */
  function CollideWithPaddle(ball: GameObject, paddle: GameObject): (r: bool)
    ensures r ==> InPaddleSpan(ball, paddle)
    ensures ball.col < paddle.col ==> (r <==> InPaddleSpan(ball, paddle) && ball.col + ball.velCol >= paddle.col)
    ensures ball.col >= paddle.col ==> (r <==> InPaddleSpan(ball, paddle) && ball.col + ball.velCol <= paddle.col)
    // only a ball moving towards the paddle (or standing on its column) bounces off it
    ensures r ==> (ball.col < paddle.col && ball.velCol > 0) || (ball.col >= paddle.col && ball.velCol <= 0)
  {
    var collidesOnColumn :=
      if ball.col < paddle.col then ball.col + ball.velCol >= paddle.col
      else ball.col + ball.velCol <= paddle.col;
    collidesOnColumn && ball.row >= paddle.row && ball.row < paddle.row + paddle.height
  }

  /** The ball's current row and the row of its next move both lie on the board. */
  predicate BallInRows(ball: GameObject, screenHeight: int) {
    0 <= ball.row < screenHeight && 0 <= ball.row + ball.velRow < screenHeight
  }

  /** Two objects have the same speed: equal magnitudes of both velocity components. */
  predicate SameSpeed(a: GameObject, b: GameObject) {
    Abs(a.velRow) == Abs(b.velRow) && Abs(a.velCol) == Abs(b.velCol)
  }

  /** Every object of the collection moved by its velocity. */
  function AdvanceAll(s: seq<GameObject>): (r: seq<GameObject>)
    ensures |r| == |s|
    ensures forall i :: 0 <= i < |s| ==> r[i] == Advance(s[i])
  {
    seq(|s|, i requires 0 <= i < |s| => Advance(s[i]))
  }

  /**
   * The state after one physics tick: all objects move, then the ball's vertical velocity
   * flips on a wall hit, then its horizontal velocity flips once if either paddle is hit.
   */
  function Update(s: seq<GameObject>, screenHeight: int): (r: seq<GameObject>)
    requires |s| == 3
    ensures |r| == 3
    ensures r[Player1] == Advance(s[Player1]) && r[Player2] == Advance(s[Player2])
    // the ball moves by its old velocity whatever it hits; only its velocity may change
    ensures r[Ball] == Advance(s[Ball]).(velRow := r[Ball].velRow, velCol := r[Ball].velCol)
    ensures r[Ball].velRow == if CollideWithWall(Advance(s[Ball]), screenHeight) then -s[Ball].velRow else s[Ball].velRow
    ensures var tested := Advance(s[Ball]).(velRow := r[Ball].velRow);
      r[Ball].velCol ==
        if CollideWithPaddle(tested, r[Player1]) || CollideWithPaddle(tested, r[Player2])
        then -s[Ball].velCol else s[Ball].velCol
    // bounces change signs only, never speeds
    ensures SameSpeed(r[Ball], s[Ball])
    // a ball between the walls stays between them, even with the one-tick-late bounce
    ensures BallInRows(s[Ball], screenHeight) ==> BallInRows(r[Ball], screenHeight)
  {
    var moved := AdvanceAll(s);
    var ball := moved[Ball];
    var ball := if CollideWithWall(ball, screenHeight) then ball.(velRow := -ball.velRow) else ball;
    var ball :=
      if CollideWithPaddle(ball, moved[Player1]) || CollideWithPaddle(ball, moved[Player2])
      then ball.(velCol := -ball.velCol) else ball;
    moved[Ball := ball]
  }

  /** "Player 2" once the ball is past the left edge, "Player 1" once past the right edge, else " ". */
  function GetWinner(ball: GameObject, screenWidth: nat): (r: string)
    ensures r == "Player 2" <==> ball.col < 0
    ensures r == "Player 1" <==> ball.col >= screenWidth
    ensures r == " " <==> 0 <= ball.col < screenWidth
  {
    if ball.col < 0 then "Player 2"
    else if ball.col >= screenWidth then "Player 1"
    else " "
  }

  /** The game is over once a winner exists. */
  function IsGameOver(ball: GameObject, screenWidth: nat): (r: bool)
    ensures r <==> ball.col < 0 || ball.col >= screenWidth
  {
    GetWinner(ball, screenWidth) != " "
  }
}
