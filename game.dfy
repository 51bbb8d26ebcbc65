/** The game loop: the initial layout, one tick, a whole game, and the mutable game state. */
module Game {
  import opened Objects
  import opened Physics
  import opened Input

  /** The three objects as the game starts: paddles centred on the side columns, ball in the middle. */
  function InitialObjects(screenWidth: nat, screenHeight: nat): (r: seq<GameObject>)
    ensures |r| == 3
    // the paddles stand still in the two side columns, level with each other
    ensures AtRest(r[Player1]) && AtRest(r[Player2])
    ensures r[Player1].col == 0 && r[Player2].col == screenWidth - 1 && r[Player1].row == r[Player2].row
    ensures r[Player1].height == r[Player2].height == PaddleHeight
    // the ball starts in the middle of the board, on the paddles' middle row, moving down and right
    ensures r[Ball].row == screenHeight / 2 == r[Player1].row + PaddleHeight / 2
    ensures r[Ball].col == screenWidth / 2
    ensures r[Ball].velRow == 1 && r[Ball].velCol == 2
  {
    var paddleStart := screenHeight / 2 - PaddleHeight / 2;
    [ GameObject(paddleStart, 0, 1, PaddleHeight, 0, 0, PaddleSymbol),
      GameObject(paddleStart, screenWidth - 1, 1, PaddleHeight, 0, 0, PaddleSymbol),
      GameObject(screenHeight / 2, screenWidth / 2, 1, 1,
                 InitialBallVelocityRow, InitialBallVelocityCol, BallSymbol) ]
  }

  /** One tick of a running game: the key (possibly the empty "no input" label) is applied, then physics. */
  function Tick(s: seq<GameObject>, keyName: string, screenHeight: nat): (r: seq<GameObject>)
    requires |s| == 3
    ensures |r| == 3
    // the key never affects the ball: it moves by its own velocity and keeps its speed
    ensures r[Ball].row == s[Ball].row + s[Ball].velRow && r[Ball].col == s[Ball].col + s[Ball].velCol
    ensures SameSpeed(r[Ball], s[Ball])
    // paddles at rest end where the key alone put them
    ensures AtRest(s[Player1]) && AtRest(s[Player2]) ==>
      r[Player1..Ball] == ApplyInput(s, DecodeKey(keyName), screenHeight)[Player1..Ball]
  {
    Update(ApplyInput(s, DecodeKey(keyName), screenHeight), screenHeight)
  }

  /** How a game stops: a winner, the quit key, or (in the model only) no more ticks to run. */
  datatype Ending = GameOver(winner: string) | Quit | OutOfTicks

  datatype Outcome = Outcome(objects: seq<GameObject>, ending: Ending)

  /**
   * A game played with one key label per tick: it stops as soon as the game is over
   * (checked before every tick) or the quit key is read.
   */
  function Play(s: seq<GameObject>, keyNames: seq<string>, screenWidth: nat, screenHeight: nat): (r: Outcome)
    requires |s| == 3
    ensures |r.objects| == 3
    ensures r.ending.GameOver? <==> IsGameOver(r.objects[Ball], screenWidth)
    ensures r.ending.GameOver? ==> r.ending.winner == GetWinner(r.objects[Ball], screenWidth) != " "
    ensures r.ending.Quit? ==> "Rune[q]" in keyNames
    ensures IsGameOver(s[Ball], screenWidth) ==> r == Outcome(s, GameOver(GetWinner(s[Ball], screenWidth)))
    // a running game whose next label is the quit key stops there, before anything moves
    ensures !IsGameOver(s[Ball], screenWidth) && keyNames != [] && DecodeKey(keyNames[0]) == QuitKey ==>
      r == Outcome(s, Quit)
    decreases |keyNames|
  {
    if IsGameOver(s[Ball], screenWidth) then Outcome(s, GameOver(GetWinner(s[Ball], screenWidth)))
    else if keyNames == [] then Outcome(s, OutOfTicks)
    else if DecodeKey(keyNames[0]) == QuitKey then Outcome(s, Quit)
    else Play(Tick(s, keyNames[0], screenHeight), keyNames[1..], screenWidth, screenHeight)
  }

  /** What every tick keeps: paddles at rest and on the board, the ball between the walls. */
  predicate Playable(s: seq<GameObject>, screenHeight: nat) {
    |s| == 3 &&
    AtRest(s[Player1]) && AtRest(s[Player2]) &&
    PaddleOnBoard(s[Player1], screenHeight) && PaddleOnBoard(s[Player2], screenHeight) &&
    BallInRows(s[Ball], screenHeight)
  }

  /** One tick keeps the game playable, leaves the ball's speed alone, and moves paddles only by input. */
  lemma TickPreserves(s: seq<GameObject>, keyName: string, screenHeight: nat)
    requires Playable(s, screenHeight)
    ensures Playable(Tick(s, keyName, screenHeight), screenHeight)
    ensures SameSpeed(Tick(s, keyName, screenHeight)[Ball], s[Ball])
    ensures Tick(s, keyName, screenHeight)[Player1..Ball] == ApplyInput(s, DecodeKey(keyName), screenHeight)[Player1..Ball]
  {
  }

  /** However a game is played, it stays playable. */
  lemma {:induction false} PlayPreservesPlayable(s: seq<GameObject>, keyNames: seq<string>, screenWidth: nat, screenHeight: nat)
    requires Playable(s, screenHeight)
    ensures Playable(Play(s, keyNames, screenWidth, screenHeight).objects, screenHeight)
    decreases |keyNames|
  {
    if !IsGameOver(s[Ball], screenWidth) && keyNames != [] && DecodeKey(keyNames[0]) != QuitKey {
      TickPreserves(s, keyNames[0], screenHeight);
      PlayPreservesPlayable(Tick(s, keyNames[0], screenHeight), keyNames[1..], screenWidth, screenHeight);
    }
  }

  /** However a game is played, the ball keeps its speed: bounces only flip signs. */
  lemma {:induction false} PlayPreservesSpeed(s: seq<GameObject>, keyNames: seq<string>, screenWidth: nat, screenHeight: nat)
    requires |s| == 3
    ensures SameSpeed(Play(s, keyNames, screenWidth, screenHeight).objects[Ball], s[Ball])
    decreases |keyNames|
  {
    if !IsGameOver(s[Ball], screenWidth) && keyNames != [] && DecodeKey(keyNames[0]) != QuitKey {
      PlayPreservesSpeed(Tick(s, keyNames[0], screenHeight), keyNames[1..], screenWidth, screenHeight);
    }
  }

  /** A running game whose next label is not the quit key plays that label as one tick. */
  lemma PlayStep(s: seq<GameObject>, keyNames: seq<string>, screenWidth: nat, screenHeight: nat)
    requires |s| == 3 && !IsGameOver(s[Ball], screenWidth)
    requires keyNames != [] && DecodeKey(keyNames[0]) != QuitKey
    ensures Play(s, keyNames, screenWidth, screenHeight) ==
      Play(Tick(s, keyNames[0], screenHeight), keyNames[1..], screenWidth, screenHeight)
  {
  }

  /**
   * The quit label is read at tick `i`: the labels before it were all played as ticks,
   * leaving the game still running with the given objects.
   */
  predicate QuitsAt(s: seq<GameObject>, keyNames: seq<string>, i: int, objects: seq<GameObject>,
                    screenWidth: nat, screenHeight: nat)
    requires |s| == 3
  {
    0 <= i < |keyNames| && DecodeKey(keyNames[i]) == QuitKey &&
    Play(s, keyNames[..i], screenWidth, screenHeight) == Outcome(objects, OutOfTicks)
  }

  /**
   * A game ends on quit only at its first quit label: the labels before it are all played
   * as ticks, the game is still running when the quit label is read, and nothing moves after.
   */
  lemma {:induction false} PlayQuitsOnlyAtQuitLabel(s: seq<GameObject>, keyNames: seq<string>, screenWidth: nat, screenHeight: nat)
    requires |s| == 3
    ensures var r := Play(s, keyNames, screenWidth, screenHeight);
      r.ending.Quit? ==> exists i :: QuitsAt(s, keyNames, i, r.objects, screenWidth, screenHeight)
    decreases |keyNames|
  {
    var r := Play(s, keyNames, screenWidth, screenHeight);
    if r.ending.Quit? {
      assert !IsGameOver(s[Ball], screenWidth) && keyNames != [];
      if DecodeKey(keyNames[0]) == QuitKey {
        assert keyNames[..0] == [];
        assert QuitsAt(s, keyNames, 0, r.objects, screenWidth, screenHeight);
      } else {
        var next := Tick(s, keyNames[0], screenHeight);
        PlayStep(s, keyNames, screenWidth, screenHeight);
        PlayQuitsOnlyAtQuitLabel(next, keyNames[1..], screenWidth, screenHeight);
        var j :| QuitsAt(next, keyNames[1..], j, r.objects, screenWidth, screenHeight);
        QuitsAtAfterTick(s, keyNames, j, r.objects, screenWidth, screenHeight);
      }
    }
  }

  /** A quit label read `j` ticks after a played first tick is read `j + 1` ticks into the game. */
  lemma QuitsAtAfterTick(s: seq<GameObject>, keyNames: seq<string>, j: int, objects: seq<GameObject>,
                         screenWidth: nat, screenHeight: nat)
    requires |s| == 3 && !IsGameOver(s[Ball], screenWidth)
    requires keyNames != [] && DecodeKey(keyNames[0]) != QuitKey
    requires QuitsAt(Tick(s, keyNames[0], screenHeight), keyNames[1..], j, objects, screenWidth, screenHeight)
    ensures QuitsAt(s, keyNames, j + 1, objects, screenWidth, screenHeight)
  {
    var prefix := keyNames[..j + 1];
    assert prefix[0] == keyNames[0] && prefix[1..] == keyNames[1..][..j];
    PlayStep(s, prefix, screenWidth, screenHeight);
    assert keyNames[j + 1] == keyNames[1..][j];
  }

  /** The initial layout is playable on any board at least four rows high. */
  lemma InitialPlayable(screenWidth: nat, screenHeight: nat)
    requires screenHeight >= PaddleHeight
    ensures Playable(InitialObjects(screenWidth, screenHeight), screenHeight)
    ensures var s := InitialObjects(screenWidth, screenHeight);
      s[Player1].row == s[Player2].row == screenHeight / 2 - 2 &&
      s[Player1].col == 0 && s[Player2].col == screenWidth - 1 &&
      s[Ball].row == screenHeight / 2 && s[Ball].col == screenWidth / 2 &&
      s[Ball].velRow == 1 && s[Ball].velCol == 2
  {
  }

  /**
   * On any board at least 11 columns wide and 5 rows high, the first tick without input
   * moves the ball by its starting velocity (1, 2) without a bounce and leaves the paddles alone.
   */
  lemma FirstTick(screenWidth: nat, screenHeight: nat)
    requires screenWidth >= 11 && screenHeight >= 5
    ensures var r := Tick(InitialObjects(screenWidth, screenHeight), "", screenHeight);
      r[Player1] == InitialObjects(screenWidth, screenHeight)[Player1] &&
      r[Player2] == InitialObjects(screenWidth, screenHeight)[Player2] &&
      r[Ball] == GameObject(screenHeight / 2 + 1, screenWidth / 2 + 2, 1, 1, 1, 2, BallSymbol)
  {
  }

  /** On an 80 by 24 board, the ball goes from (12, 40) to (13, 42) in the first tick. */
  lemma FirstTickOnStandardBoard()
    ensures var s := InitialObjects(80, 24);
      var r := Tick(s, "", 24);
      s[Ball].row == 12 && s[Ball].col == 40 &&
      s[Player1].row == 10 && s[Player1].col == 0 && s[Player2].row == 10 && s[Player2].col == 79 &&
      r[Ball].row == 13 && r[Ball].col == 42 && r[Ball].velRow == 1 && r[Ball].velCol == 2 &&
      r[Player1] == s[Player1] && r[Player2] == s[Player2]
  {
    FirstTick(80, 24);
  }

  /**
   * From the initial layout on a board at least four rows high, whatever keys are pressed,
   * the paddles stay on the board, the ball never leaves the rows between the walls,
   * and its speed stays (1, 2).
   */
  lemma GameStaysOnBoard(keyNames: seq<string>, screenWidth: nat, screenHeight: nat)
    requires screenHeight >= PaddleHeight
    ensures var r := Play(InitialObjects(screenWidth, screenHeight), keyNames, screenWidth, screenHeight);
      Playable(r.objects, screenHeight) &&
      Abs(r.objects[Ball].velRow) == 1 && Abs(r.objects[Ball].velCol) == 2
  {
    InitialPlayable(screenWidth, screenHeight);
    PlayPreservesPlayable(InitialObjects(screenWidth, screenHeight), keyNames, screenWidth, screenHeight);
    PlayPreservesSpeed(InitialObjects(screenWidth, screenHeight), keyNames, screenWidth, screenHeight);
  }

  /** Column at which to start printing `text` so that it is centred on column `col`. */
  function CenteredColumn(col: int, text: string): (r: int)
    // the text covers the column, with as many characters left of it as right of it, or one fewer
    ensures |text| > 0 ==> r <= col < r + |text|
    ensures 0 <= (r + |text| - col) - (col - r) <= 1
  {
    col - |text| / 2
  }

  /** The mutable game state: the three objects, updated in place tick after tick. */
  class Pong {
    /** The objects in drawing and movement order: player 1's paddle, player 2's paddle, the ball. */
    const objects: array<GameObject>

    ghost predicate Valid() {
      objects.Length == 3
    }

    ghost function Contents(): seq<GameObject>
      reads objects
    {
      objects[..]
    }

    /** Lays out paddles and ball on a board of the given size. */
    constructor (screenWidth: nat, screenHeight: nat)
      ensures Valid() && fresh(objects)
      ensures Contents() == InitialObjects(screenWidth, screenHeight)
    {
      var paddleStart := screenHeight / 2 - PaddleHeight / 2;
      var a := new GameObject[3];
      a[Player1] := GameObject(paddleStart, 0, 1, PaddleHeight, 0, 0, PaddleSymbol);
      a[Player2] := GameObject(paddleStart, screenWidth - 1, 1, PaddleHeight, 0, 0, PaddleSymbol);
      a[Ball] := GameObject(screenHeight / 2, screenWidth / 2, 1, 1,
                            InitialBallVelocityRow, InitialBallVelocityCol, BallSymbol);
      objects := a;
    }

    /** Moves every object by its velocity, then bounces the ball off walls and paddles. */
    method UpdateState(screenHeight: nat)
      requires Valid()
      modifies objects
      ensures Contents() == Update(old(Contents()), screenHeight)
    {
      for i := 0 to objects.Length
        invariant forall k :: 0 <= k < i ==> objects[k] == Advance(old(objects[k]))
        invariant forall k :: i <= k < objects.Length ==> objects[k] == old(objects[k])
      {
        objects[i] := objects[i].(row := objects[i].row + objects[i].velRow,
                                  col := objects[i].col + objects[i].velCol);
      }
      assert objects[..] == AdvanceAll(old(objects[..]));
      var ball := objects[Ball];
      if CollideWithWall(ball, screenHeight) {
        ball := ball.(velRow := -ball.velRow);
        objects[Ball] := ball;
      }
      if CollideWithPaddle(ball, objects[Player1]) || CollideWithPaddle(ball, objects[Player2]) {
        objects[Ball] := ball.(velCol := -ball.velCol);
      }
    }

    /**
     * Applies one key label: the quit key is reported back to the caller, the four
     * movement keys move a paddle one row within the board, anything else does nothing.
     */
    method HandleUserInput(keyName: string, screenHeight: nat) returns (quit: bool)
      requires Valid()
      modifies objects
      ensures quit <==> DecodeKey(keyName) == QuitKey
      ensures Contents() == ApplyInput(old(Contents()), DecodeKey(keyName), screenHeight)
    {
      quit := false;
      var p1, p2 := objects[Player1], objects[Player2];
      if keyName == "Rune[q]" {
        quit := true;
      } else if keyName == "Rune[w]" && p1.row > 0 {
        objects[Player1] := p1.(row := p1.row - 1);
      } else if keyName == "Rune[s]" && p1.row + p1.height < screenHeight {
        objects[Player1] := p1.(row := p1.row + 1);
      } else if keyName == "Up" && p2.row > 0 {
        objects[Player2] := p2.(row := p2.row - 1);
      } else if keyName == "Down" && p2.row + p2.height < screenHeight {
        objects[Player2] := p2.(row := p2.row + 1);
      }
    }

    /**
     * The game loop, reading `keyNames[i]` at tick `i` (the empty label when no key is pending)
     * and running at most `|keyNames|` ticks; the objects and ending are those of Play.
     */
    method Run(keyNames: seq<string>, screenWidth: nat, screenHeight: nat) returns (ending: Ending)
      requires Valid()
      modifies objects
      ensures Outcome(Contents(), ending) == Play(old(Contents()), keyNames, screenWidth, screenHeight)
    {
      var i := 0;
      while !IsGameOver(objects[Ball], screenWidth)
        invariant 0 <= i <= |keyNames|
        invariant Play(Contents(), keyNames[i..], screenWidth, screenHeight) ==
                  Play(old(Contents()), keyNames, screenWidth, screenHeight)
        decreases |keyNames| - i
      {
        if i == |keyNames| {
          return OutOfTicks;
        }
        var quit := HandleUserInput(keyNames[i], screenHeight);
        if quit {
          return Quit;
        }
        UpdateState(screenHeight);
        assert keyNames[i..][1..] == keyNames[i + 1..];
        i := i + 1;
      }
      ending := GameOver(GetWinner(objects[Ball], screenWidth));
    }
  }
}
