# Terminal Pong: the simulation core in Dafny

This project models the game logic of a two-player terminal Pong game: two paddles and a
ball on a character grid, a fixed-rate loop that applies at most one key press per tick,
moves every object by its velocity, bounces the ball off the top and bottom walls and off
the paddles, and ends the game when the ball leaves the board past either side column.

The model is split by component:

- `objects.dfy` (module `Objects`): the `GameObject` record shared by paddles and ball, the
  game's constants, and `Advance`, the move by one velocity step.
- `physics.dfy` (module `Physics`): the wall and paddle collision tests, `Update` (the
  specification of one physics tick over the three objects), and the winner test.
- `input.dfy` (module `Input`): the recognised key labels as a `Key` datatype decoded from
  the exact terminal labels, and `ApplyInput`, the guarded paddle moves.
- `game.dfy` (module `Game`): the initial layout, one tick, `Play` (a whole game driven by a
  sequence of key labels), the invariants kept by every tick, and the class `Pong` whose
  methods update the three objects in place: its constructor lays the board out,
  `HandleUserInput` and `UpdateState` mirror the functions of the same name, and `Run` is
  the game loop. Each method is proved equal to the corresponding specification function.

The original keeps the objects in global pointers (`player1Paddle`, `player2Paddle`, `ball`)
that alias the elements of the list `gameObjects`. The model keeps one array of three
`GameObject` values in the same order (player 1, player 2, ball), so the aliasing becomes
the fixed indices `Player1`, `Player2` and `Ball`. The board's width and height, which the
original reads from the terminal on every call, are parameters.

The central facts proved: a paddle is moved only by a key, by one row, and only while its
edge guard holds, so a paddle on the board stays on it; a bounce flips the sign of one
velocity component and never its size, and a double paddle hit flips it once; a ball whose
row and next row are on the board keeps both on the board at every later tick, even though
it bounces one tick late; and from the initial layout (on any board at least four rows high), every game,
whatever the keys pressed, keeps all of this.

## Model

| member | source | states |
|---|---|---|
| `Objects.Advance` | main.go:78-81 | an object moves by exactly its velocity and nothing else about it changes; an object at rest (a paddle) does not move |
| `Physics.AdvanceAll` | main.go:78-81 | every object of the collection, in order, is moved by its own velocity |
| `Physics.CollideWithWall` | main.go:129-133 | a wall hit is reported exactly when the row after the next move, `row + velRow`, is outside `[0, height)`; a ball on the board with no vertical speed never hits a wall |
| `Physics.CollideWithPaddle` | main.go:93-103 | the ball hits a paddle exactly when it is level with the paddle's rows and its next column reaches the paddle's column from the side it is on now (from the left: `col + velCol >= paddle.col`; otherwise `col + velCol <= paddle.col`); a hit implies the ball is moving towards the paddle or standing on its column |
| `Physics.Update` | main.go:76-91 | after one physics tick the paddles have moved by their velocity, the ball has moved by its old velocity whatever it hits, `velRow` is negated exactly when the wall test on the moved ball fires, `velCol` is negated exactly once when either paddle test fires, the ball's speed is unchanged, and a ball whose row and next row lie between the walls still has both between the walls |
| `Physics.GetWinner` | main.go:61-70 | "Player 2" exactly when the ball's column is negative, "Player 1" exactly when it is at least the width, and the sentinel " " exactly when it is on the board |
| `Physics.IsGameOver` | main.go:72-74 | the game is over exactly when the ball's column is negative or at least the width |
| `Input.DecodeKey` | main.go:155-165 | only the exact labels "Rune[q]", "Rune[w]", "Rune[s]", "Up" and "Down" decode to an action, and each action decodes only from its own label |
| `Input.DecodeKeyLabel` | main.go:155-165 | decoding the label of an action gives the action back |
| `Input.ApplyInput` | main.go:153-167 | the ball is never touched; at most one paddle changes, and only its row; player 1's paddle goes up one row exactly for "Rune[w]" while its row is positive and down one row exactly for "Rune[s]" while its bottom is above the board's; likewise player 2 with "Up" and "Down"; no paddle ever moves more than one row, so a key whose guard fails changes nothing; quit and unknown labels change nothing; a paddle on the board stays on it |
| `Game.Play` | main.go:37-46 | a game stops with a winner exactly when the ball is off the board, and that winner is the one `GetWinner` names; a running game whose next label is "Rune[q]" stops with `Quit` before anything moves, and a game that quits had "Rune[q]" among its labels; a game that is already over does not change |
| `Game.Tick` | main.go:38-39 | one tick (key, then physics) moves the ball by its own velocity whatever the key, keeps the ball's speed, and leaves paddles at rest where the key alone put them |
| `Game.TickPreserves` | main.go:37-39 | one tick (key, then physics) keeps paddles at rest and on the board and the ball between the walls, keeps the ball's speed, and the paddles end where the key alone put them |
| `Game.PlayPreservesPlayable` | main.go:37-43 | every game, whatever the keys, keeps paddles at rest and on the board and the ball between the walls |
| `Game.PlayPreservesSpeed` | main.go:83-89 | every game, whatever the keys, ends with the ball's speed it started with |
| `Game.PlayStep` | main.go:37-39 | a running game whose next label is not "Rune[q]" plays that label as one tick (key, then physics) and carries on with the remaining labels |
| `Game.PlayQuitsOnlyAtQuitLabel` | main.go:37-39 | a game that ends on quit does so at the first quit label it reads: every label before it was played as a tick with the game still running (so none of them quit), and the objects are those the game had reached when the quit label was read |
| `Game.InitialObjects` | main.go:182-205 | the paddles start at rest in columns 0 and `width - 1`, level with each other and centred on the ball's row `height/2`; the ball starts in column `width/2` with velocity (1, 2) |
| `Game.InitialPlayable` | main.go:182-205 | on a board at least four rows high the initial layout has both paddles at rest and on the board at row `height/2 - 2` in columns 0 and `width - 1`, and the ball at `(height/2, width/2)` with velocity (1, 2), between the walls |
| `Game.FirstTick` | main.go:182-205 | on a board at least 11 columns wide and 5 rows high, the first tick without a key moves the ball from `(height/2, width/2)` by `(1, 2)` without a bounce and leaves both paddles where they were |
| `Game.FirstTickOnStandardBoard` | main.go:182-205 | on an 80 by 24 board the paddles start at row 10 in columns 0 and 79, and the first tick takes the ball from (12, 40) to (13, 42) with its velocity still (1, 2) |
| `Game.GameStaysOnBoard` | main.go:37-43 | from the initial layout on a board at least four rows high, every game keeps the paddles on the board, the ball between the walls, and the ball's velocity components of size 1 and 2 |
| `Game.CenteredColumn` | main.go:56-59 | a non-empty text printed from the returned column covers the given column, and the characters from that column rightwards number as many as those left of it, or one more |
| `Game.Pong.constructor` | main.go:182-205 | the three objects, in a fresh array, are laid out as `InitialObjects` describes |
| `Game.Pong.UpdateState` | main.go:76-91 | the objects, updated in place, become `Update` of the old objects |
| `Game.Pong.HandleUserInput` | main.go:153-167 | the quit result is reported exactly for "Rune[q]", and the objects become `ApplyInput` of the old objects with the decoded key |
| `Game.Pong.Run` | main.go:37-46 | the game loop leaves the objects and reports the ending exactly as `Play` describes |

## Left out

- Drawing (`DrawState`, `Print`, `PrintString`, the screen's clear and show calls) and the
  display's set-up and teardown (`InitScreen`, `Fini`), with the error printed when the
  terminal cannot be opened: they go through the terminal library, which is not part of this model.
- Key capture (`UserInput`, `ReadInput`): the goroutine and channel are replaced by a sequence
  of key labels, one per tick, where the empty label stands for "no key pending".
- The 50 ms pacing of ticks, the "Game Over" screen and its 3-second hold: wall-clock timing and drawing.
- Process exit on the quit key: `HandleUserInput` returns `quit` and the loop returns `Quit`
  instead of ending the process.
- Terminal resizes: the original re-reads the terminal's size on every call; the loop here
  uses one width and height for the whole game.
- `debugLog`: it is never assigned and only drawn.
- Game.Pong.Run: the original loop may run for ever (the ball can bounce indefinitely), so
  the model runs at most one tick per key label and reports `OutOfTicks` when they run out.
- Game.Tick: it does not handle the quit key; `Play` and `Run` stop before the tick, as the
  original exits before moving anything.
- Physics.CollideWithPaddle: the original takes the ball as an unused first parameter and reads
  the global ball; the model takes the ball it actually reads.
- Go's 64-bit `int`: positions and velocities are unbounded integers; they stay within a few
  cells of the board, so wrap-around cannot occur in a game.
- Game.CenteredColumn: the original subtracts half the text's length in bytes; the model counts
  characters, which is the same for the ASCII texts the game prints.
