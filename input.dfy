/** The input mapper: key labels and the paddle moves they cause. */
module Input {
  import opened Objects

  /** The recognised key actions; every other label, and the empty "no input" label, is NoAction. */
  datatype Key = QuitKey | Player1Up | Player1Down | Player2Up | Player2Down | NoAction

  /** The key label delivered by the terminal for each recognised action. */
  function KeyLabel(k: Key): (r: string)
    requires k != NoAction
  {
    match k
    case QuitKey => "Rune[q]"
    case Player1Up => "Rune[w]"
    case Player1Down => "Rune[s]"
    case Player2Up => "Up"
    case Player2Down => "Down"
  }

  /** Decodes a key label; only the exact literals are recognised. */
  function DecodeKey(name: string): (k: Key)
    ensures k != NoAction ==> KeyLabel(k) == name
  {
    if name == "Rune[q]" then QuitKey
    else if name == "Rune[w]" then Player1Up
    else if name == "Rune[s]" then Player1Down
    else if name == "Up" then Player2Up
    else if name == "Down" then Player2Down
    else NoAction
  }

  /** Decoding the label of a recognised action gives that action back. */
  lemma DecodeKeyLabel(k: Key)
    requires k != NoAction
    ensures DecodeKey(KeyLabel(k)) == k
  {
  }

  /** A paddle lies entirely within rows `[0, screenHeight)`. */
  predicate PaddleOnBoard(paddle: GameObject, screenHeight: int) {
    0 <= paddle.row && paddle.row + paddle.height <= screenHeight
  }

  /** The objects after applying one key: a paddle moves one row if its edge guard allows. */
  function ApplyInput(s: seq<GameObject>, key: Key, screenHeight: int): (r: seq<GameObject>)
    requires |s| == 3
    ensures |r| == 3
    // the ball is never touched, at most one paddle moves, and only its row changes
    ensures r[Ball] == s[Ball]
    ensures r[Player1] == s[Player1] || r[Player2] == s[Player2]
    ensures forall i :: 0 <= i < 3 ==> r[i] == s[i].(row := r[i].row)
    // each move is one row, in the key's direction, and only when the guard holds
    ensures r[Player1].row == s[Player1].row - 1 <==> key == Player1Up && s[Player1].row > 0
    ensures r[Player1].row == s[Player1].row + 1 <==>
      key == Player1Down && s[Player1].row + s[Player1].height < screenHeight
    ensures r[Player2].row == s[Player2].row - 1 <==> key == Player2Up && s[Player2].row > 0
    ensures r[Player2].row == s[Player2].row + 1 <==>
      key == Player2Down && s[Player2].row + s[Player2].height < screenHeight
    // a move is never more than one row, so a key whose guard fails changes nothing
    ensures -1 <= r[Player1].row - s[Player1].row <= 1 && -1 <= r[Player2].row - s[Player2].row <= 1
    ensures key == QuitKey || key == NoAction ==> r == s
    // the guards keep a paddle that is on the board on the board
    ensures PaddleOnBoard(s[Player1], screenHeight) ==> PaddleOnBoard(r[Player1], screenHeight)
    ensures PaddleOnBoard(s[Player2], screenHeight) ==> PaddleOnBoard(r[Player2], screenHeight)
  {
    var p1, p2 := s[Player1], s[Player2];
    if key == Player1Up && p1.row > 0 then s[Player1 := p1.(row := p1.row - 1)]
    else if key == Player1Down && p1.row + p1.height < screenHeight then s[Player1 := p1.(row := p1.row + 1)]
    else if key == Player2Up && p2.row > 0 then s[Player2 := p2.(row := p2.row - 1)]
    else if key == Player2Down && p2.row + p2.height < screenHeight then s[Player2 := p2.(row := p2.row + 1)]
    else s
  }
}
