// The capture-the-flag player: its record, how one is spawned, and how the
// navigation switch moves it around the two-screen board.
module CtfPlayer {
  import opened CInt

  const MAX_ROW := 7
  const MAX_COL_ON_SCREEN := 5
  const MAX_COL_BOTH_SCREENS := 10

  /** Snapshot of a player record. Rows run 1..7; columns run 1..10 over both
      screens, 1..5 being the player's own screen. */
  datatype PlayerValue = PlayerValue(
    row: int, col: int, hasFlag: bool, score: U8,
    displayingScore: bool, triggerGameReset: bool)

  /** True when the position lies on the board. */
  predicate OnBoard(p: PlayerValue)
  {
    1 <= p.row <= MAX_ROW && 1 <= p.col <= MAX_COL_BOTH_SCREENS
  }

  /** Conversion of a uint8 argument to the int8 field it is stored in. */
  function ToInt8(x: U8): (r: int)
    ensures -128 <= r < 128
    ensures (r - x) % 256 == 0
  {
    if x < 128 then x else x - 256
  }

  /** The record that `spawn_player` builds. */
  function Spawn(row: U8, col: U8): (p: PlayerValue)
    ensures !p.hasFlag && p.score == 0 && !p.displayingScore && !p.triggerGameReset
    ensures 1 <= row <= MAX_ROW && 1 <= col <= MAX_COL_BOTH_SCREENS ==>
              OnBoard(p) && p.row == row && p.col == col
  {
    PlayerValue(ToInt8(row), ToInt8(col), false, 0, false, false)
  }

  /** Position after one navigation-switch update (`player_update`). `north`
      moves up a row, `south` down a row, `east` one column back toward the
      own screen and `west` one column toward the opponent's screen. */
  function Moved(p: PlayerValue, north: bool, south: bool, east: bool, west: bool,
                 opponentOnMySide: bool): (r: PlayerValue)
    // only the position changes
    ensures r.hasFlag == p.hasFlag && r.score == p.score
    ensures r.displayingScore == p.displayingScore && r.triggerGameReset == p.triggerGameReset
    // the row stays on the board and moves by at most one
    ensures 1 <= p.row <= MAX_ROW ==> 1 <= r.row <= MAX_ROW
    ensures -1 <= r.row - p.row <= 1
    // the column never drops below 1 nor exceeds 10
    ensures p.col >= 1 ==> r.col >= 1
    ensures p.col <= MAX_COL_BOTH_SCREENS ==> r.col <= MAX_COL_BOTH_SCREENS
    // with the opponent on my screen I cannot cross past column 5
    ensures opponentOnMySide ==>
              r.col <= if p.col <= MAX_COL_ON_SCREEN then MAX_COL_ON_SCREEN else p.col
    // with no switch pushed nothing moves
    ensures !north && !south && !east && !west ==> r == p
  {
    p.(row := MovedRow(p.row, north, south), col := MovedCol(p.col, east, west, opponentOnMySide))
  }

  /** The row after the north and south events. */
  function MovedRow(row: int, north: bool, south: bool): int
  {
    var r1 := if north && row > 1 then row - 1 else row;
    if south && r1 < MAX_ROW then r1 + 1 else r1
  }

  /** The column after the east and west events. */
  function MovedCol(col: int, east: bool, west: bool, opponentOnMySide: bool): int
  {
    var c1 := if east && col > 1 then col - 1 else col;
    var c2 := if west && c1 < MAX_COL_BOTH_SCREENS && !opponentOnMySide then c1 + 1 else c1;
    if west && c2 < MAX_COL_ON_SCREEN && opponentOnMySide then c2 + 1 else c2
  }

  /** A player record that the game updates in place. */
  class Player {
    var row: int
    var col: int
    var hasFlag: bool
    var score: U8
    var displayingScore: bool
    var triggerGameReset: bool

    function Value(): PlayerValue
      reads this
    {
      PlayerValue(row, col, hasFlag, score, displayingScore, triggerGameReset)
    }

    /** A player initialised from `spawn_player(row, col)`. */
    constructor (r: U8, c: U8)
      ensures Value() == Spawn(r, c)
    {
      var p := Spawn(r, c);
      row, col, hasFlag, score := p.row, p.col, p.hasFlag, p.score;
      displayingScore, triggerGameReset := p.displayingScore, p.triggerGameReset;
    }

    /** `player_update`: the navigation switch events are the inputs. */
    method Update(north: bool, south: bool, east: bool, west: bool, opponentOnMySide: bool)
      modifies this
      ensures row == MovedRow(old(row), north, south)
      ensures col == MovedCol(old(col), east, west, opponentOnMySide)
      ensures hasFlag == old(hasFlag) && score == old(score)
      ensures displayingScore == old(displayingScore) && triggerGameReset == old(triggerGameReset)
    {
      if north && row > 1 {
        row := row - 1;
      }
      if south && row < MAX_ROW {
        row := row + 1;
      }
      if east && col > 1 {
        col := col - 1;
      }
      if west && col < MAX_COL_BOTH_SCREENS && !opponentOnMySide {
        col := col + 1;
      }
      if west && col < MAX_COL_ON_SCREEN && opponentOnMySide {
        col := col + 1;
      }
    }
  }
}
