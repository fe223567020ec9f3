// The one-byte infra-red message two capture-the-flag players exchange:
// bit 7 carries "has the flag", the low seven bits either a control code or
// the sender's position in the sender's own frame.
module CtfIrComs {
  import opened CInt
  import opened CtfPlayer

  const GAME_ROWS := 7
  const GAME_COLS := 10
  const DISPLAY_SCORE_CHAR := 70
  const RESET_GAME_CHAR := 71
  const FLAG_BIT := 7
  const FLAG_MASK := 128

  /** Bitwise `c | (1 << 7)` on a byte. */
  function SetFlagBit(c: U8): (r: U8)
    ensures r >= FLAG_MASK && r % FLAG_MASK == c % FLAG_MASK
  {
    if c >= FLAG_MASK then c else c + FLAG_MASK
  }

  /** Bitwise `c & ~(1 << 7)` on a byte. */
  function ClearFlagBit(c: U8): (r: U8)
    ensures r < FLAG_MASK && (r == c || r + FLAG_MASK == c)
  {
    c % FLAG_MASK
  }

  /** The position code of an on-board cell: seven codes per column. */
  function PositionCode(col: int, row: int): (c: int)
    requires 1 <= col <= GAME_COLS && 1 <= row <= GAME_ROWS
    ensures 0 <= c < GAME_ROWS * GAME_COLS
    // a position code never collides with a control code
    ensures c != DISPLAY_SCORE_CHAR && c != RESET_GAME_CHAR
    ensures c / GAME_ROWS == col - 1 && c % GAME_ROWS == row - 1
  {
    (col - 1) * GAME_ROWS + (row - 1)
  }

  /** `__player_to_char`: the byte a player sends. Accumulation happens in a
      uint8, so an off-board position wraps modulo 256. */
  function PlayerToChar(p: PlayerValue): (c: U8)
    // bit 7 is set whenever the player holds the flag
    ensures p.hasFlag ==> c >= FLAG_MASK
    // "displaying score" takes precedence over "reset game", which takes
    // precedence over the position
    ensures p.displayingScore ==> ClearFlagBit(c) == DISPLAY_SCORE_CHAR
    ensures !p.displayingScore && p.triggerGameReset ==> ClearFlagBit(c) == RESET_GAME_CHAR
    ensures !p.displayingScore && !p.triggerGameReset && OnBoard(p) ==>
              ClearFlagBit(c) == PositionCode(p.col, p.row)
  {
    var body: U8 :=
      if p.displayingScore then DISPLAY_SCORE_CHAR
      else if p.triggerGameReset then RESET_GAME_CHAR
      else Wrap8(Wrap8(0 + (p.col - 1) * GAME_ROWS) + (p.row - 1));
    if p.hasFlag then SetFlagBit(body) else body
  }

  /** `__update_opponent_from_char`: the opponent record after receiving `chr`.
      A position is mirrored into the receiver's frame; the score is never
      transmitted. */
  function FromChar(opp: PlayerValue, chr: U8): (r: PlayerValue)
    ensures r.hasFlag == (chr >= FLAG_MASK)
    ensures r.score == opp.score
    ensures ClearFlagBit(chr) == DISPLAY_SCORE_CHAR ==>
              r == opp.(hasFlag := r.hasFlag, displayingScore := true)
    ensures ClearFlagBit(chr) == RESET_GAME_CHAR ==>
              r == opp.(hasFlag := r.hasFlag, triggerGameReset := true)
    ensures ClearFlagBit(chr) != DISPLAY_SCORE_CHAR && ClearFlagBit(chr) != RESET_GAME_CHAR ==>
              !r.displayingScore && r.triggerGameReset == opp.triggerGameReset &&
              1 <= r.row <= GAME_ROWS
    // a position byte: quotient and remainder by seven give the sender's
    // column and row, mirrored into the receiver's frame
    ensures ClearFlagBit(chr) != DISPLAY_SCORE_CHAR && ClearFlagBit(chr) != RESET_GAME_CHAR ==>
              r.col == GAME_COLS + 1 - (ClearFlagBit(chr) / GAME_ROWS + 1) &&
              r.row == GAME_ROWS - ClearFlagBit(chr) % GAME_ROWS
    // a code below 70 lands on the board; a code from 72 up lands left of it
    ensures ClearFlagBit(chr) < GAME_ROWS * GAME_COLS ==> 1 <= r.col <= GAME_COLS
    ensures ClearFlagBit(chr) > RESET_GAME_CHAR ==> r.col <= 0
  {
    var hasFlag := chr >= FLAG_MASK;
    var c := ClearFlagBit(chr);
    if c == DISPLAY_SCORE_CHAR then
      opp.(hasFlag := hasFlag, displayingScore := true)
    else if c == RESET_GAME_CHAR then
      opp.(hasFlag := hasFlag, triggerGameReset := true)
    else
      var relX: U8 := Wrap8(c / GAME_ROWS + 1);
      var relY: U8 := Wrap8(c % GAME_ROWS);
      opp.(hasFlag := hasFlag,
           col := GAME_COLS + 1 - relX,
           row := GAME_ROWS - relY,
           displayingScore := false)
  }

  /** An on-board player carries the flag bit exactly when it holds the flag. */
  lemma FlagBitIffHasFlag(p: PlayerValue)
    requires OnBoard(p)
    ensures PlayerToChar(p) >= FLAG_MASK <==> p.hasFlag
  {
    if !p.hasFlag && !p.displayingScore && !p.triggerGameReset {
      var code := PositionCode(p.col, p.row);
      assert PlayerToChar(p) == code;
    }
  }

  /** Receiving the byte an on-board player sends places that player on the
      mirrored cell of the receiver's board, flag state intact. */
  lemma {:induction false} MirroredRoundTrip(p: PlayerValue, opp: PlayerValue)
    requires OnBoard(p) && !p.displayingScore && !p.triggerGameReset
    ensures FromChar(opp, PlayerToChar(p)).col == GAME_COLS + 1 - p.col
    ensures FromChar(opp, PlayerToChar(p)).row == GAME_ROWS + 1 - p.row
    ensures FromChar(opp, PlayerToChar(p)).hasFlag == p.hasFlag
    ensures OnBoard(FromChar(opp, PlayerToChar(p)))
  {
    var code := PositionCode(p.col, p.row);
    assert ClearFlagBit(PlayerToChar(p)) == code;
    FlagBitIffHasFlag(p);
  }

  /** Mirroring is its own inverse: a position passed on twice returns to the
      sender's own frame. */
  lemma MirrorTwice(p: PlayerValue, opp: PlayerValue, back: PlayerValue)
    requires OnBoard(p) && !p.displayingScore && !p.triggerGameReset
    ensures var q := FromChar(opp, PlayerToChar(p));
            var r := FromChar(back, PlayerToChar(q.(displayingScore := false, triggerGameReset := false)));
            r.col == p.col && r.row == p.row && r.hasFlag == p.hasFlag
  {
    MirroredRoundTrip(p, opp);
    var q := FromChar(opp, PlayerToChar(p));
    MirroredRoundTrip(q.(displayingScore := false, triggerGameReset := false), back);
  }

  /** A control code leaves the opponent where it was. */
  lemma ControlCodeKeepsPosition(opp: PlayerValue, chr: U8)
    requires ClearFlagBit(chr) == DISPLAY_SCORE_CHAR || ClearFlagBit(chr) == RESET_GAME_CHAR
    ensures FromChar(opp, chr).row == opp.row && FromChar(opp, chr).col == opp.col
  {
  }

  /** Decoding strips bit 7 first: apart from the flag, a byte and its
      flag-cleared copy decode alike. */
  lemma DecodeIgnoresFlagBit(opp: PlayerValue, chr: U8)
    ensures FromChar(opp, chr) == FromChar(opp, ClearFlagBit(chr)).(hasFlag := chr >= FLAG_MASK)
  {
  }

  /** `__update_opponent_from_char` on the opponent record held in place. */
  method UpdateOpponentFromChar(opponent: Player, chr: U8)
    modifies opponent
    ensures opponent.Value() == FromChar(old(opponent.Value()), chr)
  {
    opponent.hasFlag := chr >= FLAG_MASK;
    var c := ClearFlagBit(chr);
    if c == DISPLAY_SCORE_CHAR {
      opponent.displayingScore := true;
    } else if c == RESET_GAME_CHAR {
      opponent.triggerGameReset := true;
    } else {
      var relX: U8 := Wrap8(c / GAME_ROWS + 1);
      var relY: U8 := Wrap8(c % GAME_ROWS);
      opponent.col := GAME_COLS + 1 - relX;
      opponent.row := GAME_ROWS - relY;
      opponent.displayingScore := false;
    }
  }
}
