// Capture-the-flag game rules applied after every move: taking the flag,
// being tagged, resolving a simultaneous crossing, and scoring.
module CtfGamehost {
  import opened CInt
  import opened CtfPlayer

  const OPPONENT_FLAG_ROW := 7
  const OPPONENT_FLAG_COL := 10
  const GAME_ROWS := 7
  const GAME_COLS := 10
  const PLAYER_START_ROW := 4
  const PLAYER_START_COL := 3
  const PLAYER_START_COL_DISADVANTAGE := 1

  /** `reset_my_player`: back to the start cell without the flag. */
  function ResetPosition(p: PlayerValue): (r: PlayerValue)
    ensures r.row == PLAYER_START_ROW && r.col == PLAYER_START_COL && !r.hasFlag
    ensures r.score == p.score && r.displayingScore == p.displayingScore
    ensures r.triggerGameReset == p.triggerGameReset
  {
    p.(hasFlag := false, row := PLAYER_START_ROW, col := PLAYER_START_COL)
  }

  /** `__reset_my_player_with_disadvantage`: to the back column without the flag. */
  function ResetWithDisadvantage(p: PlayerValue): (r: PlayerValue)
    ensures r.row == PLAYER_START_ROW && r.col == PLAYER_START_COL_DISADVANTAGE && !r.hasFlag
    ensures r.score == p.score && r.displayingScore == p.displayingScore
    ensures r.triggerGameReset == p.triggerGameReset
  {
    p.(hasFlag := false, row := PLAYER_START_ROW, col := PLAYER_START_COL_DISADVANTAGE)
  }

  /** `game_event_update`: my record after the four rules are applied in turn
      against the opponent's position. */
  function EventUpdated(me: PlayerValue, opp: PlayerValue): (r: PlayerValue)
    // the opponent is never written and my reset flag is untouched
    ensures r.triggerGameReset == me.triggerGameReset
    // the score moves by at most one (as a uint8)
    ensures r.score == me.score || r.score == Wrap8(me.score + 1)
    // a player on the board stays on the board
    ensures OnBoard(me) ==> OnBoard(r)
  {
    var s1 := if me.row == OPPONENT_FLAG_ROW && me.col == OPPONENT_FLAG_COL
              then me.(hasFlag := true) else me;
    var s2 := if opp.row == s1.row && opp.col == s1.col && s1.col > GAME_COLS / 2
              then ResetWithDisadvantage(s1) else s1;
    var s3 := if s2.col > GAME_COLS / 2 && opp.col <= GAME_COLS / 2
              then s2.(col := GAME_COLS / 2) else s2;
    if s3.col <= GAME_COLS / 2 && s3.hasFlag then
      ResetWithDisadvantage(s3.(score := Wrap8(s3.score + 1), displayingScore := true))
    else s3
  }

  /** Standing on the opponent's flag cell while the opponent is elsewhere on
      the far half takes the flag and keeps the position. */
  lemma TakeFlag(me: PlayerValue, opp: PlayerValue)
    requires me.row == OPPONENT_FLAG_ROW && me.col == OPPONENT_FLAG_COL
    requires opp.col > GAME_COLS / 2 && !(opp.row == me.row && opp.col == me.col)
    ensures EventUpdated(me, opp) == me.(hasFlag := true)
  {
  }

  /** Sharing a cell on the far half sends me to (4, 1) without the flag and
      without scoring. */
  lemma Tagged(me: PlayerValue, opp: PlayerValue)
    requires opp.row == me.row && opp.col == me.col && me.col > GAME_COLS / 2
    ensures EventUpdated(me, opp) == ResetWithDisadvantage(me)
  {
  }

  /** If I am on the far half and the opponent on mine, I am put back on
      column 5 (and score at once if I hold the flag). */
  lemma CrossingResolved(me: PlayerValue, opp: PlayerValue)
    requires me.col > GAME_COLS / 2 && opp.col <= GAME_COLS / 2
    requires !(me.row == OPPONENT_FLAG_ROW && me.col == OPPONENT_FLAG_COL) && !me.hasFlag
    ensures EventUpdated(me, opp) == me.(col := GAME_COLS / 2)
  {
  }

  /** Grabbing the flag while the opponent is on my half scores at once:
      the crossing rule puts me on column 5 and the scoring rule then fires. */
  lemma CrossingWithFlagScores(me: PlayerValue, opp: PlayerValue)
    requires me.row == OPPONENT_FLAG_ROW && me.col == OPPONENT_FLAG_COL
    requires opp.col <= GAME_COLS / 2
    ensures EventUpdated(me, opp).score == Wrap8(me.score + 1)
    ensures EventUpdated(me, opp).displayingScore
  {
  }

  /** Holding the flag on my own half scores exactly one point, shows the
      score and restarts me at (4, 1) without the flag. */
  lemma Scores(me: PlayerValue, opp: PlayerValue)
    requires me.hasFlag && 1 <= me.col <= GAME_COLS / 2
    ensures EventUpdated(me, opp) ==
              ResetWithDisadvantage(me.(score := Wrap8(me.score + 1), displayingScore := true))
  {
  }

  /** On my half without the flag nothing happens. */
  lemma QuietOnOwnHalf(me: PlayerValue, opp: PlayerValue)
    requires !me.hasFlag && me.col <= GAME_COLS / 2
    ensures EventUpdated(me, opp) == me
  {
  }

  /** The score changes only by scoring, which always shows the score. */
  lemma ScoreChangeShowsScore(me: PlayerValue, opp: PlayerValue)
    requires EventUpdated(me, opp).score != me.score
    ensures EventUpdated(me, opp).displayingScore && !EventUpdated(me, opp).hasFlag
    ensures EventUpdated(me, opp).col == PLAYER_START_COL_DISADVANTAGE
  {
  }

  /** `game_event_update` on the two records held in place. */
  method GameEventUpdate(me: Player, opp: Player)
    requires me != opp
    modifies me
    ensures me.Value() == EventUpdated(old(me.Value()), opp.Value())
  {
    if me.row == OPPONENT_FLAG_ROW && me.col == OPPONENT_FLAG_COL {
      me.hasFlag := true;
    }
    if opp.row == me.row && opp.col == me.col {
      if me.col > GAME_COLS / 2 {
        ResetMyPlayerWithDisadvantage(me);
      }
    }
    if me.col > GAME_COLS / 2 && opp.col <= GAME_COLS / 2 {
      me.col := GAME_COLS / 2;
    }
    if me.col <= GAME_COLS / 2 && me.hasFlag {
      me.score := Wrap8(me.score + 1);
      me.displayingScore := true;
      ResetMyPlayerWithDisadvantage(me);
    }
  }

  /** `reset_my_player`. */
  method ResetMyPlayer(me: Player)
    modifies me
    ensures me.Value() == ResetPosition(old(me.Value()))
  {
    me.hasFlag := false;
    me.row := PLAYER_START_ROW;
    me.col := PLAYER_START_COL;
  }

  /** `__reset_my_player_with_disadvantage`. */
  method ResetMyPlayerWithDisadvantage(me: Player)
    modifies me
    ensures me.Value() == ResetWithDisadvantage(old(me.Value()))
  {
    me.hasFlag := false;
    me.row := PLAYER_START_ROW;
    me.col := PLAYER_START_COL_DISADVANTAGE;
  }

  /** `reset_game`: both scores zeroed, my player back at the start, every
      opponent flag cleared; the opponent's position is kept. */
  method ResetGame(me: Player, opp: Player)
    requires me != opp
    modifies me, opp
    ensures me.Value() == ResetPosition(old(me.Value())).(triggerGameReset := false, score := 0)
    ensures opp.Value() == old(opp.Value()).(hasFlag := false, displayingScore := false,
                                             triggerGameReset := false, score := 0)
  {
    ResetMyPlayer(me);
    me.triggerGameReset := false;
    me.score := 0;
    opp.hasFlag := false;
    opp.displayingScore := false;
    opp.triggerGameReset := false;
    opp.score := 0;
  }
}
