// Debouncing of the step counter's five inputs (buttons5.c): every poll each
// button either counts consecutive "pressed" polls, raising a short-press flag
// after 3 and a long-press flag after 50, or counts consecutive "released"
// polls, re-arming both after 5. Flags are read with test-and-clear calls.
module StepButtons {
  import opened CInt

  const NUM_BUTS := 5
  const NUM_BUT_POLLS_RELEASE := 5
  const NUM_BUT_POLLS_SHORT := 3
  const NUM_BUT_POLLS_LONG := 50

  const UP := 0
  const DOWN := 1
  const LEFT := 2
  const RIGHT := 3
  const SWITCH1 := 4

  /** Released pin level of UP, DOWN, LEFT, RIGHT, SWITCH1: the left and right
      buttons are active low, the others active high. */
  const NORMAL: seq<bool> := [false, false, true, true, false]

  /** One button's entries in the module's parallel arrays. */
  datatype ButtonState = ButtonState(
    value: bool, downShort: bool, downLong: bool,
    countDown: U8, countRelease: U8, flagShort: bool, flagLong: bool)

  /** The state of one button after a poll that read pin level `level`. */
  function Debounce(b: ButtonState, normal: bool, level: bool): (r: ButtonState)
    ensures r.value == level
    // a pressed poll counts up the presses and restarts the release count
    ensures level != normal ==> r.countDown == Wrap8(b.countDown + 1) && r.countRelease == 0
    // a released poll does the reverse
    ensures level == normal ==> r.countDown == 0 && r.countRelease == Wrap8(b.countRelease + 1)
    // a flag is raised only by a pressed poll, and only once per press
    ensures r.flagShort != b.flagShort ==>
              level != normal && !b.downShort && r.flagShort && r.countDown >= NUM_BUT_POLLS_SHORT
    ensures r.flagLong != b.flagLong ==>
              level != normal && !b.downLong && r.flagLong && r.countDown >= NUM_BUT_POLLS_LONG
    ensures level != normal && r.countDown >= NUM_BUT_POLLS_SHORT ==> r.downShort
    ensures level != normal && r.countDown >= NUM_BUT_POLLS_SHORT && !b.downShort ==> r.flagShort
    ensures level != normal && r.countDown >= NUM_BUT_POLLS_LONG ==> r.downLong
    ensures level != normal && r.countDown >= NUM_BUT_POLLS_LONG && !b.downLong ==> r.flagLong
    // the press is re-armed only by the fifth consecutive released poll
    ensures (r.downShort, r.downLong) != (b.downShort, b.downLong) && level == normal ==>
              !r.downShort && !r.downLong && r.countRelease >= NUM_BUT_POLLS_RELEASE
  {
    if level != normal then
      var down := Wrap8(b.countDown + 1);
      var s1 := b.(value := level, countDown := down, countRelease := 0);
      var s2 := if down >= NUM_BUT_POLLS_LONG && !s1.downLong
                then s1.(downLong := true, flagLong := true) else s1;
      if down >= NUM_BUT_POLLS_SHORT && !s2.downShort
      then s2.(downShort := true, flagShort := true) else s2
    else
      var release := Wrap8(b.countRelease + 1);
      var s1 := b.(value := level, countDown := 0, countRelease := release);
      if release >= NUM_BUT_POLLS_RELEASE
      then s1.(downShort := false, downLong := false) else s1
  }

  /** The button's state after a series of polls. */
  function Run(b: ButtonState, normal: bool, levels: seq<bool>): ButtonState
    decreases |levels|
  {
    if levels == [] then b
    else Run(Debounce(b, normal, levels[0]), normal, levels[1..])
  }

  function Repeat(level: bool, n: nat): (s: seq<bool>)
    ensures |s| == n && forall i :: 0 <= i < n ==> s[i] == level
  {
    if n == 0 then [] else [level] + Repeat(level, n - 1)
  }

  /** Holding a freshly released button down: after n polls the press count
      is n; the short flag and the short state appear at the third poll and
      not before, the long ones at the fiftieth. */
  lemma {:induction false} HoldRun(b: ButtonState, normal: bool, n: nat)
    requires b.countDown == 0 && !b.downShort && !b.flagShort && !b.downLong && !b.flagLong
    requires n <= 255
    ensures Run(b, normal, Repeat(!normal, n)).countDown == n
    ensures Run(b, normal, Repeat(!normal, n)).flagShort <==> n >= NUM_BUT_POLLS_SHORT
    ensures Run(b, normal, Repeat(!normal, n)).downShort <==> n >= NUM_BUT_POLLS_SHORT
    ensures Run(b, normal, Repeat(!normal, n)).flagLong <==> n >= NUM_BUT_POLLS_LONG
    ensures Run(b, normal, Repeat(!normal, n)).downLong <==> n >= NUM_BUT_POLLS_LONG
  {
    if n > 0 {
      HoldRun(b, normal, n - 1);
      RunSnoc(b, normal, Repeat(!normal, n - 1), !normal);
      RepeatSnoc(!normal, n - 1);
    }
  }

  lemma {:induction false} RepeatSnoc(level: bool, n: nat)
    ensures Repeat(level, n) + [level] == Repeat(level, n + 1)
  {
    if n > 0 {
      RepeatSnoc(level, n - 1);
    }
  }

  lemma {:induction false} RunSnoc(b: ButtonState, normal: bool, levels: seq<bool>, last: bool)
    ensures Run(b, normal, levels + [last]) == Debounce(Run(b, normal, levels), normal, last)
    decreases |levels|
  {
    if levels != [] {
      assert (levels + [last])[1..] == levels[1..] + [last];
      RunSnoc(Debounce(b, normal, levels[0]), normal, levels[1..], last);
    }
  }

  /** Letting go of a button: after n released polls from the end of a press
      the release count is n, both press states survive the first four polls
      and are cleared from the fifth on; the flags are untouched. */
  lemma {:induction false} ReleaseRun(b: ButtonState, normal: bool, n: nat)
    requires b.countRelease == 0 && n <= 255
    ensures Run(b, normal, Repeat(normal, n)).countRelease == n
    ensures Run(b, normal, Repeat(normal, n)).downShort <==> b.downShort && n < NUM_BUT_POLLS_RELEASE
    ensures Run(b, normal, Repeat(normal, n)).downLong <==> b.downLong && n < NUM_BUT_POLLS_RELEASE
    ensures Run(b, normal, Repeat(normal, n)).flagShort == b.flagShort
    ensures Run(b, normal, Repeat(normal, n)).flagLong == b.flagLong
  {
    if n > 0 {
      ReleaseRun(b, normal, n - 1);
      RunSnoc(b, normal, Repeat(normal, n - 1), normal);
      RepeatSnoc(normal, n - 1);
    }
  }

  /** `wasButtonShortPress`/`wasButtonLongPress` on one button: report the
      flag and clear it. */
  function TakeFlag(b: ButtonState, long: bool): (r: (bool, ButtonState))
    ensures r.0 == (if long then b.flagLong else b.flagShort)
    ensures !r.1.flagShort || !r.0 || long
    ensures r.1 == (if long then b.(flagLong := false) else b.(flagShort := false))
  {
    if long then (b.flagLong, b.(flagLong := false)) else (b.flagShort, b.(flagShort := false))
  }

  /** Test-and-clear: asking again straight away answers false and changes
      nothing more. */
  lemma TakeFlagTwice(b: ButtonState, long: bool)
    ensures !TakeFlag(TakeFlag(b, long).1, long).0
    ensures TakeFlag(TakeFlag(b, long).1, long).1 == TakeFlag(b, long).1
  {
  }

  /** The module's parallel arrays, one record per button. */
  class Buttons {
    var buttons: array<ButtonState>
    var normal: seq<bool>

    ghost predicate Valid()
      reads this
    {
      buttons.Length == NUM_BUTS && |normal| == NUM_BUTS
    }

    /** The zero-initialised statics before `initButtons`. */
    constructor ()
      ensures Valid() && fresh(buttons)
      ensures forall i :: 0 <= i < NUM_BUTS ==>
                buttons[i] == ButtonState(false, false, false, 0, 0, false, false) && !normal[i]
    {
      buttons := new ButtonState[NUM_BUTS](_ => ButtonState(false, false, false, 0, 0, false, false));
      normal := [false, false, false, false, false];
    }

    /** `initButtons`: record each button's released level and clear the
        value, both counts and both flags. The press states `down_short` and
        `down_long` are not reset. */
    method InitButtons()
      requires Valid()
      modifies this`normal, buttons
      ensures Valid() && buttons == old(buttons) && normal == NORMAL
      ensures forall i :: 0 <= i < NUM_BUTS ==>
                buttons[i] == old(buttons[i]).(value := false, countDown := 0, countRelease := 0,
                                               flagShort := false, flagLong := false)
    {
      normal := NORMAL;
      var i := 0;
      while i < NUM_BUTS
        invariant 0 <= i <= NUM_BUTS && normal == NORMAL
        invariant forall k :: 0 <= k < i ==>
                    buttons[k] == old(buttons[k]).(value := false, countDown := 0, countRelease := 0,
                                                   flagShort := false, flagLong := false)
        invariant forall k :: i <= k < NUM_BUTS ==> buttons[k] == old(buttons[k])
      {
        buttons[i] := buttons[i].(value := false, countDown := 0, countRelease := 0,
                                  flagShort := false, flagLong := false);
        i := i + 1;
      }
    }

    /** `updateButtons`, given the five pin levels read this poll. */
    method UpdateButtons(levels: seq<bool>)
      requires Valid() && |levels| == NUM_BUTS
      modifies buttons
      ensures Valid()
      ensures forall i :: 0 <= i < NUM_BUTS ==>
                buttons[i] == Debounce(old(buttons[i]), normal[i], levels[i])
    {
      var i := 0;
      while i < NUM_BUTS
        invariant 0 <= i <= NUM_BUTS
        invariant forall k :: 0 <= k < i ==> buttons[k] == Debounce(old(buttons[k]), normal[k], levels[k])
        invariant forall k :: i <= k < NUM_BUTS ==> buttons[k] == old(buttons[k])
      {
        var b := buttons[i].(value := levels[i]);
        if b.value != normal[i] {
          b := b.(countDown := Wrap8(b.countDown + 1), countRelease := 0);
          if b.countDown >= NUM_BUT_POLLS_LONG && !b.downLong {
            b := b.(downLong := true, flagLong := true);
          }
          if b.countDown >= NUM_BUT_POLLS_SHORT && !b.downShort {
            b := b.(downShort := true, flagShort := true);
          }
        } else {
          b := b.(countDown := 0, countRelease := Wrap8(b.countRelease + 1));
          if b.countRelease >= NUM_BUT_POLLS_RELEASE {
            b := b.(downShort := false, downLong := false);
          }
        }
        buttons[i] := b;
        i := i + 1;
      }
    }

    /** `wasButtonShortPress` (`long` false) and `wasButtonLongPress`
        (`long` true). */
    method WasButtonPress(butName: nat, long: bool) returns (pressed: bool)
      requires Valid() && butName < NUM_BUTS
      modifies buttons
      ensures Valid()
      ensures (pressed, buttons[butName]) == TakeFlag(old(buttons[butName]), long)
      ensures forall i :: 0 <= i < NUM_BUTS && i != butName ==> buttons[i] == old(buttons[i])
    {
      var b := buttons[butName];
      if long {
        pressed := b.flagLong;
        if pressed {
          buttons[butName] := b.(flagLong := false);
        }
      } else {
        pressed := b.flagShort;
        if pressed {
          buttons[butName] := b.(flagShort := false);
        }
      }
    }

    /** `isButtonDown`: the raw pin level of the last poll. */
    function IsButtonDown(butName: nat): bool
      requires Valid() && butName < NUM_BUTS
      reads this, buttons
    {
      buttons[butName].value
    }
  }

  /** The raw level reports "pressed" for the active-high inputs only: for the
      active-low LEFT and RIGHT it is true while the button is released. */
  lemma IsButtonDownMeaning(bs: Buttons, butName: nat)
    requires bs.Valid() && butName < NUM_BUTS && bs.normal == NORMAL
    ensures butName in {UP, DOWN, SWITCH1} ==>
              (bs.IsButtonDown(butName) <==> bs.buttons[butName].value != NORMAL[butName])
    ensures butName in {LEFT, RIGHT} ==>
              (bs.IsButtonDown(butName) <==> bs.buttons[butName].value == NORMAL[butName])
  {
  }
}
