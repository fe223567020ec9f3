// The helicopter rig's buttons (buttons.c): a three-poll debouncer per
// button whose change flag is read with test-and-clear, and the set points
// the UP/DOWN and LEFT/RIGHT buttons step: height in tens of percent within
// [0, 100] and yaw in 15-degree steps within [0, 360).
module HeliButtons {
  import opened CInt

  const UP := 0
  const DOWN := 1
  const LEFT := 2
  const RIGHT := 3
  const NUM_BUTS := 4
  const NUM_BUT_POLLS := 3

  /** Results of `buttons_check`. */
  const RELEASED := 0
  const PUSHED := 1
  const NO_CHANGE := 2

  /** Released level of UP, DOWN, LEFT, RIGHT: left and right are active low. */
  const NORMAL: seq<bool> := [false, false, true, true]

  const STARTING_HEIGHT := 20

  /** One button's debounced level, poll counter and change flag. */
  datatype Button = Button(state: bool, count: U8, flag: bool)

  /** `buttons_update` on one button for pin level `value`. */
  function Debounce(b: Button, value: bool): (r: Button)
    // a matching poll only restarts the count
    ensures value == b.state ==> r == b.(count := 0)
    // a differing poll counts; the state follows on the third in a row,
    // which also raises the flag and restarts the count
    ensures value != b.state && Wrap8(b.count + 1) < NUM_BUT_POLLS ==> r == b.(count := Wrap8(b.count + 1))
    ensures value != b.state && Wrap8(b.count + 1) >= NUM_BUT_POLLS ==>
              r == Button(value, 0, true)
  {
    if value != b.state then
      var c := Wrap8(b.count + 1);
      if c >= NUM_BUT_POLLS then Button(value, 0, true) else b.(count := c)
    else b.(count := 0)
  }

  /** From a settled button, two differing polls leave the state alone and
      the third flips it; a matching poll in between starts over. */
  lemma FlipsOnThirdPoll(b: Button, v: bool)
    requires b.count == 0 && v != b.state
    ensures Debounce(b, v).state == b.state
    ensures Debounce(Debounce(b, v), v).state == b.state
    ensures Debounce(Debounce(Debounce(b, v), v), v) == Button(v, 0, true)
    ensures Debounce(Debounce(Debounce(b, v), !v), v).state == b.state
  {
  }

  /** `buttons_check` on one button: the result and the button afterwards. */
  function Check(b: Button, normal: bool): (r: (int, Button))
    ensures !b.flag ==> r == (NO_CHANGE, b)
    ensures b.flag ==> r.1 == b.(flag := false)
    ensures b.flag ==> (r.0 == RELEASED <==> b.state == normal)
    ensures b.flag ==> (r.0 == PUSHED <==> b.state != normal)
  {
    if b.flag then (if b.state == normal then RELEASED else PUSHED, b.(flag := false))
    else (NO_CHANGE, b)
  }

  /** Checking again straight away reports no change. */
  lemma CheckTwice(b: Button, normal: bool)
    ensures Check(Check(b, normal).1, normal).0 == NO_CHANGE
  {
  }

  /** The desired height after the UP and DOWN results of one poll. */
  function HeightAfter(h: int, up: bool, down: bool): (r: int)
    ensures 0 <= h <= 100 && h % 10 == 0 ==> 0 <= r <= 100 && r % 10 == 0
  {
    var h1 := if up then (if h + 10 > 100 then 100 else h + 10) else h;
    if down then (if h1 - 10 < 0 then 0 else h1 - 10) else h1
  }

  /** The desired yaw after the LEFT and RIGHT results of one poll. */
  function YawAfter(y: int, left: bool, right: bool): (r: int)
    ensures 0 <= y < 360 && y % 15 == 0 ==> 0 <= r < 360 && r % 15 == 0
    ensures 0 <= y < 360 && left != right ==> r == (if left then (y - 15) % 360 else (y + 15) % 360)
  {
    var y1 := if left then (if y - 15 < 0 then y - 15 + 360 else y - 15) else y;
    if right then (if y1 + 15 >= 360 then y1 + 15 - 360 else y1 + 15) else y1
  }

  /** LEFT then RIGHT (or RIGHT then LEFT), in one poll or in two, restores
      the yaw. */
  lemma YawLeftRightRestores(y: int)
    requires 0 <= y < 360
    ensures YawAfter(y, true, true) == y
    ensures YawAfter(YawAfter(y, true, false), false, true) == y
    ensures YawAfter(YawAfter(y, false, true), true, false) == y
  {
  }

  /** UP then DOWN restores the height unless UP hit the ceiling. */
  lemma HeightUpDownRestores(h: int)
    requires 0 <= h <= 90
    ensures HeightAfter(h, true, true) == h
    ensures HeightAfter(HeightAfter(h, true, false), false, true) == h
  {
  }

  /** The module's button arrays and the two set points. */
  class Buttons {
    var buttons: array<Button>
    var normal: seq<bool>
    var desiredHeight: int
    var desiredYaw: int

    ghost predicate Valid()
      reads this
    {
      buttons.Length == NUM_BUTS && |normal| == NUM_BUTS
    }

    /** Set points in range and on their grids. */
    ghost predicate SetPointsValid()
      reads this
    {
      0 <= desiredHeight <= 100 && desiredHeight % 10 == 0 &&
      0 <= desiredYaw < 360 && desiredYaw % 15 == 0
    }

    /** Static initial values followed by `buttons_init`: every button
        settled at its released level with no change pending. */
    constructor ()
      ensures Valid() && SetPointsValid() && fresh(buttons) && normal == NORMAL
      ensures desiredHeight == STARTING_HEIGHT && desiredYaw == 0
      ensures forall i :: 0 <= i < NUM_BUTS ==> buttons[i] == Button(NORMAL[i], 0, false)
    {
      desiredHeight := STARTING_HEIGHT;
      desiredYaw := 0;
      normal := NORMAL;
      buttons := new Button[NUM_BUTS](i requires 0 <= i < NUM_BUTS => Button(NORMAL[i], 0, false));
    }

    /** `buttons_update`, given the four pin levels. */
    method Update(values: seq<bool>)
      requires Valid() && |values| == NUM_BUTS
      modifies buttons
      ensures forall i :: 0 <= i < NUM_BUTS ==> buttons[i] == Debounce(old(buttons[i]), values[i])
    {
      var i := 0;
      while i < NUM_BUTS
        invariant 0 <= i <= NUM_BUTS
        invariant forall k :: 0 <= k < i ==> buttons[k] == Debounce(old(buttons[k]), values[k])
        invariant forall k :: i <= k < NUM_BUTS ==> buttons[k] == old(buttons[k])
      {
        var b := buttons[i];
        if values[i] != b.state {
          b := b.(count := Wrap8(b.count + 1));
          if b.count >= NUM_BUT_POLLS {
            b := Button(values[i], 0, true);
          }
        } else {
          b := b.(count := 0);
        }
        buttons[i] := b;
        i := i + 1;
      }
    }

    /** `buttons_check`. */
    method CheckButton(butName: nat) returns (result: int)
      requires Valid() && butName < NUM_BUTS
      modifies buttons
      ensures (result, buttons[butName]) == Check(old(buttons[butName]), normal[butName])
      ensures forall i :: 0 <= i < NUM_BUTS && i != butName ==> buttons[i] == old(buttons[i])
    {
      var b := buttons[butName];
      if b.flag {
        buttons[butName] := b.(flag := false);
        if b.state == normal[butName] {
          return RELEASED;
        } else {
          return PUSHED;
        }
      }
      return NO_CHANGE;
    }

    /** One pass of the `buttons_poll` task loop, given the pin levels: each
        button is debounced and checked, and a PUSHED result steps the set
        point it controls. */
    method Poll(values: seq<bool>)
      requires Valid() && |values| == NUM_BUTS
      modifies this`desiredHeight, this`desiredYaw, buttons
      ensures Valid()
      ensures forall i :: 0 <= i < NUM_BUTS ==>
                buttons[i] == Check(Debounce(old(buttons[i]), values[i]), normal[i]).1
      ensures desiredHeight == HeightAfter(old(desiredHeight),
                                           PushedAfter(old(buttons[UP]), values[UP], normal[UP]),
                                           PushedAfter(old(buttons[DOWN]), values[DOWN], normal[DOWN]))
      ensures desiredYaw == YawAfter(old(desiredYaw),
                                     PushedAfter(old(buttons[LEFT]), values[LEFT], normal[LEFT]),
                                     PushedAfter(old(buttons[RIGHT]), values[RIGHT], normal[RIGHT]))
      ensures old(SetPointsValid()) ==> SetPointsValid()
    {
      Update(values);
      PollHeight();
      PollYaw();
    }

    /** The UP and DOWN half of a `buttons_poll` pass, after the update. */
    method PollHeight()
      requires Valid()
      modifies this`desiredHeight, buttons
      ensures Valid() && normal == old(normal)
      ensures buttons[UP] == Check(old(buttons[UP]), normal[UP]).1
      ensures buttons[DOWN] == Check(old(buttons[DOWN]), normal[DOWN]).1
      ensures buttons[LEFT] == old(buttons[LEFT]) && buttons[RIGHT] == old(buttons[RIGHT])
      ensures desiredHeight == HeightAfter(old(desiredHeight),
                                           Check(old(buttons[UP]), normal[UP]).0 == PUSHED,
                                           Check(old(buttons[DOWN]), normal[DOWN]).0 == PUSHED)
    {
      var h := desiredHeight;
      var up := CheckButton(UP);
      if up == PUSHED {
        h := h + 10;
        if h > 100 {
          h := 100;
        }
      }
      var down := CheckButton(DOWN);
      if down == PUSHED {
        h := h - 10;
        if h < 0 {
          h := 0;
        }
      }
      desiredHeight := h;
    }

    /** The LEFT and RIGHT half of a `buttons_poll` pass, after the update. */
    method PollYaw()
      requires Valid()
      modifies this`desiredYaw, buttons
      ensures Valid() && normal == old(normal)
      ensures buttons[LEFT] == Check(old(buttons[LEFT]), normal[LEFT]).1
      ensures buttons[RIGHT] == Check(old(buttons[RIGHT]), normal[RIGHT]).1
      ensures buttons[UP] == old(buttons[UP]) && buttons[DOWN] == old(buttons[DOWN])
      ensures desiredYaw == YawAfter(old(desiredYaw),
                                     Check(old(buttons[LEFT]), normal[LEFT]).0 == PUSHED,
                                     Check(old(buttons[RIGHT]), normal[RIGHT]).0 == PUSHED)
    {
      var y := desiredYaw;
      var left := CheckButton(LEFT);
      if left == PUSHED {
        y := y - 15;
        if y < 0 {
          y := y + 360;
        }
      }
      var right := CheckButton(RIGHT);
      if right == PUSHED {
        y := y + 15;
        if y >= 360 {
          y := y - 360;
        }
      }
      desiredYaw := y;
    }
  }

  /** Whether `buttons_check` reports PUSHED right after the button was
      updated with pin level `value`. */
  predicate PushedAfter(b: Button, value: bool, normal: bool)
  {
    Check(Debounce(b, value), normal).0 == PUSHED
  }
}
