// Shared helpers of the racer and hat boards: clamping, the four-switch DIP
// value, and the wait for the sleep button to be released at start-up.
module RacerCore {
  /** `limit_int`: the value clamped into [min, max]. */
  function LimitInt(min: int, max: int, value: int): (r: int)
    ensures min <= max ==> min <= r <= max
    ensures min <= value <= max ==> r == value
  {
    if value < min then min else if value > max then max else value
  }

  /** Clamping twice is clamping once. */
  lemma LimitIntIdempotent(min: int, max: int, value: int)
    requires min <= max
    ensures LimitInt(min, max, LimitInt(min, max, value)) == LimitInt(min, max, value)
  {
  }

  /** Clamping is monotone in the value. */
  lemma LimitIntMonotone(min: int, max: int, v: int, w: int)
    requires min <= max && v <= w
    ensures LimitInt(min, max, v) <= LimitInt(min, max, w)
  {
  }

  function Bit(b: bool): (r: int)
    ensures 0 <= r <= 1 && (r == 1 <==> b)
  {
    if b then 1 else 0
  }

  /** `core_read_dip_value`: the four switch levels as a binary number with
      DIP 0 as the most significant bit. */
  function DipValue(dip0: bool, dip1: bool, dip2: bool, dip3: bool): (v: int)
    ensures 0 <= v < 16
    ensures v / 8 == Bit(dip0) && v / 4 % 2 == Bit(dip1)
    ensures v / 2 % 2 == Bit(dip2) && v % 2 == Bit(dip3)
  {
    Bit(dip0) * 8 + Bit(dip1) * 4 + Bit(dip2) * 2 + Bit(dip3)
  }

  /** Different switch settings give different values. */
  lemma DipValueInjective(a0: bool, a1: bool, a2: bool, a3: bool,
                          b0: bool, b1: bool, b2: bool, b3: bool)
    requires DipValue(a0, a1, a2, a3) == DipValue(b0, b1, b2, b3)
    ensures a0 == b0 && a1 == b1 && a2 == b2 && a3 == b3
  {
  }

  /** True when the ten reads just before read number `k` were all high. */
  ghost predicate ReleasedAt(s: seq<bool>, k: int)
  {
    10 <= k <= |s| && forall i :: k - 10 <= i < k ==> s[i]
  }

  /** Length of the run of high reads at the end of `s`. */
  function TrailingHigh(s: seq<bool>): (n: nat)
    ensures n <= |s|
  {
    if |s| == 0 then 0 else if s[|s| - 1] then 1 + TrailingHigh(s[..|s| - 1]) else 0
  }

  lemma {:induction false} TrailingHighAtLeast(s: seq<bool>, m: nat)
    requires m <= |s|
    ensures TrailingHigh(s) >= m <==> forall i :: |s| - m <= i < |s| ==> s[i]
  {
    if m > 0 {
      if s[|s| - 1] {
        var t := s[..|s| - 1];
        TrailingHighAtLeast(t, m - 1);
        assert forall i :: |s| - m <= i < |s| - 1 ==> s[i] == t[i];
      }
    }
  }

  lemma ReleasedAtIff(s: seq<bool>, k: nat)
    requires k <= |s|
    ensures ReleasedAt(s, k) <==> TrailingHigh(s[..k]) >= 10
  {
    if k >= 10 {
      TrailingHighAtLeast(s[..k], 10);
    }
  }

  /** `wait_for_sleep_button_release`, given the successive levels of the
      sleep-button pin (high = released). Returns whether ten consecutive high
      reads were seen and how many reads were taken: the loop stops at the
      first point where the last ten reads were high, and a low read restarts
      the count. */
  method WaitForSleepButtonRelease(samples: seq<bool>) returns (released: bool, used: nat)
    ensures used <= |samples|
    ensures released ==> ReleasedAt(samples, used)
    ensures !released ==> used == |samples|
    ensures forall j :: 0 <= j < used ==> !ReleasedAt(samples, j)
    ensures !released ==> !ReleasedAt(samples, used)
  {
    var counter := 0;
    used := 0;
    while counter < 10 && used < |samples|
      invariant used <= |samples|
      invariant counter == TrailingHigh(samples[..used]) && counter <= 10
      invariant forall j :: 0 <= j < used ==> !ReleasedAt(samples, j)
      invariant counter < 10 <==> !ReleasedAt(samples, used)
      decreases |samples| - used
    {
      if samples[used] {
        counter := counter + 1;
      } else {
        counter := 0;
      }
      used := used + 1;
      assert samples[..used][..used - 1] == samples[..used - 1];
      ReleasedAtIff(samples, used);
    }
    released := counter >= 10;
  }
}
