// The pedometer's step detection (stepCounter.c): the squared acceleration
// norm is averaged over the last five samples, and a step is counted on each
// rise of that average above (1.5 g)^2. The count is adjusted by the
// buttons without ever going negative.
module StepCounter {
  import opened CInt

  const BUFFER_SIZE := 5
  const THRESHOLD_ACCELERATION := 384

  /** The average must exceed this for the reading to be "above". */
  const THRESHOLD_SQ := THRESHOLD_ACCELERATION * THRESHOLD_ACCELERATION

  function Sum(s: seq<int>): int
  {
    if |s| == 0 then 0 else Sum(s[..|s| - 1]) + s[|s| - 1]
  }

  /** The rounded mean `getAverageOfCircBuf` computes from the sum of the five
      buffered samples. */
  function Average(s: seq<int>): (avg: int)
    requires |s| == BUFFER_SIZE
  {
    (2 * Sum(s) + BUFFER_SIZE) / 2 / BUFFER_SIZE
  }

  /** Samples that are never negative have a sum that is never negative. */
  lemma {:induction false} SumNonNegative(s: seq<int>)
    requires forall i :: 0 <= i < |s| ==> s[i] >= 0
    ensures Sum(s) >= 0
  {
    if |s| > 0 {
      SumNonNegative(s[..|s| - 1]);
    }
  }

  /** For a non-negative sum the result is the mean rounded to nearest (halves
      cannot occur with five samples): `(sum + 2) / 5`. */
  lemma AverageIsRoundedMean(s: seq<int>)
    requires |s| == BUFFER_SIZE && Sum(s) >= 0
    ensures Average(s) == (Sum(s) + 2) / BUFFER_SIZE
    ensures BUFFER_SIZE * Average(s) - 2 <= Sum(s) <= BUFFER_SIZE * Average(s) + 2
  {
    assert (2 * Sum(s) + BUFFER_SIZE) / 2 == Sum(s) + 2;
  }

  /** One `checkForStep` decision on the new average: the updated count and
      the updated "previous reading was below the threshold" flag. */
  function StepEdge(count: int, previousWasBelow: bool, average: int): (r: (int, bool))
    // a step is counted exactly on a rise from below to above the threshold
    ensures r.0 == if previousWasBelow && average > THRESHOLD_SQ then count + 1 else count
    ensures r.1 <==> average <= THRESHOLD_SQ
  {
    if average > THRESHOLD_SQ then
      if previousWasBelow then (count + 1, false) else (count, previousWasBelow)
    else (count, true)
  }

  /** The count and flag after a series of averages. */
  function StepRun(count: int, previousWasBelow: bool, averages: seq<int>): (int, bool)
    decreases |averages|
  {
    if averages == [] then (count, previousWasBelow)
    else
      var r := StepEdge(count, previousWasBelow, averages[0]);
      StepRun(r.0, r.1, averages[1..])
  }

  /** Reference count: the positions where the average crosses from at or
      below the threshold to above it. */
  function RisingEdges(previousWasBelow: bool, averages: seq<int>): (n: nat)
    ensures n <= |averages|
    decreases |averages|
  {
    if averages == [] then 0
    else
      (if previousWasBelow && averages[0] > THRESHOLD_SQ then 1 else 0)
      + RisingEdges(averages[0] <= THRESHOLD_SQ, averages[1..])
  }

  /** Over any series of averages the steps counted are exactly the rising
      edges. */
  lemma {:induction false} StepsAreRisingEdges(count: int, previousWasBelow: bool, averages: seq<int>)
    ensures StepRun(count, previousWasBelow, averages).0 == count + RisingEdges(previousWasBelow, averages)
    decreases |averages|
  {
    if averages != [] {
      var r := StepEdge(count, previousWasBelow, averages[0]);
      StepsAreRisingEdges(r.0, r.1, averages[1..]);
    }
  }

  /** Staying above the threshold adds at most the one step of the first
      rise, however long it lasts. */
  lemma {:induction false} StayingAboveCountsOnce(count: int, previousWasBelow: bool, averages: seq<int>)
    requires forall i :: 0 <= i < |averages| ==> averages[i] > THRESHOLD_SQ
    ensures StepRun(count, previousWasBelow, averages).0 ==
              if previousWasBelow && averages != [] then count + 1 else count
    decreases |averages|
  {
    if averages != [] {
      var r := StepEdge(count, previousWasBelow, averages[0]);
      StayingAboveCountsOnce(r.0, r.1, averages[1..]);
    }
  }

  /** `changeStepCount`: add `amount`, saturating at zero. */
  function ChangedCount(count: int, amount: int): (r: int)
    ensures count >= 0 ==> r >= 0
    ensures count + amount < 0 ==> r == 0
    ensures count + amount >= 0 ==> r == count + amount
  {
    if count < -amount then 0 else count + amount
  }

  /** The module's statics: the five-sample buffer of squared norms with its
      write position, the step count and the edge flag. The samples are the
      `uint32_t` values `getAccNormSq` returns. */
  class StepCounterState {
    var buffer: array<U32>
    var writeIndex: nat
    var stepCount: int
    var previousWasBelowThreshold: bool

    ghost predicate Valid()
      reads this
    {
      buffer.Length == BUFFER_SIZE && writeIndex < BUFFER_SIZE
    }

    /** The state `initStepCounter` leaves: a zeroed buffer, no steps, and the
        first reading treated as following a below-threshold one. */
    constructor ()
      ensures Valid() && fresh(buffer) && buffer[..] == [0, 0, 0, 0, 0]
      ensures stepCount == 0 && previousWasBelowThreshold && writeIndex == 0
    {
      buffer := new U32[BUFFER_SIZE](_ => 0);
      writeIndex := 0;
      stepCount := 0;
      previousWasBelowThreshold := true;
    }

    /** `getAverageOfCircBuf`: sums the five stored samples and rounds. */
    method GetAverageOfCircBuf() returns (avg: int)
      requires Valid()
      ensures avg == Average(buffer[..])
      // the samples are unsigned, so C's truncating division gives the same
      // value, and it is the mean rounded to nearest
      ensures avg == CDiv(CDiv(2 * Sum(buffer[..]) + BUFFER_SIZE, 2), BUFFER_SIZE)
      ensures BUFFER_SIZE * avg - 2 <= Sum(buffer[..]) <= BUFFER_SIZE * avg + 2
    {
      var sum := 0;
      var i := 0;
      while i < BUFFER_SIZE
        invariant 0 <= i <= BUFFER_SIZE
        invariant sum == Sum(buffer[..i])
      {
        assert buffer[..i + 1][..i] == buffer[..i];
        sum := sum + buffer[i];
        i := i + 1;
      }
      assert buffer[..BUFFER_SIZE] == buffer[..];
      avg := (2 * sum + BUFFER_SIZE) / 2 / BUFFER_SIZE;
      SumNonNegative(buffer[..]);
      AverageIsRoundedMean(buffer[..]);
      CDivNonNegative(2 * sum + BUFFER_SIZE, 2);
      CDivNonNegative((2 * sum + BUFFER_SIZE) / 2, BUFFER_SIZE);
    }

    /** `checkForStep`, given the squared norm just read from the
        accelerometer: store it, average, and apply the edge rule. */
    method CheckForStep(normSq: U32)
      requires Valid()
      modifies this, buffer
      ensures Valid() && buffer == old(buffer)
      ensures buffer[..] == old(buffer[..])[old(writeIndex) := normSq]
      ensures writeIndex == (old(writeIndex) + 1) % BUFFER_SIZE
      ensures (stepCount, previousWasBelowThreshold) ==
                StepEdge(old(stepCount), old(previousWasBelowThreshold), Average(buffer[..]))
    {
      buffer[writeIndex] := normSq;
      writeIndex := (writeIndex + 1) % BUFFER_SIZE;
      var average := GetAverageOfCircBuf();
      if average > THRESHOLD_SQ {
        if previousWasBelowThreshold {
          stepCount := stepCount + 1;
          previousWasBelowThreshold := false;
        }
      } else {
        previousWasBelowThreshold := true;
      }
    }

    /** `changeStepCount`. */
    method ChangeStepCount(amount: int)
      modifies this`stepCount
      ensures stepCount == ChangedCount(old(stepCount), amount)
    {
      if stepCount < -amount {
        stepCount := 0;
      } else {
        stepCount := stepCount + amount;
      }
    }

    /** `getStepCount`. */
    function GetStepCount(): int
      reads this
    {
      stepCount
    }

    /** `resetStepCount`. */
    method ResetStepCount()
      modifies this`stepCount
      ensures stepCount == 0
    {
      stepCount := 0;
    }
  }
}
