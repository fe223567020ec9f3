// The robot's infra-red sensors (Sensor.cpp): a five-entry ring buffer of raw
// analogue readings, their average (skipping the unused marker -1), their
// median, and the conversion of the average to a found-object flag and a
// distance in millimetres for the medium- and long-range sensor types.
module RobotSensor {
  import opened CInt

  const BUFFER_SIZE := 5
  const UNUSED := -1

  datatype SensorType = IrMedium | IrLong | IrProximity

  /** The `Reading` object: found flag, distance, raw and processed values. */
  datatype Reading = Reading(foundObject: bool, distanceMM: int, rawValue: int, processedValue: int)

  /** Sum of the entries other than -1. */
  function SumValid(s: seq<int>): int
  {
    if |s| == 0 then 0
    else SumValid(s[..|s| - 1]) + (if s[|s| - 1] != UNUSED then s[|s| - 1] else 0)
  }

  /** Number of entries other than -1. */
  function CountValid(s: seq<int>): (n: nat)
    ensures n <= |s|
  {
    if |s| == 0 then 0
    else CountValid(s[..|s| - 1]) + (if s[|s| - 1] != UNUSED then 1 else 0)
  }

  /** `getAverageOfBuffer`'s result: the truncated mean of the used entries. */
  function Average(s: seq<int>): int
    requires CountValid(s) > 0
  {
    CDiv(SumValid(s), CountValid(s))
  }

  /** When every used entry lies in [lo, hi] (the sensor's ADC gives
      0..1023), so does their average. */
  lemma AverageBetween(s: seq<int>, lo: int, hi: int)
    requires CountValid(s) > 0 && 0 <= lo
    requires forall i :: 0 <= i < |s| && s[i] != UNUSED ==> lo <= s[i] <= hi
    ensures lo <= Average(s) <= hi
  {
    SumValidBounds(s, lo, hi);
    var n := CountValid(s);
    var sum := SumValid(s);
    assert n * lo >= 0;
    assert Average(s) == sum / n by {
      CDivNonNegative(sum, n);
    }
    DivExact(lo, n);
    DivExact(hi, n);
    DivMonotone(n * lo, sum, n);
    DivMonotone(sum, n * hi, n);
  }

  lemma {:induction false} SumValidBounds(s: seq<int>, lo: int, hi: int)
    requires forall i :: 0 <= i < |s| && s[i] != UNUSED ==> lo <= s[i] <= hi
    ensures CountValid(s) * lo <= SumValid(s) <= CountValid(s) * hi
  {
    if |s| > 0 {
      var t := s[..|s| - 1];
      SumValidBounds(t, lo, hi);
      var n := CountValid(t);
      if s[|s| - 1] != UNUSED {
        assert CountValid(s) == n + 1;
        assert (n + 1) * lo == n * lo + lo && (n + 1) * hi == n * hi + hi;
      } else {
        assert CountValid(s) == n && SumValid(s) == SumValid(t);
      }
    }
  }

  /** With no entry at the marker (the constructor fills the buffer with 0,
      and analogue readings are never negative) the average is the plain
      mean of all five entries. */
  lemma {:induction false} NoMarkerAveragesAll(s: seq<int>)
    requires forall i :: 0 <= i < |s| ==> s[i] != UNUSED
    ensures CountValid(s) == |s|
    ensures SumValid(s) == SumAll(s)
  {
    if |s| > 0 {
      NoMarkerAveragesAll(s[..|s| - 1]);
    }
  }

  function SumAll(s: seq<int>): int
  {
    if |s| == 0 then 0 else SumAll(s[..|s| - 1]) + s[|s| - 1]
  }

  /** `getAverageOfBuffer`: the summing loop over the buffer. */
  method GetAverageOfBuffer(buffer: array<int>) returns (average: int)
    requires buffer.Length == BUFFER_SIZE && CountValid(buffer[..]) > 0
    ensures average == Average(buffer[..])
  {
    var sum := 0;
    var numValues := 0;
    var i := 0;
    while i < BUFFER_SIZE
      invariant 0 <= i <= BUFFER_SIZE
      invariant sum == SumValid(buffer[..i]) && numValues == CountValid(buffer[..i])
    {
      assert buffer[..i + 1][..i] == buffer[..i];
      var rawValue := buffer[i];
      if rawValue != UNUSED {
        sum := sum + rawValue;
        numValues := numValues + 1;
      }
      i := i + 1;
    }
    assert buffer[..BUFFER_SIZE] == buffer[..];
    average := CDiv(sum, numValues);
  }

  /** `qsort` with `sortDesc`: insertion of one value into a descending list. */
  function Insert(x: int, s: seq<int>): (r: seq<int>)
    ensures |r| == |s| + 1
    ensures multiset(r) == multiset(s) + multiset{x}
  {
    if |s| == 0 then [x]
    else if x >= s[0] then [x] + s
    else
      assert s == [s[0]] + s[1..];
      [s[0]] + Insert(x, s[1..])
  }

  /** The buffer sorted largest first. */
  function SortDesc(s: seq<int>): (r: seq<int>)
    ensures |r| == |s|
    ensures multiset(r) == multiset(s)
  {
    if |s| == 0 then []
    else
      assert s == [s[0]] + s[1..];
      Insert(s[0], SortDesc(s[1..]))
  }

  ghost predicate Descending(s: seq<int>)
  {
    forall i, j :: 0 <= i < j < |s| ==> s[i] >= s[j]
  }

  lemma {:induction false} InsertDescending(x: int, s: seq<int>)
    requires Descending(s)
    ensures Descending(Insert(x, s))
  {
    if |s| > 0 && x < s[0] {
      InsertDescending(x, s[1..]);
      var r := Insert(x, s[1..]);
      assert forall k :: 0 <= k < |r| ==> r[k] in multiset(s[1..]) + multiset{x};
      forall k | 0 <= k < |r|
        ensures s[0] >= r[k]
      {
        assert r[k] in multiset(s[1..]) + multiset{x};
        if r[k] != x {
          assert r[k] in multiset(s[1..]);
          var j :| 0 <= j < |s[1..]| && s[1..][j] == r[k];
          assert s[j + 1] == r[k];
        }
      }
    }
  }

  /** The sorted copy is in descending order. */
  lemma {:induction false} SortDescending(s: seq<int>)
    ensures Descending(SortDesc(s))
  {
    if |s| > 0 {
      SortDescending(s[1..]);
      InsertDescending(s[0], SortDesc(s[1..]));
    }
  }

  /** Number of entries at least `m`, and at most `m`. */
  function CountAtLeast(s: seq<int>, m: int): (n: nat)
    ensures n <= |s|
  {
    if |s| == 0 then 0 else (if s[0] >= m then 1 else 0) + CountAtLeast(s[1..], m)
  }

  function CountAtMost(s: seq<int>, m: int): (n: nat)
    ensures n <= |s|
  {
    if |s| == 0 then 0 else (if s[0] <= m then 1 else 0) + CountAtMost(s[1..], m)
  }

  lemma {:induction false} InsertCounts(x: int, s: seq<int>, m: int)
    ensures CountAtLeast(Insert(x, s), m) == CountAtLeast(s, m) + (if x >= m then 1 else 0)
    ensures CountAtMost(Insert(x, s), m) == CountAtMost(s, m) + (if x <= m then 1 else 0)
  {
    if |s| > 0 && x < s[0] {
      InsertCounts(x, s[1..], m);
      assert Insert(x, s)[1..] == Insert(x, s[1..]);
    } else if |s| > 0 {
      assert Insert(x, s)[1..] == s;
    }
  }

  /** Sorting keeps the number of entries on each side of any value. */
  lemma {:induction false} SortCounts(s: seq<int>, m: int)
    ensures CountAtLeast(SortDesc(s), m) == CountAtLeast(s, m)
    ensures CountAtMost(SortDesc(s), m) == CountAtMost(s, m)
  {
    if |s| > 0 {
      SortCounts(s[1..], m);
      InsertCounts(s[0], SortDesc(s[1..]), m);
    }
  }

  lemma {:induction false} PrefixAtLeast(s: seq<int>, k: nat, m: int)
    requires k <= |s|
    requires forall i :: 0 <= i < k ==> s[i] >= m
    ensures CountAtLeast(s, m) >= k
  {
    if k > 0 {
      PrefixAtLeast(s[1..], k - 1, m);
    }
  }

  lemma {:induction false} SuffixAtMost(s: seq<int>, k: nat, m: int)
    requires k <= |s|
    requires forall i :: |s| - k <= i < |s| ==> s[i] <= m
    ensures CountAtMost(s, m) >= k
  {
    if |s| > 0 {
      if k == |s| {
        SuffixAtMost(s[1..], k - 1, m);
      } else {
        SuffixAtMost(s[1..], k, m);
      }
    }
  }

  /** `getMedianOfBuffer`'s result is a median of the five entries: one of
      them, with at least three entries at or above it and at least three at
      or below it. */
  lemma MedianIsMedian(s: seq<int>)
    requires |s| == BUFFER_SIZE
    ensures SortDesc(s)[BUFFER_SIZE / 2] in s
    ensures CountAtLeast(s, SortDesc(s)[BUFFER_SIZE / 2]) >= 3
    ensures CountAtMost(s, SortDesc(s)[BUFFER_SIZE / 2]) >= 3
  {
    var t := SortDesc(s);
    SortDescending(s);
    assert t[2] in s by {
      assert t[2] in multiset(s);
    }
    MiddleCounts(t);
    SortCounts(s, t[2]);
  }

  /** In a descending sequence of five entries the middle one has three
      entries at or above it and three at or below it. */
  lemma MiddleCounts(t: seq<int>)
    requires |t| == BUFFER_SIZE && Descending(t)
    ensures CountAtLeast(t, t[2]) >= 3 && CountAtMost(t, t[2]) >= 3
  {
    var m := t[2];
    assert forall i :: 0 <= i < 3 ==> t[i] >= m;
    assert forall i :: 2 <= i < 5 ==> t[i] <= m;
    PrefixAtLeast(t, 3, m);
    SuffixAtMost(t, 3, m);
  }

  /** `getMedianOfBuffer`: sort a copy and take its middle entry; the
      caller's buffer is only read. */
  method GetMedianOfBuffer(buffer: array<int>) returns (median: int)
    requires buffer.Length == BUFFER_SIZE
    ensures median == SortDesc(buffer[..])[BUFFER_SIZE / 2]
  {
    var sortedBuffer := new int[BUFFER_SIZE];
    var i := 0;
    while i < BUFFER_SIZE
      invariant 0 <= i <= BUFFER_SIZE
      invariant sortedBuffer[..i] == buffer[..i]
    {
      sortedBuffer[i] := buffer[i];
      i := i + 1;
    }
    assert sortedBuffer[..] == buffer[..];
    // qsort(sortedBuffer, BUFFER_SIZE, sizeof(int), sortDesc)
    var sorted := SortDesc(sortedBuffer[..]);
    i := 0;
    while i < BUFFER_SIZE
      invariant 0 <= i <= BUFFER_SIZE
      invariant sortedBuffer[..i] == sorted[..i]
    {
      sortedBuffer[i] := sorted[i];
      i := i + 1;
    }
    assert sortedBuffer[BUFFER_SIZE / 2] == sortedBuffer[..i][BUFFER_SIZE / 2];
    median := sortedBuffer[BUFFER_SIZE / 2];
  }

  /** The conversion in `getReading` of the averaged value to a reading. */
  function Classify(sensorType: SensorType, rawValue: int, processedValue: int): (r: Reading)
    requires sensorType != IrProximity
    ensures r.rawValue == rawValue && r.processedValue == processedValue
    ensures sensorType == IrMedium ==> (r.foundObject <==> 80 <= processedValue <= 600)
    ensures sensorType == IrLong ==> (r.foundObject <==> 80 <= processedValue <= 490)
    ensures r.foundObject ==> r.distanceMM > 0
    ensures !r.foundObject ==> r.distanceMM == 0
  {
    var reading := Reading(false, 0, rawValue, processedValue);
    match sensorType
    case IrMedium =>
      if 80 <= processedValue <= 600 then
        DivAntitone(48000, processedValue - 20, 580);
        reading.(foundObject := true, distanceMM := 48000 / (processedValue - 20))
      else reading
    case IrLong =>
      if 80 <= processedValue <= 490 then
        DivAntitone(946200, processedValue * 10 - 169, 4731);
        reading.(foundObject := true, distanceMM := 946200 / (processedValue * 10 - 169))
      else reading
  }

  /** A larger averaged value (a nearer object) never gives a larger distance. */
  lemma ClassifyDistanceAntitone(sensorType: SensorType, p1: int, p2: int)
    requires sensorType != IrProximity && p1 <= p2
    requires Classify(sensorType, 0, p1).foundObject && Classify(sensorType, 0, p2).foundObject
    ensures Classify(sensorType, 0, p1).distanceMM >= Classify(sensorType, 0, p2).distanceMM
  {
    if sensorType == IrMedium {
      DivAntitone(48000, p1 - 20, p2 - 20);
    } else {
      DivAntitone(946200, p1 * 10 - 169, p2 * 10 - 169);
    }
  }

  lemma DivAntitone(a: int, d1: int, d2: int)
    requires a >= 0 && 0 < d1 <= d2
    ensures a / d1 >= a / d2
  {
    var q := a / d2;
    assert q >= 0;
    assert q * d1 <= q * d2 by {
      assert q * d2 - q * d1 == q * (d2 - d1);
    }
    assert q * d2 <= a;
    assert a < (a / d1 + 1) * d1;
    MulCancel(q, a / d1 + 1, d1);
  }

  /** `Reading::foundObjectCloser`. */
  function FoundObjectCloser(reading: Reading, cutOffDistance: int): bool
  {
    reading.foundObject && reading.distanceMM <= cutOffDistance
  }

  /** An object found closer than one cut-off is found closer than any larger
      one, and never without being found. */
  lemma FoundCloserMonotone(reading: Reading, c1: int, c2: int)
    requires FoundObjectCloser(reading, c1) && c1 <= c2
    ensures FoundObjectCloser(reading, c2) && reading.foundObject
    ensures reading.distanceMM <= c1
  {
  }

  /** One sensor: its pin, its type and the ring buffer of raw readings. */
  class Sensor {
    const pinNumber: int
    const sensorType: SensorType
    const rawValueBuffer: array<int>
    var bufferIndex: int

    ghost predicate Valid()
      reads this
    {
      rawValueBuffer.Length == BUFFER_SIZE && 0 <= bufferIndex < BUFFER_SIZE
    }

    /** `Sensor::Sensor`: the buffer filled with 0 (the index of a global
        object starts at 0). */
    constructor (pin: int, t: SensorType)
      ensures Valid() && fresh(rawValueBuffer)
      ensures pinNumber == pin && sensorType == t && bufferIndex == 0
      ensures forall i :: 0 <= i < BUFFER_SIZE ==> rawValueBuffer[i] == 0
    {
      pinNumber, sensorType := pin, t;
      rawValueBuffer := new int[BUFFER_SIZE](_ => 0);
      bufferIndex := 0;
    }

    /** `Sensor::getReading`, given the digital pin level (proximity type)
        or the analogue reading 0..1023 (the other types). */
    method GetReading(pinLevel: bool, rawValue: int) returns (reading: Reading)
      requires Valid() && 0 <= rawValue < 1024
      modifies this`bufferIndex, rawValueBuffer
      ensures Valid()
      ensures sensorType == IrProximity ==>
                reading == Reading(!pinLevel, 0, 0, 0) &&
                bufferIndex == old(bufferIndex) && rawValueBuffer[..] == old(rawValueBuffer[..])
      ensures sensorType != IrProximity ==>
                rawValueBuffer[..] == old(rawValueBuffer[..])[old(bufferIndex) := rawValue] &&
                bufferIndex == (old(bufferIndex) + 1) % BUFFER_SIZE &&
                CountValid(rawValueBuffer[..]) > 0 &&
                reading == Classify(sensorType, rawValue, Average(rawValueBuffer[..]))
    {
      if sensorType == IrProximity {
        reading := Reading(!pinLevel, 0, 0, 0);
        return;
      }
      rawValueBuffer[bufferIndex] := rawValue;
      ValidAfterWrite(rawValueBuffer[..], bufferIndex);
      bufferIndex := bufferIndex + 1;
      if bufferIndex == BUFFER_SIZE {
        bufferIndex := 0;
      }
      var processedValue := GetAverageOfBuffer(rawValueBuffer);
      reading := Classify(sensorType, rawValue, processedValue);
    }
  }

  /** A buffer holding a fresh reading has a used entry. */
  lemma {:induction false} ValidAfterWrite(s: seq<int>, k: int)
    requires 0 <= k < |s| && s[k] != UNUSED
    ensures CountValid(s) > 0
  {
    if k < |s| - 1 {
      ValidAfterWrite(s[..|s| - 1], k);
    }
  }
}
