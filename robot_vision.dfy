// The robot's view of its four infra-red readings (Vision.cpp): the readings
// arranged relative to a height and a side, the closer side, and the
// "found" checks the behaviours are written with.
module RobotVision {
  import opened CInt
  import opened RobotSensor

  datatype Height = Short | Tall
  datatype Side = Left | Right | Neither

  /** The four global readings the sensor tick refreshes. */
  datatype Readings = Readings(topLeft: Reading, topRight: Reading, bottomLeft: Reading, bottomRight: Reading)

  /** `GenericReadings`: the readings at the asked height and the other
      height, each on the asked side and on the other side. */
  datatype GenericReadings = GenericReadings(
    sameHeightSameSide: Reading,
    sameHeightOppositeSide: Reading,
    oppositeHeightSameSide: Reading,
    oppositeHeightOppositeSide: Reading)

  /** `getGenericReadings`: the short sensors are the bottom ones; any side
      other than LEFT is arranged as RIGHT. */
  function GetGenericReadings(rs: Readings, height: Height, side: Side): (gr: GenericReadings)
    ensures height == Short ==>
              {gr.sameHeightSameSide, gr.sameHeightOppositeSide} == {rs.bottomLeft, rs.bottomRight} &&
              {gr.oppositeHeightSameSide, gr.oppositeHeightOppositeSide} == {rs.topLeft, rs.topRight}
    ensures height == Tall ==>
              {gr.sameHeightSameSide, gr.sameHeightOppositeSide} == {rs.topLeft, rs.topRight} &&
              {gr.oppositeHeightSameSide, gr.oppositeHeightOppositeSide} == {rs.bottomLeft, rs.bottomRight}
    ensures side == Left ==>
              gr.sameHeightSameSide == (if height == Short then rs.bottomLeft else rs.topLeft) &&
              gr.oppositeHeightSameSide == (if height == Short then rs.topLeft else rs.bottomLeft)
    ensures side != Left ==>
              gr.sameHeightSameSide == (if height == Short then rs.bottomRight else rs.topRight) &&
              gr.oppositeHeightSameSide == (if height == Short then rs.topRight else rs.bottomRight)
  {
    var sameLeft := if height == Short then rs.bottomLeft else rs.topLeft;
    var sameRight := if height == Short then rs.bottomRight else rs.topRight;
    var oppositeLeft := if height == Short then rs.topLeft else rs.bottomLeft;
    var oppositeRight := if height == Short then rs.topRight else rs.bottomRight;
    GenericReadings(
      if side == Left then sameLeft else sameRight,
      if side == Left then sameRight else sameLeft,
      if side == Left then oppositeLeft else oppositeRight,
      if side == Left then oppositeRight else oppositeLeft)
  }

  /** Asking from the right mirrors asking from the left. */
  lemma GenericReadingsMirror(rs: Readings, height: Height)
    ensures var l := GetGenericReadings(rs, height, Left);
            var r := GetGenericReadings(rs, height, Right);
            r.sameHeightSameSide == l.sameHeightOppositeSide &&
            r.sameHeightOppositeSide == l.sameHeightSameSide &&
            r.oppositeHeightSameSide == l.oppositeHeightOppositeSide &&
            r.oppositeHeightOppositeSide == l.oppositeHeightSameSide
    ensures GetGenericReadings(rs, height, Neither) == GetGenericReadings(rs, height, Right)
  {
  }

  /** The readings of one height on the left and on the right. */
  function LeftAt(rs: Readings, height: Height): Reading
  {
    if height == Short then rs.bottomLeft else rs.topLeft
  }

  function RightAt(rs: Readings, height: Height): Reading
  {
    if height == Short then rs.bottomRight else rs.topRight
  }

  /** `VisionClass::getClosestSide`. */
  function GetClosestSide(rs: Readings, height: Height): (side: Side)
    ensures var l := LeftAt(rs, height); var r := RightAt(rs, height);
            (side == Left <==> l.foundObject && (!r.foundObject || l.distanceMM < r.distanceMM)) &&
            (side == Right <==> r.foundObject && (!l.foundObject || r.distanceMM <= l.distanceMM)) &&
            (side == Neither <==> !l.foundObject && !r.foundObject)
  {
    var gr := GetGenericReadings(rs, height, Left);
    if gr.sameHeightSameSide.foundObject && gr.sameHeightOppositeSide.foundObject then
      if gr.sameHeightSameSide.distanceMM < gr.sameHeightOppositeSide.distanceMM then Left else Right
    else if gr.sameHeightSameSide.foundObject then Left
    else if gr.sameHeightOppositeSide.foundObject then Right
    else Neither
  }

  /** Swapping the left and right sensors swaps the closer side, except that
      a tie always goes to the right. */
  lemma ClosestSideSwap(rs: Readings, height: Height)
    ensures var swapped := Readings(rs.topRight, rs.topLeft, rs.bottomRight, rs.bottomLeft);
            var l := LeftAt(rs, height); var r := RightAt(rs, height);
            !(l.foundObject && r.foundObject && l.distanceMM == r.distanceMM) ==>
              GetClosestSide(swapped, height) ==
                match GetClosestSide(rs, height)
                case Left => Right
                case Right => Left
                case Neither => Neither
  {
  }

  /** `VisionClass::foundOnBothSides(height)`. */
  function FoundOnBothSides(rs: Readings, height: Height): (b: bool)
    ensures b <==> LeftAt(rs, height).foundObject && RightAt(rs, height).foundObject
  {
    var gr := GetGenericReadings(rs, height, Neither);
    gr.sameHeightSameSide.foundObject && gr.sameHeightOppositeSide.foundObject
  }

  /** `VisionClass::foundOnBothSides(height, threshold)`. */
  function FoundOnBothSidesWithin(rs: Readings, height: Height, threshold: int): (b: bool)
    ensures b <==> LeftAt(rs, height).foundObject && RightAt(rs, height).foundObject &&
                   -threshold <= LeftAt(rs, height).distanceMM - RightAt(rs, height).distanceMM <= threshold
  {
    var gr := GetGenericReadings(rs, height, Neither);
    if gr.sameHeightSameSide.foundObject && gr.sameHeightOppositeSide.foundObject then
      Abs(gr.sameHeightSameSide.distanceMM - gr.sameHeightOppositeSide.distanceMM) <= threshold
    else false
  }

  /** A threshold only narrows the check: passing a threshold implies both
      sides found, and a larger threshold passes whenever a smaller one does. */
  lemma BothSidesThresholdNarrows(rs: Readings, height: Height, t1: int, t2: int)
    requires t1 <= t2
    ensures FoundOnBothSidesWithin(rs, height, t1) ==> FoundOnBothSidesWithin(rs, height, t2)
    ensures FoundOnBothSidesWithin(rs, height, t1) ==> FoundOnBothSides(rs, height)
  {
  }

  /** `VisionClass::found(height, side, targetDistance, threshold)`. */
  function FoundAt(rs: Readings, height: Height, side: Side, targetDistance: int, threshold: int): (b: bool)
    ensures b <==> var reading := GetGenericReadings(rs, height, side).sameHeightSameSide;
                   reading.foundObject && targetDistance - threshold <= reading.distanceMM <= targetDistance + threshold
  {
    var gr := GetGenericReadings(rs, height, side);
    if !gr.sameHeightSameSide.foundObject then false
    else Abs(gr.sameHeightSameSide.distanceMM - targetDistance) <= threshold
  }

  /** `VisionClass::found(height, side, cutOffDistance)`. */
  function FoundWithin(rs: Readings, height: Height, side: Side, cutOffDistance: int): bool
  {
    FoundObjectCloser(GetGenericReadings(rs, height, side).sameHeightSameSide, cutOffDistance)
  }

  /** `VisionClass::found(height, side)`. */
  function Found(rs: Readings, height: Height, side: Side): (b: bool)
    ensures b <==> (if side == Left then LeftAt(rs, height) else RightAt(rs, height)).foundObject
  {
    GetGenericReadings(rs, height, side).sameHeightSameSide.foundObject
  }

  /** The three `found` overloads are nested: near a target implies within
      target plus threshold, which implies found at all. */
  lemma FoundOverloadsNested(rs: Readings, height: Height, side: Side, target: int, threshold: int, cutOff: int)
    ensures FoundAt(rs, height, side, target, threshold) ==> FoundWithin(rs, height, side, target + threshold)
    ensures FoundWithin(rs, height, side, cutOff) ==> Found(rs, height, side)
  {
  }
}
