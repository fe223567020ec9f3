// The padded neighbour map of the single-threaded stencil test (test.c):
// an (n+2)*(n+2)*(n+2) table of pointers into an n*n*n block, so that the
// padded cell (x+1, y+1, z+1) points at block cell (x, y, z) and the pad
// slots around the block point at the cell that mirrors their neighbour
// across the boundary. A pointer is modelled as the index it points at in
// the block, a NULL pointer as None.
module StencilMap {
  import opened CInt
  import opened StencilBlock

  /** A padded coordinate of a block cell: 1 .. n. */
  predicate InRange(c: int, n: int)
  {
    1 <= c <= n
  }

  /** A padded coordinate just outside the block: 0 or n+1. */
  predicate Outside(c: int, n: int)
  {
    c == 0 || c == n + 1
  }

  /** The block coordinate a padded coordinate refers to once mirrored
      across the boundary cell: -1 reads 1 and n reads n-2. */
  function Reflect(c: int, n: int): int
  {
    if c == -1 then 1 else if c == n then n - 2 else c
  }

  /** The intended map: the block cells, and the x and y pads mirrored;
      corners in the x-y plane and the z pads stay NULL. */
  function Reference(n: int, px: int, py: int, pz: int): (r: Option<int>)
    ensures r.Some? <==> InRange(pz, n) && 0 <= px <= n + 1 && 0 <= py <= n + 1 &&
                         !(Outside(px, n) && Outside(py, n))
  {
    if InRange(pz, n) && 0 <= px <= n + 1 && 0 <= py <= n + 1 && !(Outside(px, n) && Outside(py, n))
    then Some(Idx(Reflect(px - 1, n), Reflect(py - 1, n), pz - 1, n))
    else None
  }

  /** The intended map as a table, slot by padded flat index. */
  function ReferenceMap(n: int): (r: seq<Option<int>>)
    requires n > 0
    ensures |r| == (n + 2) * (n + 2) * (n + 2)
  {
    var p := n + 2;
    seq(p * p * p, i requires 0 <= i < p * p * p =>
      Reference(n, X(i, p), Y(i, p), Z(i, p)))
  }

  // ---------------------------------------------------------------------
  // The middle: padded (x+1, y+1, z+1) points at (x, y, z).

  predicate Middle(px: int, py: int, pz: int, n: int)
  {
    InRange(px, n) && InRange(py, n) && InRange(pz, n)
  }

  /** Whether the middle loops, at block cell (x, y, z) in the order z, y,
      x, have passed padded slot (px, py, pz). */
  predicate MiddlePassed(px: int, py: int, pz: int, x: int, y: int, z: int)
  {
    pz - 1 < z || (pz - 1 == z && (py - 1 < y || (py - 1 == y && px - 1 < x)))
  }

  predicate MiddleProgress(m: seq<Option<int>>, before: seq<Option<int>>, n: int, x: int, y: int, z: int)
    requires n > 0 && |m| == (n + 2) * (n + 2) * (n + 2) && |before| == |m|
  {
    var p := n + 2;
    forall i :: 0 <= i < p * p * p ==>
      m[i] == if Middle(X(i, p), Y(i, p), Z(i, p), n) && MiddlePassed(X(i, p), Y(i, p), Z(i, p), x, y, z)
              then Some(Idx(X(i, p) - 1, Y(i, p) - 1, Z(i, p) - 1, n))
              else before[i]
  }

  /** Mapping cell (x, y, z) advances the middle loops by one cell. */
  lemma MiddleStep(m: seq<Option<int>>, before: seq<Option<int>>, n: int, x: int, y: int, z: int)
    requires n > 0 && |m| == (n + 2) * (n + 2) * (n + 2) && |before| == |m| && InBlock(x, y, z, n)
    requires MiddleProgress(m, before, n, x, y, z)
    ensures 0 <= Idx(x + 1, y + 1, z + 1, n + 2) < |m|
    ensures MiddleProgress(m[Idx(x + 1, y + 1, z + 1, n + 2) := Some(Idx(x, y, z, n))], before, n, x + 1, y, z)
  {
    var p := n + 2;
    IdxCoordinates(x + 1, y + 1, z + 1, p);
    forall i | 0 <= i < p * p * p
      ensures i != Idx(x + 1, y + 1, z + 1, p) ==>
                !(Middle(X(i, p), Y(i, p), Z(i, p), n) && MiddlePassed(X(i, p), Y(i, p), Z(i, p), x + 1, y, z) &&
                  !MiddlePassed(X(i, p), Y(i, p), Z(i, p), x, y, z))
    {
      CoordinatesIdx(i, p);
    }
  }

  /** The innermost middle loop, over x, for one (y, z). */
  method MapMiddleRow(currentPointers: array<Option<int>>, n: int, y: int, z: int, ghost before: seq<Option<int>>)
    requires n > 0 && currentPointers.Length == (n + 2) * (n + 2) * (n + 2) && |before| == currentPointers.Length
    requires 0 <= y < n && 0 <= z < n
    requires MiddleProgress(currentPointers[..], before, n, 0, y, z)
    modifies currentPointers
    ensures MiddleProgress(currentPointers[..], before, n, 0, y + 1, z)
  {
    var blockSize := n;
    var x := 0;
    while x < blockSize
      invariant 0 <= x <= blockSize
      invariant MiddleProgress(currentPointers[..], before, n, x, y, z)
    {
      var centralNodeIndex := (z * blockSize + y) * blockSize + x;
      var centralNodeIndexPadded := ((z + 1) * (blockSize + 2) + y + 1) * (blockSize + 2) + x + 1;
      MiddleStep(currentPointers[..], before, n, x, y, z);
      currentPointers[centralNodeIndexPadded] := Some(centralNodeIndex);
      x := x + 1;
    }
  }

  /** The middle y loop for one z. */
  method MapMiddlePlane(currentPointers: array<Option<int>>, n: int, z: int, ghost before: seq<Option<int>>)
    requires n > 0 && currentPointers.Length == (n + 2) * (n + 2) * (n + 2) && |before| == currentPointers.Length
    requires 0 <= z < n
    requires MiddleProgress(currentPointers[..], before, n, 0, 0, z)
    modifies currentPointers
    ensures MiddleProgress(currentPointers[..], before, n, 0, 0, z + 1)
  {
    var y := 0;
    while y < n
      invariant 0 <= y <= n
      invariant MiddleProgress(currentPointers[..], before, n, 0, y, z)
    {
      MapMiddleRow(currentPointers, n, y, z, before);
      y := y + 1;
    }
  }

  /** "Map the middle section": every padded block slot points at its cell,
      every other slot is kept. */
  method MapMiddle(currentPointers: array<Option<int>>, n: int)
    requires n > 0 && currentPointers.Length == (n + 2) * (n + 2) * (n + 2)
    modifies currentPointers
    ensures forall i :: 0 <= i < currentPointers.Length ==>
              currentPointers[i] == if Middle(X(i, n + 2), Y(i, n + 2), Z(i, n + 2), n)
                                    then Some(Idx(X(i, n + 2) - 1, Y(i, n + 2) - 1, Z(i, n + 2) - 1, n))
                                    else old(currentPointers[i])
  {
    ghost var before := currentPointers[..];
    var z := 0;
    while z < n
      invariant 0 <= z <= n
      invariant MiddleProgress(currentPointers[..], before, n, 0, 0, z)
    {
      MapMiddlePlane(currentPointers, n, z, before);
      z := z + 1;
    }
  }

  // ---------------------------------------------------------------------
  // The pads. Pass 0 is the x boundary, pass 1 the y boundary as written
  // and pass 2 the y boundary as intended. Each loops over z outside and
  // over the other coordinate (w) inside, filling two slots per step.

  /** The slots pass `a` fills. */
  predicate Pad(a: int, px: int, py: int, pz: int, n: int)
  {
    if a == 0 then Outside(px, n) && InRange(py, n) && InRange(pz, n)
    else if a == 1 then Outside(py, n) && 0 <= px < n && InRange(pz, n)
    else Outside(py, n) && InRange(px, n) && InRange(pz, n)
  }

  /** What pass `a` stores in slot (px, py, pz). */
  function PadTarget(a: int, px: int, py: int, pz: int, n: int): int
  {
    if a == 0 then Idx(Reflect(px - 1, n), py - 1, pz - 1, n)
    else if a == 1 then Idx(px, if py == 0 then 1 else n - 1, pz - 1, n)
    else Idx(px - 1, Reflect(py - 1, n), pz - 1, n)
  }

  /** The slot pass `a` fills at loop position (z, w) on side `v` (0 or n+1). */
  function PadCell(a: int, v: int, z: int, w: int): (int, int, int)
  {
    if a == 0 then (v, w + 1, z + 1) else if a == 1 then (w, v, z + 1) else (w + 1, v, z + 1)
  }

  function PadIdx(a: int, v: int, z: int, w: int, n: int): int
  {
    var c := PadCell(a, v, z, w);
    Idx(c.0, c.1, c.2, n + 2)
  }

  function PadCellTarget(a: int, v: int, z: int, w: int, n: int): int
  {
    var c := PadCell(a, v, z, w);
    PadTarget(a, c.0, c.1, c.2, n)
  }

  predicate PadPassed(a: int, px: int, py: int, pz: int, z: int, w: int)
  {
    var inner := if a == 0 then py - 1 else if a == 1 then px else px - 1;
    pz - 1 < z || (pz - 1 == z && inner < w)
  }

  predicate PadProgress(m: seq<Option<int>>, before: seq<Option<int>>, n: int, a: int, z: int, w: int)
    requires n > 0 && |m| == (n + 2) * (n + 2) * (n + 2) && |before| == |m|
  {
    var p := n + 2;
    forall i :: 0 <= i < p * p * p ==>
      m[i] == if Pad(a, X(i, p), Y(i, p), Z(i, p), n) && PadPassed(a, X(i, p), Y(i, p), Z(i, p), z, w)
              then Some(PadTarget(a, X(i, p), Y(i, p), Z(i, p), n))
              else before[i]
  }

  /** Filling the two slots at (z, w) advances pass `a` by one step. */
  lemma PadStep(m: seq<Option<int>>, before: seq<Option<int>>, n: int, a: int, z: int, w: int)
    requires n > 0 && |m| == (n + 2) * (n + 2) * (n + 2) && |before| == |m| && 0 <= a <= 2
    requires 0 <= z < n && 0 <= w < n
    requires PadProgress(m, before, n, a, z, w)
    ensures 0 <= PadIdx(a, 0, z, w, n) < |m| && 0 <= PadIdx(a, n + 1, z, w, n) < |m|
    ensures PadProgress(m[PadIdx(a, 0, z, w, n) := Some(PadCellTarget(a, 0, z, w, n))]
                         [PadIdx(a, n + 1, z, w, n) := Some(PadCellTarget(a, n + 1, z, w, n))],
                        before, n, a, z, w + 1)
  {
    var p := n + 2;
    var c0, c1 := PadCell(a, 0, z, w), PadCell(a, n + 1, z, w);
    IdxCoordinates(c0.0, c0.1, c0.2, p);
    IdxCoordinates(c1.0, c1.1, c1.2, p);
    forall i | 0 <= i < p * p * p
      ensures i != PadIdx(a, 0, z, w, n) && i != PadIdx(a, n + 1, z, w, n) ==>
                !(Pad(a, X(i, p), Y(i, p), Z(i, p), n) && PadPassed(a, X(i, p), Y(i, p), Z(i, p), z, w + 1) &&
                  !PadPassed(a, X(i, p), Y(i, p), Z(i, p), z, w))
    {
      CoordinatesIdx(i, p);
    }
  }

  /** After the inner loop the outer one moves on. */
  lemma PadRowDone(m: seq<Option<int>>, before: seq<Option<int>>, n: int, a: int, z: int)
    requires n > 0 && |m| == (n + 2) * (n + 2) * (n + 2) && |before| == |m| && 0 <= a <= 2
    requires PadProgress(m, before, n, a, z, n)
    ensures PadProgress(m, before, n, a, z + 1, 0)
  {
  }

  /** The source's slot and target arithmetic for the y pads, in terms of
      cell indices. */
  lemma YPadArithmetic(n: int, z: int, x: int)
    ensures (z + 1) * (n + 2) * (n + 2) + x == Idx(x, 0, z + 1, n + 2)
    ensures (z + 1) * (n + 2) * (n + 2) + (n + 2) * (n + 2 - 1) + x == Idx(x, n + 1, z + 1, n + 2)
    ensures z * n * n + n + x == Idx(x, 1, z, n)
    ensures z * n * n + n * (n - 1) + x == Idx(x, n - 1, z, n)
    ensures z * n * n + n * (n - 2) + x == Idx(x, n - 2, z, n)
  {
  }

  /** The x-boundary loops' body. */
  method XPadCells(currentPointers: array<Option<int>>, n: int, z: int, y: int)
    requires n >= 2 && currentPointers.Length == (n + 2) * (n + 2) * (n + 2) && 0 <= z < n && 0 <= y < n
    modifies currentPointers
    ensures 0 <= PadIdx(0, 0, z, y, n) < currentPointers.Length
    ensures 0 <= PadIdx(0, n + 1, z, y, n) < currentPointers.Length
    ensures currentPointers[..] ==
            old(currentPointers[..])[PadIdx(0, 0, z, y, n) := Some(PadCellTarget(0, 0, z, y, n))]
                                    [PadIdx(0, n + 1, z, y, n) := Some(PadCellTarget(0, n + 1, z, y, n))]
  {
    var blockSize := n;
    var negative := ((z + 1) * (blockSize + 2) + y + 1) * (blockSize + 2);
    var positive := ((z + 1) * (blockSize + 2) + y + 1) * (blockSize + 2) + blockSize + 1;
    IdxCoordinates(0, y + 1, z + 1, n + 2);
    IdxCoordinates(n + 1, y + 1, z + 1, n + 2);
    assert negative == PadIdx(0, 0, z, y, n) && positive == PadIdx(0, n + 1, z, y, n);
    assert PadCellTarget(0, 0, z, y, n) == (z * blockSize + y) * blockSize + 1;
    assert PadCellTarget(0, n + 1, z, y, n) == (z * blockSize + y) * blockSize + blockSize - 2;
    // negative x boundary, referring to x = 1
    currentPointers[negative] := Some((z * blockSize + y) * blockSize + 1);
    // positive x boundary, referring to x = n-2
    currentPointers[positive] := Some((z * blockSize + y) * blockSize + blockSize - 2);
  }

  /** The y-boundary loops' body as written: the slot index lacks the
      x offset of the padding, and the positive pad refers to row n-1. */
  method YPadCellsAsWritten(currentPointers: array<Option<int>>, n: int, z: int, x: int)
    requires n >= 2 && currentPointers.Length == (n + 2) * (n + 2) * (n + 2) && 0 <= z < n && 0 <= x < n
    modifies currentPointers
    ensures 0 <= PadIdx(1, 0, z, x, n) < currentPointers.Length
    ensures 0 <= PadIdx(1, n + 1, z, x, n) < currentPointers.Length
    ensures currentPointers[..] ==
            old(currentPointers[..])[PadIdx(1, 0, z, x, n) := Some(PadCellTarget(1, 0, z, x, n))]
                                    [PadIdx(1, n + 1, z, x, n) := Some(PadCellTarget(1, n + 1, z, x, n))]
  {
    var blockSize := n;
    YPadArithmetic(n, z, x);
    IdxCoordinates(x, 0, z + 1, n + 2);
    IdxCoordinates(x, n + 1, z + 1, n + 2);
    currentPointers[(z + 1) * (blockSize + 2) * (blockSize + 2) + x] :=
      Some(z * blockSize * blockSize + blockSize + x);
    currentPointers[(z + 1) * (blockSize + 2) * (blockSize + 2) + (blockSize + 2) * (blockSize + 2 - 1) + x] :=
      Some(z * blockSize * blockSize + blockSize * (blockSize - 1) + x);
  }

  /** The y-boundary loops' body as intended: slot (x+1, 0 or n+1, z+1),
      referring to rows 1 and n-2 like the x pads. */
  method YPadCells(currentPointers: array<Option<int>>, n: int, z: int, x: int)
    requires n >= 2 && currentPointers.Length == (n + 2) * (n + 2) * (n + 2) && 0 <= z < n && 0 <= x < n
    modifies currentPointers
    ensures 0 <= PadIdx(2, 0, z, x, n) < currentPointers.Length
    ensures 0 <= PadIdx(2, n + 1, z, x, n) < currentPointers.Length
    ensures currentPointers[..] ==
            old(currentPointers[..])[PadIdx(2, 0, z, x, n) := Some(PadCellTarget(2, 0, z, x, n))]
                                    [PadIdx(2, n + 1, z, x, n) := Some(PadCellTarget(2, n + 1, z, x, n))]
  {
    var blockSize := n;
    YPadArithmetic(n, z, x + 1);
    YPadArithmetic(n, z, x);
    IdxCoordinates(x + 1, 0, z + 1, n + 2);
    IdxCoordinates(x + 1, n + 1, z + 1, n + 2);
    currentPointers[(z + 1) * (blockSize + 2) * (blockSize + 2) + x + 1] :=
      Some(z * blockSize * blockSize + blockSize + x);
    currentPointers[(z + 1) * (blockSize + 2) * (blockSize + 2) + (blockSize + 2) * (blockSize + 2 - 1) + x + 1] :=
      Some(z * blockSize * blockSize + blockSize * (blockSize - 2) + x);
  }

  /** One inner pad loop of pass `a`, for a fixed z. */
  method MapPadRow(a: int, currentPointers: array<Option<int>>, n: int, z: int, ghost before: seq<Option<int>>)
    requires n >= 2 && currentPointers.Length == (n + 2) * (n + 2) * (n + 2) && |before| == currentPointers.Length
    requires 0 <= a <= 2 && 0 <= z < n
    requires PadProgress(currentPointers[..], before, n, a, z, 0)
    modifies currentPointers
    ensures PadProgress(currentPointers[..], before, n, a, z + 1, 0)
  {
    var w := 0;
    while w < n
      invariant 0 <= w <= n
      invariant PadProgress(currentPointers[..], before, n, a, z, w)
    {
      PadStep(currentPointers[..], before, n, a, z, w);
      if a == 0 {
        XPadCells(currentPointers, n, z, w);
      } else if a == 1 {
        YPadCellsAsWritten(currentPointers, n, z, w);
      } else {
        YPadCells(currentPointers, n, z, w);
      }
      w := w + 1;
    }
    PadRowDone(currentPointers[..], before, n, a, z);
  }

  /** The boundary loops of pass `a`: its slots filled, every other slot kept. */
  method MapPads(a: int, currentPointers: array<Option<int>>, n: int)
    requires n >= 2 && currentPointers.Length == (n + 2) * (n + 2) * (n + 2) && 0 <= a <= 2
    modifies currentPointers
    ensures forall i :: 0 <= i < currentPointers.Length ==>
              currentPointers[i] == if Pad(a, X(i, n + 2), Y(i, n + 2), Z(i, n + 2), n)
                                    then Some(PadTarget(a, X(i, n + 2), Y(i, n + 2), Z(i, n + 2), n))
                                    else old(currentPointers[i])
  {
    ghost var before := currentPointers[..];
    var z := 0;
    while z < n
      invariant 0 <= z <= n
      invariant PadProgress(currentPointers[..], before, n, a, z, 0)
    {
      MapPadRow(a, currentPointers, n, z, before);
      z := z + 1;
    }
  }

  /** `test_single_threaded`'s map: the table of NULLs `calloc` returns,
      the middle, the x pads and the y pads; the z pads are not mapped.
      The result is the intended map. */
  method MapPointers(n: int) returns (currentPointers: array<Option<int>>)
    requires n >= 2
    ensures currentPointers[..] == ReferenceMap(n)
  {
    var blockSize := n;
    currentPointers := new Option<int>[(blockSize + 2) * (blockSize + 2) * (blockSize + 2)](_ => None);
    MapMiddle(currentPointers, n);
    MapPads(0, currentPointers, n);
    MapPads(2, currentPointers, n);
    var p := n + 2;
    forall i | 0 <= i < p * p * p
      ensures currentPointers[i] == ReferenceMap(n)[i]
    {
      CoordinatesIdx(i, p);
    }
  }

  /** The y pads as written, applied to a table. */
  method MapYPadsAsWritten(currentPointers: array<Option<int>>, n: int)
    requires n >= 2 && currentPointers.Length == (n + 2) * (n + 2) * (n + 2)
    modifies currentPointers
    ensures forall i :: 0 <= i < currentPointers.Length ==>
              currentPointers[i] == if Pad(1, X(i, n + 2), Y(i, n + 2), Z(i, n + 2), n)
                                    then Some(PadTarget(1, X(i, n + 2), Y(i, n + 2), Z(i, n + 2), n))
                                    else old(currentPointers[i])
  {
    MapPads(1, currentPointers, n);
  }

  // ---------------------------------------------------------------------
  // Properties of the map.

  /** Every pointer of the map points inside the block. */
  lemma MapInBounds(n: int, i: int)
    requires n >= 2 && 0 <= i < (n + 2) * (n + 2) * (n + 2)
    ensures ReferenceMap(n)[i].Some? ==> 0 <= ReferenceMap(n)[i].value < n * n * n
  {
    var p := n + 2;
    CoordinatesIdx(i, p);
    var px, py, pz := X(i, p), Y(i, p), Z(i, p);
    if Reference(n, px, py, pz).Some? {
      IdxCoordinates(Reflect(px - 1, n), Reflect(py - 1, n), pz - 1, n);
    }
  }

  /** The middle of the map is a bijection: padded (x+1, y+1, z+1) points at
      (x, y, z), so distinct block slots point at distinct cells and every
      cell has its slot. */
  lemma MiddleMapsEachCell(n: int, x: int, y: int, z: int, x2: int, y2: int, z2: int)
    requires n >= 2 && InBlock(x, y, z, n) && InBlock(x2, y2, z2, n)
    ensures 0 <= Idx(x + 1, y + 1, z + 1, n + 2) < (n + 2) * (n + 2) * (n + 2)
    ensures ReferenceMap(n)[Idx(x + 1, y + 1, z + 1, n + 2)] == Some(Idx(x, y, z, n))
    ensures (x, y, z) != (x2, y2, z2) ==> Idx(x, y, z, n) != Idx(x2, y2, z2, n)
  {
    IdxCoordinates(x + 1, y + 1, z + 1, n + 2);
    IdxCoordinates(x, y, z, n);
    IdxCoordinates(x2, y2, z2, n);
  }

  /** Each x or y pad points where the slot mirroring it across the boundary
      cell points: x = -1 reads like x = 1 and x = n like x = n-2, and the
      same along y. */
  lemma PadsMirror(n: int, a: int, b: int, pz: int)
    requires n >= 2 && InRange(a, n) && InRange(pz, n)
    ensures Reference(n, 0, a, pz) == Reference(n, 2, a, pz)
    ensures Reference(n, n + 1, a, pz) == Reference(n, n - 1, a, pz)
    ensures Reference(n, a, 0, pz) == Reference(n, a, 2, pz)
    ensures Reference(n, a, n + 1, pz) == Reference(n, a, n - 1, pz)
  {
  }

  /** The z pads are never mapped: those slots stay NULL. */
  lemma ZPadsNull(n: int, px: int, py: int)
    ensures Reference(n, px, py, 0) == None && Reference(n, px, py, n + 1) == None
  {
  }

  /** As written, the y pads sit one column to the left: the corner slot
      (0, 0, 1) gets a pointer, and the pad (n, 0, 1) below the block's last
      column stays NULL. */
  lemma AsWrittenYPadsShifted(n: int)
    requires n >= 2
    ensures Pad(1, 0, 0, 1, n) && Reference(n, 0, 0, 1) == None
    ensures !Pad(1, n, 0, 1, n) && Reference(n, n, 0, 1).Some?
  {
  }

  /** As written, a positive y pad points at row n-1, the row beside it,
      where every other pad points at the row mirroring it, n-2. */
  lemma AsWrittenPositiveYPadRow(n: int, px: int, pz: int)
    requires n >= 2 && 0 <= px < n && InRange(pz, n)
    ensures Pad(1, px, n + 1, pz, n)
    ensures Y(PadTarget(1, px, n + 1, pz, n), n) == n - 1
    ensures Y(Reference(n, px + 1, n + 1, pz).value, n) == n - 2
    ensures PadTarget(1, px, n + 1, pz, n) != Reference(n, px + 1, n + 1, pz).value
  {
    IdxCoordinates(px, n - 1, pz - 1, n);
    IdxCoordinates(px, n - 2, pz - 1, n);
  }
}
