// One block of the 3-D Jacobi solver for Poisson's equation (block.c):
// `process_block` updates the cells of an n*n*n block from their six
// neighbours and the source term, taking the values beyond the block's
// faces from the neighbouring blocks' faces, then copies the new values
// over the old ones, once per iteration.
module StencilBlock {
  import opened CInt

  /** The flat index of cell (x, y, z) in an n*n*n block, x fastest. */
  function Idx(x: int, y: int, z: int, n: int): int
  {
    (z * n + y) * n + x
  }

  /** Index of (a, b) in an n*n face, b fastest. */
  function FaceIdx(a: int, b: int, n: int): int
  {
    a * n + b
  }

  /** The coordinates of a flat index. */
  function X(i: int, n: int): int requires n > 0 { i % n }
  function Y(i: int, n: int): int requires n > 0 { (i / n) % n }
  function Z(i: int, n: int): int requires n > 0 { i / n / n }

  lemma MulBelow(a: int, b: int, n: int, m: int)
    requires 0 <= a < m && 0 <= b < n
    ensures 0 <= a * n + b < m * n
  {
    assert a * n <= (m - 1) * n;
  }

  lemma DivModOf(a: int, b: int, n: int)
    requires n > 0 && 0 <= b < n
    ensures (a * n + b) / n == a && (a * n + b) % n == b
  {
    var q, r := (a * n + b) / n, (a * n + b) % n;
    assert q * n + r == a * n + b;
    assert (q - a) * n == b - r;
    MulCancel(q - a, 1, n);
    MulCancel(-1, q - a, n);
  }

  /** Cell indices lie in the block, and the coordinates read back. */
  lemma IdxCoordinates(x: int, y: int, z: int, n: int)
    requires 0 <= x < n && 0 <= y < n && 0 <= z < n
    ensures 0 <= Idx(x, y, z, n) < n * n * n
    ensures X(Idx(x, y, z, n), n) == x && Y(Idx(x, y, z, n), n) == y && Z(Idx(x, y, z, n), n) == z
  {
    MulBelow(z, y, n, n);
    MulBelow(z * n + y, x, n, n * n);
    DivModOf(z * n + y, x, n);
    DivModOf(z, y, n);
  }

  /** Splitting an index below m * n into a quotient below m and a remainder. */
  lemma DivModBelow(i: int, n: int, m: int)
    requires n > 0 && 0 <= i < m * n
    ensures 0 <= i / n < m && 0 <= i % n < n && i == (i / n) * n + i % n
  {
    var q := i / n;
    assert q * n <= i;
    MulCancel(q, m, n);
  }

  /** Every index of the block is the index of its coordinates. */
  lemma CoordinatesIdx(i: int, n: int)
    requires n > 0 && 0 <= i < n * n * n
    ensures 0 <= X(i, n) < n && 0 <= Y(i, n) < n && 0 <= Z(i, n) < n
    ensures Idx(X(i, n), Y(i, n), Z(i, n), n) == i
  {
    DivModBelow(i, n, n * n);
    var q := i / n;
    DivModBelow(q, n, n);
    assert Idx(X(i, n), Y(i, n), Z(i, n), n) == (q / n * n + q % n) * n + i % n;
  }

  /** Moving one cell along an axis moves the index by 1, n or n*n. */
  lemma IdxShifts(x: int, y: int, z: int, n: int)
    ensures Idx(x + 1, y, z, n) == Idx(x, y, z, n) + 1
    ensures Idx(x - 1, y, z, n) == Idx(x, y, z, n) - 1
    ensures Idx(x, y + 1, z, n) == Idx(x, y, z, n) + n
    ensures Idx(x, y - 1, z, n) == Idx(x, y, z, n) - n
    ensures Idx(x, y, z + 1, n) == Idx(x, y, z, n) + n * n
    ensures Idx(x, y, z - 1, n) == Idx(x, y, z, n) - n * n
  {
  }

  /** The flat index written out as a sum, in the orders the loops use. */
  lemma IdxExpanded(x: int, y: int, z: int, n: int)
    ensures Idx(x, y, z, n) == z * n * n + y * n + x
    ensures z * n * n == n * n * z
  {
  }

  /** The coefficient of the update as the source intends it. */
  const COEFFICIENT: real := 1.0 / 6.0

  /** The coefficient as written: `1 / 6` is integer division. */
  const AS_WRITTEN_COEFFICIENT: real := (1 / 6) as real

  /** The values just beyond each face of the block, read through the
      `block_faces_t` pointers; each face is n*n values. */
  datatype Faces = Faces(posX: seq<real>, negX: seq<real>, posY: seq<real>, negY: seq<real>,
                         posZ: seq<real>, negZ: seq<real>)

  predicate FacesFit(f: Faces, n: int)
  {
    |f.posX| == n * n && |f.negX| == n * n && |f.posY| == n * n && |f.negY| == n * n &&
    |f.posZ| == n * n && |f.negZ| == n * n
  }

  predicate InBlock(x: int, y: int, z: int, n: int)
  {
    0 <= x < n && 0 <= y < n && 0 <= z < n
  }

  /** A coordinate strictly inside the block, as the loops `1 .. n-2` visit. */
  predicate Inner(c: int, n: int)
  {
    1 <= c < n - 1
  }

  predicate Interior(x: int, y: int, z: int, n: int)
  {
    Inner(x, n) && Inner(y, n) && Inner(z, n)
  }

  /** The cells of the x faces the x loops update: x at 0 or n-1, y and z inner. */
  predicate XFace(x: int, y: int, z: int, n: int)
  {
    (x == 0 || x == n - 1) && Inner(y, n) && Inner(z, n)
  }

  predicate YFace(x: int, y: int, z: int, n: int)
  {
    (y == 0 || y == n - 1) && Inner(x, n) && Inner(z, n)
  }

  predicate ZFace(x: int, y: int, z: int, n: int)
  {
    (z == 0 || z == n - 1) && Inner(x, n) && Inner(y, n)
  }

  /** The cells one iteration updates; edges and corners are left out. */
  predicate Written(x: int, y: int, z: int, n: int)
  {
    Interior(x, y, z, n) || XFace(x, y, z, n) || YFace(x, y, z, n) || ZFace(x, y, z, n)
  }

  /** The sum of a written cell's six neighbours: inside the block from
      `current`, beyond a face from that face. */
  function NeighbourSum(cur: seq<real>, f: Faces, n: int, x: int, y: int, z: int): real
    requires n > 0 && |cur| == n * n * n && FacesFit(f, n)
    requires InBlock(x, y, z, n) && Written(x, y, z, n)
  {
    NeighboursInBlock(x, y, z, n);
    (if x == n - 1 then f.posX[FaceIdx(z, y, n)] else cur[Idx(x + 1, y, z, n)]) +
    (if x == 0 then f.negX[FaceIdx(z, y, n)] else cur[Idx(x - 1, y, z, n)]) +
    (if y == n - 1 then f.posY[FaceIdx(z, x, n)] else cur[Idx(x, y + 1, z, n)]) +
    (if y == 0 then f.negY[FaceIdx(z, x, n)] else cur[Idx(x, y - 1, z, n)]) +
    (if z == n - 1 then f.posZ[FaceIdx(y, x, n)] else cur[Idx(x, y, z + 1, n)]) +
    (if z == 0 then f.negZ[FaceIdx(y, x, n)] else cur[Idx(x, y, z - 1, n)])
  }

  /** Every neighbour a written cell reads from `current` lies in the
      block, and every face value it reads lies in the face. */
  lemma NeighboursInBlock(x: int, y: int, z: int, n: int)
    requires InBlock(x, y, z, n) && Written(x, y, z, n)
    ensures x < n - 1 ==> 0 <= Idx(x + 1, y, z, n) < n * n * n
    ensures x > 0 ==> 0 <= Idx(x - 1, y, z, n) < n * n * n
    ensures y < n - 1 ==> 0 <= Idx(x, y + 1, z, n) < n * n * n
    ensures y > 0 ==> 0 <= Idx(x, y - 1, z, n) < n * n * n
    ensures z < n - 1 ==> 0 <= Idx(x, y, z + 1, n) < n * n * n
    ensures z > 0 ==> 0 <= Idx(x, y, z - 1, n) < n * n * n
    ensures 0 <= FaceIdx(z, y, n) < n * n && 0 <= FaceIdx(z, x, n) < n * n && 0 <= FaceIdx(y, x, n) < n * n
  {
    if x < n - 1 { IdxCoordinates(x + 1, y, z, n); }
    if x > 0 { IdxCoordinates(x - 1, y, z, n); }
    if y < n - 1 { IdxCoordinates(x, y + 1, z, n); }
    if y > 0 { IdxCoordinates(x, y - 1, z, n); }
    if z < n - 1 { IdxCoordinates(x, y, z + 1, n); }
    if z > 0 { IdxCoordinates(x, y, z - 1, n); }
    MulBelow(z, y, n, n);
    MulBelow(z, x, n, n);
    MulBelow(y, x, n, n);
  }

  /** The new value of a written cell: the coefficient times the sum of the
      six neighbours less the source term. */
  function Update(cur: seq<real>, src: seq<real>, f: Faces, n: int, coefficient: real,
                  x: int, y: int, z: int): real
    requires n > 0 && |cur| == n * n * n && |src| == n * n * n && FacesFit(f, n)
    requires InBlock(x, y, z, n) && Written(x, y, z, n)
  {
    IdxCoordinates(x, y, z, n);
    coefficient * (NeighbourSum(cur, f, n, x, y, z) - src[Idx(x, y, z, n)])
  }

  /** `next` after one iteration's loops: written cells updated from
      `current`, every other cell as it was. */
  function Sweep(cur: seq<real>, nxt: seq<real>, src: seq<real>, f: Faces, n: int, coefficient: real): (r: seq<real>)
    requires n > 0 && |cur| == n * n * n && |nxt| == n * n * n && |src| == n * n * n && FacesFit(f, n)
    ensures |r| == n * n * n
  {
    seq(n * n * n, i requires 0 <= i < n * n * n =>
      CoordinatesIdx(i, n);
      if Written(X(i, n), Y(i, n), Z(i, n), n) then Update(cur, src, f, n, coefficient, X(i, n), Y(i, n), Z(i, n))
      else nxt[i])
  }

  /** `current` and `next` after `k` iterations; each iteration ends by
      copying `next` over `current`. */
  function Iterate(cur: seq<real>, nxt: seq<real>, src: seq<real>, f: Faces, n: int, coefficient: real, k: nat):
    (r: (seq<real>, seq<real>))
    requires n > 0 && |cur| == n * n * n && |nxt| == n * n * n && |src| == n * n * n && FacesFit(f, n)
    ensures |r.0| == n * n * n && |r.1| == n * n * n
    ensures k > 0 ==> r.0 == r.1
  {
    if k == 0 then (cur, nxt)
    else
      var p := Iterate(cur, nxt, src, f, n, coefficient, k - 1);
      var s := Sweep(p.0, p.1, src, f, n, coefficient);
      (s, s)
  }

  /** The arrays `process_block` works on: n*n*n values each, `__restrict__`
      so none aliases another. */
  predicate Arrays(source: array<real>, current: array<real>, next: array<real>, faces: Faces, n: int)
    reads {}
  {
    n > 0 && source.Length == n * n * n && current.Length == n * n * n && next.Length == n * n * n &&
    FacesFit(faces, n) && next != current && next != source
  }

  /** The cell a face loop reaches: coordinate `v` on axis `a` (0 for x,
      1 for y, 2 for z), `o` from the outer loop and `w` from the inner one.
      The x faces loop over (z, y), the y faces over (z, x), the z faces
      over (y, x). */
  function Cell(a: int, v: int, o: int, w: int): (int, int, int)
  {
    if a == 0 then (v, w, o) else if a == 1 then (w, v, o) else (w, o, v)
  }

  predicate OnFace(a: int, x: int, y: int, z: int, n: int)
  {
    if a == 0 then XFace(x, y, z, n) else if a == 1 then YFace(x, y, z, n) else ZFace(x, y, z, n)
  }

  /** Whether the face loops over axis `a` have passed (x, y, z) once they
      reach (o, w). */
  predicate Passed(a: int, x: int, y: int, z: int, o: int, w: int)
  {
    var outer := if a == 2 then y else z;
    var inner := if a == 0 then y else x;
    outer < o || (outer == o && inner < w)
  }

  /** `next` holds the update in the cells of face pair `a` the loops have
      passed and its old value everywhere else. */
  predicate FaceProgress(next: seq<real>, before: seq<real>, cur: seq<real>, src: seq<real>, f: Faces, n: int,
                         a: int, o: int, w: int)
    requires n > 0 && |cur| == n * n * n && |src| == n * n * n && FacesFit(f, n)
    requires |next| == n * n * n && |before| == n * n * n
  {
    forall i :: 0 <= i < n * n * n ==>
      next[i] == if OnFace(a, X(i, n), Y(i, n), Z(i, n), n) && Passed(a, X(i, n), Y(i, n), Z(i, n), o, w)
                 then (CoordinatesIdx(i, n); Update(cur, src, f, n, COEFFICIENT, X(i, n), Y(i, n), Z(i, n)))
                 else before[i]
  }

  /** The flat index of a cell a face loop reaches. */
  function CellIdx(a: int, v: int, o: int, w: int, n: int): int
  {
    var c := Cell(a, v, o, w);
    Idx(c.0, c.1, c.2, n)
  }

  /** The update of a cell a face loop reaches. */
  function CellUpdate(cur: seq<real>, src: seq<real>, f: Faces, n: int, a: int, v: int, o: int, w: int): real
    requires n > 0 && |cur| == n * n * n && |src| == n * n * n && FacesFit(f, n)
    requires 0 <= a <= 2 && (v == 0 || v == n - 1) && Inner(o, n) && Inner(w, n)
  {
    var c := Cell(a, v, o, w);
    Update(cur, src, f, n, COEFFICIENT, c.0, c.1, c.2)
  }

  /** Writing the two cells of face pair `a` at (o, w) advances the loops
      by one step. */
  lemma FaceStep(p: seq<real>, before: seq<real>, cur: seq<real>, src: seq<real>, f: Faces, n: int,
                 a: int, o: int, w: int)
    requires n > 0 && |cur| == n * n * n && |src| == n * n * n && FacesFit(f, n)
    requires |p| == n * n * n && |before| == n * n * n && 0 <= a <= 2 && Inner(o, n) && Inner(w, n)
    requires FaceProgress(p, before, cur, src, f, n, a, o, w)
    ensures 0 <= CellIdx(a, n - 1, o, w, n) < n * n * n && 0 <= CellIdx(a, 0, o, w, n) < n * n * n
    ensures FaceProgress(p[CellIdx(a, n - 1, o, w, n) := CellUpdate(cur, src, f, n, a, n - 1, o, w)]
                          [CellIdx(a, 0, o, w, n) := CellUpdate(cur, src, f, n, a, 0, o, w)],
                         before, cur, src, f, n, a, o, w + 1)
  {
    var c1, c0 := Cell(a, n - 1, o, w), Cell(a, 0, o, w);
    IdxCoordinates(c1.0, c1.1, c1.2, n);
    IdxCoordinates(c0.0, c0.1, c0.2, n);
    forall i | 0 <= i < n * n * n
      ensures i != CellIdx(a, n - 1, o, w, n) && i != CellIdx(a, 0, o, w, n) ==>
                !(OnFace(a, X(i, n), Y(i, n), Z(i, n), n) && Passed(a, X(i, n), Y(i, n), Z(i, n), o, w + 1) &&
                  !Passed(a, X(i, n), Y(i, n), Z(i, n), o, w))
    {
      CoordinatesIdx(i, n);
    }
  }

  /** After the inner loop the outer one moves on. */
  lemma FaceRowDone(next: seq<real>, before: seq<real>, cur: seq<real>, src: seq<real>, f: Faces, n: int,
                    a: int, o: int)
    requires n > 0 && |cur| == n * n * n && |src| == n * n * n && FacesFit(f, n)
    requires |next| == n * n * n && |before| == n * n * n && 0 <= a <= 2 && n >= 2
    requires FaceProgress(next, before, cur, src, f, n, a, o, n - 1)
    ensures FaceProgress(next, before, cur, src, f, n, a, o + 1, 0)
  {
  }

  /** The x-boundary loops' body: the cells (n-1, y, z) and (0, y, z). */
  method XFaceCells(source: array<real>, current: array<real>, next: array<real>, faces: Faces, n: int,
                    z: int, y: int)
    requires Arrays(source, current, next, faces, n) && Inner(y, n) && Inner(z, n)
    modifies next
    ensures 0 <= CellIdx(0, n - 1, z, y, n) < n * n * n && 0 <= CellIdx(0, 0, z, y, n) < n * n * n
    ensures next[..] == old(next[..])[CellIdx(0, n - 1, z, y, n) := CellUpdate(current[..], source[..], faces, n, 0, n - 1, z, y)]
                                     [CellIdx(0, 0, z, y, n) := CellUpdate(current[..], source[..], faces, n, 0, 0, z, y)]
  {
    ghost var cur, src := current[..], source[..];
    var blockSizeMinus1 := n - 1;
    var blockSizeSquared := n * n;
    var zOffset := z * n;
    var negative := (zOffset + y) * n;
    var positive := negative + blockSizeMinus1;
    XFaceCell(cur, src, faces, n, n - 1, y, z);
    XFaceCell(cur, src, faces, n, 0, y, z);
    assert positive == CellIdx(0, n - 1, z, y, n) && negative == CellIdx(0, 0, z, y, n);
    var top := COEFFICIENT * (
      faces.posX[zOffset + y] +
      current[positive - 1] +
      current[positive + n] +
      current[positive - n] +
      current[positive + blockSizeSquared] +
      current[positive - blockSizeSquared] -
      source[positive]);
    var bottom := COEFFICIENT * (
      current[negative + 1] +
      faces.negX[zOffset + y] +
      current[negative + n] +
      current[negative - n] +
      current[negative + blockSizeSquared] +
      current[negative - blockSizeSquared] -
      source[negative]);
    assert top == CellUpdate(cur, src, faces, n, 0, n - 1, z, y);
    assert bottom == CellUpdate(cur, src, faces, n, 0, 0, z, y);
    next[positive] := top;
    next[negative] := bottom;
    assert current[..] == cur && source[..] == src;
  }

  /** The indices an x-face cell's update reads, as the loop computes them. */
  lemma XFaceCell(cur: seq<real>, src: seq<real>, f: Faces, n: int, x: int, y: int, z: int)
    requires n > 0 && |cur| == n * n * n && |src| == n * n * n && FacesFit(f, n)
    requires (x == 0 || x == n - 1) && Inner(y, n) && Inner(z, n)
    ensures var c := Idx(x, y, z, n);
            0 <= c < n * n * n && 0 <= c - n * n && c + n * n < n * n * n && 0 <= c - n && c + n < n * n * n &&
            0 <= z * n + y < n * n &&
            (x == 0 ==> c + 1 < n * n * n) && (x == n - 1 ==> 0 <= c - 1) &&
            Update(cur, src, f, n, COEFFICIENT, x, y, z) ==
              COEFFICIENT * ((if x == n - 1 then f.posX[z * n + y] else cur[c + 1]) +
                             (if x == 0 then f.negX[z * n + y] else cur[c - 1]) +
                             cur[c + n] + cur[c - n] + cur[c + n * n] + cur[c - n * n] - src[c])
  {
    IdxCoordinates(x, y, z, n);
    NeighboursInBlock(x, y, z, n);
    IdxShifts(x, y, z, n);
  }

  /** The y-boundary loops' body: the cells (x, n-1, z) and (x, 0, z). */
  method YFaceCells(source: array<real>, current: array<real>, next: array<real>, faces: Faces, n: int,
                    z: int, x: int)
    requires Arrays(source, current, next, faces, n) && Inner(x, n) && Inner(z, n)
    modifies next
    ensures 0 <= CellIdx(1, n - 1, z, x, n) < n * n * n && 0 <= CellIdx(1, 0, z, x, n) < n * n * n
    ensures next[..] == old(next[..])[CellIdx(1, n - 1, z, x, n) := CellUpdate(current[..], source[..], faces, n, 1, n - 1, z, x)]
                                     [CellIdx(1, 0, z, x, n) := CellUpdate(current[..], source[..], faces, n, 1, 0, z, x)]
  {
    ghost var cur, src := current[..], source[..];
    var blockSizeMinus1 := n - 1;
    var blockSizeSquared := n * n;
    var zOffset := z * n;
    var negative := zOffset * n + x;
    var positive := negative + blockSizeMinus1 * n;
    YFaceCell(cur, src, faces, n, x, n - 1, z);
    YFaceCell(cur, src, faces, n, x, 0, z);
    assert positive == CellIdx(1, n - 1, z, x, n) && negative == CellIdx(1, 0, z, x, n);
    var top := COEFFICIENT * (
      current[positive + 1] +
      current[positive - 1] +
      faces.posY[zOffset + x] +
      current[positive - n] +
      current[positive + blockSizeSquared] +
      current[positive - blockSizeSquared] -
      source[positive]);
    var bottom := COEFFICIENT * (
      current[negative + 1] +
      current[negative - 1] +
      current[negative + n] +
      faces.negY[zOffset + x] +
      current[negative + blockSizeSquared] +
      current[negative - blockSizeSquared] -
      source[negative]);
    assert top == CellUpdate(cur, src, faces, n, 1, n - 1, z, x);
    assert bottom == CellUpdate(cur, src, faces, n, 1, 0, z, x);
    next[positive] := top;
    next[negative] := bottom;
    assert current[..] == cur && source[..] == src;
  }

  /** The indices a y-face cell's update reads, as the loop computes them. */
  lemma YFaceCell(cur: seq<real>, src: seq<real>, f: Faces, n: int, x: int, y: int, z: int)
    requires n > 0 && |cur| == n * n * n && |src| == n * n * n && FacesFit(f, n)
    requires (y == 0 || y == n - 1) && Inner(x, n) && Inner(z, n)
    ensures var c := Idx(x, y, z, n);
            c == z * n * n + x + y * n &&
            0 <= c < n * n * n && 0 <= c - n * n && c + n * n < n * n * n && 0 <= c - 1 && c + 1 < n * n * n &&
            0 <= z * n + x < n * n &&
            (y == 0 ==> c + n < n * n * n) && (y == n - 1 ==> 0 <= c - n) &&
            Update(cur, src, f, n, COEFFICIENT, x, y, z) ==
              COEFFICIENT * (cur[c + 1] + cur[c - 1] +
                             (if y == n - 1 then f.posY[z * n + x] else cur[c + n]) +
                             (if y == 0 then f.negY[z * n + x] else cur[c - n]) +
                             cur[c + n * n] + cur[c - n * n] - src[c])
  {
    IdxCoordinates(x, y, z, n);
    NeighboursInBlock(x, y, z, n);
    IdxShifts(x, y, z, n);
  }

  /** The z-boundary loops' body: the cells (x, y, n-1) and (x, y, 0). */
  method ZFaceCells(source: array<real>, current: array<real>, next: array<real>, faces: Faces, n: int,
                    y: int, x: int)
    requires Arrays(source, current, next, faces, n) && Inner(x, n) && Inner(y, n)
    modifies next
    ensures 0 <= CellIdx(2, n - 1, y, x, n) < n * n * n && 0 <= CellIdx(2, 0, y, x, n) < n * n * n
    ensures next[..] == old(next[..])[CellIdx(2, n - 1, y, x, n) := CellUpdate(current[..], source[..], faces, n, 2, n - 1, y, x)]
                                     [CellIdx(2, 0, y, x, n) := CellUpdate(current[..], source[..], faces, n, 2, 0, y, x)]
  {
    ghost var cur, src := current[..], source[..];
    var blockSizeMinus1 := n - 1;
    var blockSizeSquared := n * n;
    var yOffset := y * n;
    var negative := yOffset + x;
    var positive := negative + n * n * blockSizeMinus1;
    ZFaceCell(cur, src, faces, n, x, y, n - 1);
    ZFaceCell(cur, src, faces, n, x, y, 0);
    assert positive == CellIdx(2, n - 1, y, x, n) && negative == CellIdx(2, 0, y, x, n);
    var top := COEFFICIENT * (
      current[positive + 1] +
      current[positive - 1] +
      current[positive + n] +
      current[positive - n] +
      faces.posZ[yOffset + x] +
      current[positive - blockSizeSquared] -
      source[positive]);
    var bottom := COEFFICIENT * (
      current[negative + 1] +
      current[negative - 1] +
      current[negative + n] +
      current[negative - n] +
      current[negative + blockSizeSquared] +
      faces.negZ[yOffset + x] -
      source[negative]);
    assert top == CellUpdate(cur, src, faces, n, 2, n - 1, y, x);
    assert bottom == CellUpdate(cur, src, faces, n, 2, 0, y, x);
    next[positive] := top;
    next[negative] := bottom;
    assert current[..] == cur && source[..] == src;
  }

  /** The indices a z-face cell's update reads, as the loop computes them. */
  lemma ZFaceCell(cur: seq<real>, src: seq<real>, f: Faces, n: int, x: int, y: int, z: int)
    requires n > 0 && |cur| == n * n * n && |src| == n * n * n && FacesFit(f, n)
    requires (z == 0 || z == n - 1) && Inner(x, n) && Inner(y, n)
    ensures var c := Idx(x, y, z, n);
            c == y * n + x + n * n * z &&
            0 <= c < n * n * n && 0 <= c - n && c + n < n * n * n && 0 <= c - 1 && c + 1 < n * n * n &&
            0 <= y * n + x < n * n &&
            (z == 0 ==> c + n * n < n * n * n) && (z == n - 1 ==> 0 <= c - n * n) &&
            Update(cur, src, f, n, COEFFICIENT, x, y, z) ==
              COEFFICIENT * (cur[c + 1] + cur[c - 1] + cur[c + n] + cur[c - n] +
                             (if z == n - 1 then f.posZ[y * n + x] else cur[c + n * n]) +
                             (if z == 0 then f.negZ[y * n + x] else cur[c - n * n]) - src[c])
  {
    IdxCoordinates(x, y, z, n);
    NeighboursInBlock(x, y, z, n);
    IdxShifts(x, y, z, n);
    IdxExpanded(x, y, z, n);
  }

  /** One pass of a face pair's inner loop, for a fixed outer coordinate. */
  method FaceRow(a: int, source: array<real>, current: array<real>, next: array<real>, faces: Faces, n: int,
                 o: int, ghost before: seq<real>)
    requires Arrays(source, current, next, faces, n) && 0 <= a <= 2 && Inner(o, n) && |before| == n * n * n
    requires FaceProgress(next[..], before, current[..], source[..], faces, n, a, o, 0)
    modifies next
    ensures FaceProgress(next[..], before, current[..], source[..], faces, n, a, o + 1, 0)
  {
    ghost var cur, src := current[..], source[..];
    var blockSizeMinus1 := n - 1;
    var w := 1;
    while w < blockSizeMinus1
      invariant 1 <= w <= blockSizeMinus1
      invariant FaceProgress(next[..], before, cur, src, faces, n, a, o, w)
    {
      ghost var p := next[..];
      if a == 0 {
        XFaceCells(source, current, next, faces, n, o, w);
      } else if a == 1 {
        YFaceCells(source, current, next, faces, n, o, w);
      } else {
        ZFaceCells(source, current, next, faces, n, o, w);
      }
      FaceStep(p, before, cur, src, faces, n, a, o, w);
      w := w + 1;
    }
    FaceRowDone(next[..], before, cur, src, faces, n, a, o);
  }

  /** The boundary loops of one face pair: its cells updated, every other
      cell of `next` kept. */
  method FacePass(a: int, source: array<real>, current: array<real>, next: array<real>, faces: Faces, n: int)
    requires Arrays(source, current, next, faces, n) && 0 <= a <= 2
    modifies next
    ensures forall i :: 0 <= i < n * n * n ==>
              next[i] == if OnFace(a, X(i, n), Y(i, n), Z(i, n), n)
                         then (CoordinatesIdx(i, n);
                               Update(current[..], source[..], faces, n, COEFFICIENT, X(i, n), Y(i, n), Z(i, n)))
                         else old(next[i])
  {
    ghost var before := next[..];
    var blockSizeMinus1 := n - 1;
    var o := 1;
    while o < blockSizeMinus1
      invariant 1 <= o && (o <= blockSizeMinus1 || n <= 2)
      invariant FaceProgress(next[..], before, current[..], source[..], faces, n, a, o, 0)
    {
      FaceRow(a, source, current, next, faces, n, o, before);
      o := o + 1;
    }
  }

  /** Whether the interior loops, at (x, y, z) in the order z, y, x, have
      passed cell (cx, cy, cz). */
  predicate InteriorPassed(cx: int, cy: int, cz: int, x: int, y: int, z: int)
  {
    cz < z || (cz == z && (cy < y || (cy == y && cx < x)))
  }

  /** `next` holds the update in the interior cells the loops have passed
      and its old value everywhere else. */
  predicate InteriorProgress(next: seq<real>, before: seq<real>, cur: seq<real>, src: seq<real>, f: Faces, n: int,
                             x: int, y: int, z: int)
    requires n > 0 && |cur| == n * n * n && |src| == n * n * n && FacesFit(f, n)
    requires |next| == n * n * n && |before| == n * n * n
  {
    forall i :: 0 <= i < n * n * n ==>
      next[i] == if Interior(X(i, n), Y(i, n), Z(i, n), n) && InteriorPassed(X(i, n), Y(i, n), Z(i, n), x, y, z)
                 then (CoordinatesIdx(i, n); Update(cur, src, f, n, COEFFICIENT, X(i, n), Y(i, n), Z(i, n)))
                 else before[i]
  }

  /** Writing interior cell (x, y, z) advances the loops by one cell. */
  lemma InteriorStep(p: seq<real>, before: seq<real>, cur: seq<real>, src: seq<real>, f: Faces, n: int,
                     x: int, y: int, z: int)
    requires n > 0 && |cur| == n * n * n && |src| == n * n * n && FacesFit(f, n)
    requires |p| == n * n * n && |before| == n * n * n && Interior(x, y, z, n)
    requires InteriorProgress(p, before, cur, src, f, n, x, y, z)
    ensures 0 <= Idx(x, y, z, n) < n * n * n
    ensures InteriorProgress(p[Idx(x, y, z, n) := Update(cur, src, f, n, COEFFICIENT, x, y, z)],
                             before, cur, src, f, n, x + 1, y, z)
  {
    IdxCoordinates(x, y, z, n);
    forall i | 0 <= i < n * n * n
      ensures i != Idx(x, y, z, n) ==>
                !(InteriorPassed(X(i, n), Y(i, n), Z(i, n), x + 1, y, z) &&
                  !InteriorPassed(X(i, n), Y(i, n), Z(i, n), x, y, z))
    {
      CoordinatesIdx(i, n);
    }
  }

  /** The interior loops' body: cell (x, y, z) from its six neighbours in
      the block. */
  method InteriorCell(source: array<real>, current: array<real>, next: array<real>, faces: Faces, n: int,
                      zAndYOffset: int, x: int, y: int, z: int)
    requires Arrays(source, current, next, faces, n) && Interior(x, y, z, n) && zAndYOffset == (z * n + y) * n
    modifies next
    ensures 0 <= Idx(x, y, z, n) < n * n * n
    ensures next[..] == old(next[..])[Idx(x, y, z, n) := Update(current[..], source[..], faces, n, COEFFICIENT, x, y, z)]
  {
    var blockSizeSquared := n * n;
    var centralNodeIndex := zAndYOffset + x;
    IdxCoordinates(x, y, z, n);
    NeighboursInBlock(x, y, z, n);
    IdxShifts(x, y, z, n);
    next[centralNodeIndex] := COEFFICIENT * (
      current[centralNodeIndex + 1] +
      current[centralNodeIndex - 1] +
      current[centralNodeIndex + n] +
      current[centralNodeIndex - n] +
      current[centralNodeIndex + blockSizeSquared] +
      current[centralNodeIndex - blockSizeSquared] -
      source[centralNodeIndex]);
  }

  /** The innermost interior loop, over x, for one (y, z). */
  method InteriorRow(source: array<real>, current: array<real>, next: array<real>, faces: Faces, n: int,
                     y: int, z: int, ghost before: seq<real>)
    requires Arrays(source, current, next, faces, n) && Inner(y, n) && Inner(z, n) && |before| == n * n * n
    requires InteriorProgress(next[..], before, current[..], source[..], faces, n, 0, y, z)
    modifies next
    ensures InteriorProgress(next[..], before, current[..], source[..], faces, n, 0, y + 1, z)
  {
    ghost var cur, src := current[..], source[..];
    var blockSizeMinus1 := n - 1;
    var zAndYOffset := (z * n + y) * n;
    var x := 1;
    while x < blockSizeMinus1
      invariant 1 <= x <= blockSizeMinus1
      invariant InteriorProgress(next[..], before, cur, src, faces, n, x, y, z)
    {
      ghost var p := next[..];
      InteriorCell(source, current, next, faces, n, zAndYOffset, x, y, z);
      InteriorStep(p, before, cur, src, faces, n, x, y, z);
      x := x + 1;
    }
  }

  /** The middle interior loop, over y, for one z. */
  method InteriorPlane(source: array<real>, current: array<real>, next: array<real>, faces: Faces, n: int,
                       z: int, ghost before: seq<real>)
    requires Arrays(source, current, next, faces, n) && Inner(z, n) && |before| == n * n * n
    requires InteriorProgress(next[..], before, current[..], source[..], faces, n, 0, 0, z)
    modifies next
    ensures InteriorProgress(next[..], before, current[..], source[..], faces, n, 0, 0, z + 1)
  {
    var blockSizeMinus1 := n - 1;
    var y := 1;
    while y < blockSizeMinus1
      invariant 1 <= y <= blockSizeMinus1
      invariant InteriorProgress(next[..], before, current[..], source[..], faces, n, 0, y, z)
    {
      InteriorRow(source, current, next, faces, n, y, z, before);
      y := y + 1;
    }
  }

  /** The interior loops: every interior cell updated, every other cell
      of `next` kept. */
  method InteriorPass(source: array<real>, current: array<real>, next: array<real>, faces: Faces, n: int)
    requires Arrays(source, current, next, faces, n)
    modifies next
    ensures forall i :: 0 <= i < n * n * n ==>
              next[i] == if Interior(X(i, n), Y(i, n), Z(i, n), n)
                         then (CoordinatesIdx(i, n);
                               Update(current[..], source[..], faces, n, COEFFICIENT, X(i, n), Y(i, n), Z(i, n)))
                         else old(next[i])
  {
    ghost var before := next[..];
    var blockSizeMinus1 := n - 1;
    var z := 1;
    while z < blockSizeMinus1
      invariant 1 <= z && (z <= blockSizeMinus1 || n <= 2)
      invariant InteriorProgress(next[..], before, current[..], source[..], faces, n, 0, 0, z)
    {
      InteriorPlane(source, current, next, faces, n, z, before);
      z := z + 1;
    }
  }

  /** One iteration's loops: the three face pairs, then the interior. */
  method SweepBlock(source: array<real>, current: array<real>, next: array<real>, faces: Faces, n: int)
    requires Arrays(source, current, next, faces, n)
    modifies next
    ensures next[..] == Sweep(current[..], old(next[..]), source[..], faces, n, COEFFICIENT)
  {
    ghost var before := next[..];
    FacePass(0, source, current, next, faces, n);
    ghost var afterX := next[..];
    FacePass(1, source, current, next, faces, n);
    ghost var afterY := next[..];
    FacePass(2, source, current, next, faces, n);
    ghost var afterZ := next[..];
    InteriorPass(source, current, next, faces, n);
    forall i | 0 <= i < n * n * n
      ensures next[i] == Sweep(current[..], before, source[..], faces, n, COEFFICIENT)[i]
    {
      CoordinatesIdx(i, n);
    }
  }

  /** `process_block`: `iterations` sweeps, each followed by the copy of
      `next` over `current`. */
  method ProcessBlock(iterations: nat, source: array<real>, current: array<real>, next: array<real>,
                      faces: Faces, n: int)
    requires Arrays(source, current, next, faces, n) && current != source
    modifies current, next
    ensures (current[..], next[..]) ==
            Iterate(old(current[..]), old(next[..]), source[..], faces, n, COEFFICIENT, iterations)
  {
    ghost var c0, n0 := current[..], next[..];
    var i := 0;
    while i < iterations
      invariant 0 <= i <= iterations
      invariant source[..] == old(source[..])
      invariant (current[..], next[..]) == Iterate(c0, n0, source[..], faces, n, COEFFICIENT, i)
    {
      ghost var swept := Sweep(current[..], next[..], source[..], faces, n, COEFFICIENT);
      SweepBlock(source, current, next, faces, n);
      assert next[..] == swept;
      forall k | 0 <= k < n * n * n {
        current[k] := next[k];
      }
      assert current[..] == next[..] == swept;
      i := i + 1;
    }
  }

  predicate OnBoundary(c: int, n: int)
  {
    c == 0 || c == n - 1
  }

  /** A cell of the block is updated exactly when at most one of its
      coordinates lies on the boundary: edges and corners never are. */
  lemma WrittenExactlyOffEdges(x: int, y: int, z: int, n: int)
    requires InBlock(x, y, z, n)
    ensures Written(x, y, z, n) <==>
              !(OnBoundary(x, n) && OnBoundary(y, n)) && !(OnBoundary(x, n) && OnBoundary(z, n)) &&
              !(OnBoundary(y, n) && OnBoundary(z, n))
  {
  }

  /** The four loop nests update disjoint sets of cells, so each written
      cell is written once per iteration. */
  lemma WrittenOnce(x: int, y: int, z: int, n: int)
    requires InBlock(x, y, z, n) && Written(x, y, z, n)
    ensures (if Interior(x, y, z, n) then 1 else 0) + (if XFace(x, y, z, n) then 1 else 0) +
            (if YFace(x, y, z, n) then 1 else 0) + (if ZFace(x, y, z, n) then 1 else 0) == 1
  {
  }

  /** `u` solves the discretised Poisson equation in every written cell:
      the neighbours' sum less six times the cell is the source term. */
  predicate Solves(u: seq<real>, src: seq<real>, f: Faces, n: int)
    requires n > 0 && |u| == n * n * n && |src| == n * n * n && FacesFit(f, n)
  {
    forall i :: 0 <= i < n * n * n && Written(X(i, n), Y(i, n), Z(i, n), n) ==>
      (CoordinatesIdx(i, n); NeighbourSum(u, f, n, X(i, n), Y(i, n), Z(i, n)) - 6.0 * u[i] == src[i])
  }

  /** With the coefficient 1/6 a sweep leaves `u` unchanged exactly when
      `u` solves the equation: the solver's fixed points are the solutions. */
  lemma FixedPointsAreSolutions(u: seq<real>, src: seq<real>, f: Faces, n: int)
    requires n > 0 && |u| == n * n * n && |src| == n * n * n && FacesFit(f, n)
    ensures Sweep(u, u, src, f, n, COEFFICIENT) == u <==> Solves(u, src, f, n)
  {
    var s := Sweep(u, u, src, f, n, COEFFICIENT);
    forall i | 0 <= i < n * n * n && Written(X(i, n), Y(i, n), Z(i, n), n)
      ensures s[i] == u[i] <==> (CoordinatesIdx(i, n); NeighbourSum(u, f, n, X(i, n), Y(i, n), Z(i, n)) - 6.0 * u[i] == src[i])
    {
      CoordinatesIdx(i, n);
      var sum := NeighbourSum(u, f, n, X(i, n), Y(i, n), Z(i, n));
      assert s[i] == (1.0 / 6.0) * (sum - src[i]);
    }
    if Solves(u, src, f, n) {
      forall i | 0 <= i < n * n * n
        ensures s[i] == u[i]
      {
        CoordinatesIdx(i, n);
      }
    }
  }

  /** Once the block holds a solution, further iterations keep it. */
  lemma {:induction false} SolutionStays(u: seq<real>, src: seq<real>, f: Faces, n: int, k: nat)
    requires n > 0 && |u| == n * n * n && |src| == n * n * n && FacesFit(f, n)
    requires Solves(u, src, f, n)
    ensures Iterate(u, u, src, f, n, COEFFICIENT, k) == (u, u)
  {
    if k > 0 {
      SolutionStays(u, src, f, n, k - 1);
      FixedPointsAreSolutions(u, src, f, n);
    }
  }

  /** As written, `1 / 6` is integer division and the coefficient is 0:
      every written cell becomes 0 whatever its neighbours. */
  lemma AsWrittenSweepZeroes(cur: seq<real>, nxt: seq<real>, src: seq<real>, f: Faces, n: int)
    requires n > 0 && |cur| == n * n * n && |nxt| == n * n * n && |src| == n * n * n && FacesFit(f, n)
    ensures AS_WRITTEN_COEFFICIENT == 0.0
    ensures forall i :: 0 <= i < n * n * n ==>
              Sweep(cur, nxt, src, f, n, AS_WRITTEN_COEFFICIENT)[i] ==
                if Written(X(i, n), Y(i, n), Z(i, n), n) then 0.0 else nxt[i]
  {
    forall i | 0 <= i < n * n * n
      ensures Sweep(cur, nxt, src, f, n, AS_WRITTEN_COEFFICIENT)[i] ==
                if Written(X(i, n), Y(i, n), Z(i, n), n) then 0.0 else nxt[i]
    {
      CoordinatesIdx(i, n);
    }
  }

  /** A block holding the same non-zero value everywhere, with faces of
      that value and no source, solves the equation... */
  lemma ConstantSolves(n: int, c: real)
    requires n > 0
    ensures Solves(seq(n * n * n, _ => c), seq(n * n * n, _ => 0.0), Uniform(n, c), n)
  {
    var u, src, f := seq(n * n * n, _ => c), seq(n * n * n, _ => 0.0), Uniform(n, c);
    forall i | 0 <= i < n * n * n && Written(X(i, n), Y(i, n), Z(i, n), n)
      ensures (CoordinatesIdx(i, n); NeighbourSum(u, f, n, X(i, n), Y(i, n), Z(i, n)) - 6.0 * u[i] == src[i])
    {
      CoordinatesIdx(i, n);
      UniformNeighbourSum(u, n, c, X(i, n), Y(i, n), Z(i, n));
    }
  }

  /** With every cell and every face value equal to c, the six neighbours sum to 6c. */
  lemma UniformNeighbourSum(u: seq<real>, n: int, c: real, x: int, y: int, z: int)
    requires n > 0 && |u| == n * n * n && forall k :: 0 <= k < |u| ==> u[k] == c
    requires InBlock(x, y, z, n) && Written(x, y, z, n)
    ensures NeighbourSum(u, Uniform(n, c), n, x, y, z) == 6.0 * c
  {
    NeighboursInBlock(x, y, z, n);
  }

  /** Faces holding `c` everywhere. */
  function Uniform(n: int, c: real): (f: Faces)
    requires n > 0
    ensures FacesFit(f, n)
  {
    var face := seq(n * n, _ => c);
    Faces(face, face, face, face, face, face)
  }

  /** ... and the sweep as written replaces its centre cell (1, 1, 1) by 0,
      while the intended one keeps the solution. */
  lemma AsWrittenBreaksSolution(n: int, c: real)
    requires n >= 3 && c != 0.0
    ensures var u, src := seq(n * n * n, _ => c), seq(n * n * n, _ => 0.0);
            0 <= Idx(1, 1, 1, n) < n * n * n &&
            Sweep(u, u, src, Uniform(n, c), n, COEFFICIENT) == u &&
            Sweep(u, u, src, Uniform(n, c), n, AS_WRITTEN_COEFFICIENT)[Idx(1, 1, 1, n)] == 0.0 != c
  {
    var u, src := seq(n * n * n, _ => c), seq(n * n * n, _ => 0.0);
    ConstantSolves(n, c);
    FixedPointsAreSolutions(u, src, Uniform(n, c), n);
    IdxCoordinates(1, 1, 1, n);
    AsWrittenSweepZeroes(u, u, src, Uniform(n, c), n);
  }
}
