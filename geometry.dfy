/**
 * Pure geometry shared by both perception engines (GVG_AI and GVG_AI_V2
 * AgentState carry identical copies): cell quantisation, distances, the
 * angle of a vector and the normalisation of an accumulated angle.
 *
 * Floating point is modelled by `real`; `Math.atan` is not computed but
 * supplied by the caller as a value whose range and sign are stated
 * (IsAtanDegrees), and `Math.sqrt` is avoided by comparing squared distances,
 * which order the same way.
 */
module Geometry {
  import opened Host

  /** A grid cell: a Vector2d whose coordinates are whole numbers. */
  datatype Cell = Cell(x: int, y: int)

  /** Java's `(int)` cast of a floating-point value: truncation toward zero. */
  function Trunc(r: real): (n: int)
    ensures r >= 0.0 ==> n as real <= r < n as real + 1.0
    ensures r < 0.0 ==> n as real - 1.0 < r <= n as real
  {
    if r >= 0.0 then r.Floor else -((-r).Floor)
  }

  /** Cell coordinates of a pixel position: each coordinate divided by the block size and truncated. */
  function CalculateCell(pos: Vec, blockSize: int): (c: Cell)
    requires blockSize > 0
    ensures pos.x >= 0.0 ==> c.x >= 0
    ensures pos.y >= 0.0 ==> c.y >= 0
  {
    Cell(Trunc(pos.x / blockSize as real), Trunc(pos.y / blockSize as real))
  }

  /** A position on the board lies inside the block of its cell. */
  lemma CellContains(pos: Vec, blockSize: int)
    requires blockSize > 0
    ensures var c := CalculateCell(pos, blockSize);
      && (pos.x >= 0.0 ==> c.x >= 0 && c.x as real * blockSize as real <= pos.x < (c.x as real + 1.0) * blockSize as real)
      && (pos.y >= 0.0 ==> c.y >= 0 && c.y as real * blockSize as real <= pos.y < (c.y as real + 1.0) * blockSize as real)
  {
    var b := blockSize as real;
    var c := CalculateCell(pos, blockSize);
    CellBounds(pos.x, b, c.x);
    CellBounds(pos.y, b, c.y);
  }

  lemma CellBounds(p: real, b: real, n: int)
    requires b > 0.0 && n == Trunc(p / b)
    ensures p >= 0.0 ==> n as real * b <= p < (n as real + 1.0) * b
    ensures p >= 0.0 ==> n >= 0
  {
    var q := p / b;
    assert q * b == p;
    if p >= 0.0 {
      assert q >= 0.0;
      var hi := n as real + 1.0;
      assert n as real <= q < hi;
      MulLe(n as real, q, b);
      MulLt(q, hi, b);
      assert p < hi * b;
    }
  }

  /** Multiplying by a positive factor keeps a non-strict order. */
  lemma MulLe(u: real, v: real, b: real)
    requires b > 0.0 && u <= v
    ensures u * b <= v * b
  {
    assert (v - u) * b >= 0.0;
  }

  /** Multiplying by a positive factor keeps a strict order. */
  lemma MulLt(u: real, v: real, b: real)
    requires b > 0.0 && u < v
    ensures u * b < v * b
  {
    assert (v - u) * b > 0.0;
  }

  /**
   * The square of AgentState.distance between two cells. The source compares
   * sqrt(dx^2 + dy^2); the square root is monotone, so comparing squares
   * orders cells identically (and `d < 100000` becomes `d2 < 100000^2`).
   */
  function SquaredDistance(a: Cell, b: Cell): (d2: int)
    ensures d2 >= 0
    ensures d2 == 0 <==> a == b
  {
    (a.x - b.x) * (a.x - b.x) + (a.y - b.y) * (a.y - b.y)
  }

  /**
   * What the caller must supply for `toDegrees(atan(q))`: a value strictly
   * between -90 and 90 with the sign of q.
   */
  predicate IsAtanDegrees(q: real, a: real)
  {
    -90.0 < a < 90.0 && (q > 0.0 <==> a > 0.0) && (q < 0.0 <==> a < 0.0)
  }

  lemma QuotientSign(x: real, y: real)
    requires x != 0.0
    ensures (x < 0.0 && y > 0.0) ==> y / x < 0.0
    ensures (x < 0.0 && y < 0.0) ==> y / x > 0.0
    ensures (x > 0.0 && y < 0.0) ==> y / x < 0.0
    ensures (x > 0.0 && y > 0.0) ==> y / x > 0.0
    ensures y == 0.0 ==> y / x == 0.0
  {
    assert (y / x) * x == y;
  }

  /**
   * calculateDegreesFromVector exactly as written in both AgentState files,
   * and the one the perception models use. `atanDeg` is
   * toDegrees(atan(y / x)). Every vector off the horizontal gets the angle
   * of its quadrant, a rightward one 0; a vector pointing straight left
   * (x < 0, y == 0) falls through every quadrant test and also yields
   * atan(0) = 0.
   */
  function CalculateDegreesFromVectorAsWritten(x: real, y: real, atanDeg: real): (d: real)
    requires x != 0.0 ==> IsAtanDegrees(y / x, atanDeg)
    ensures 0.0 <= d < 360.0
    ensures x == 0.0 ==> d == (if y > 0.0 then 90.0 else 270.0)
    ensures x < 0.0 && y > 0.0 ==> 90.0 < d < 180.0
    ensures x < 0.0 && y == 0.0 ==> d == 0.0
    ensures x < 0.0 && y < 0.0 ==> 180.0 < d < 270.0
    ensures x > 0.0 && y > 0.0 ==> 0.0 < d < 90.0
    ensures x > 0.0 && y == 0.0 ==> d == 0.0
    ensures x > 0.0 && y < 0.0 ==> 270.0 < d < 360.0
  {
    if x == 0.0 then (if y > 0.0 then 90.0 else 270.0)
    else
      QuotientSign(x, y);
      if x < 0.0 && y > 0.0 then atanDeg + 180.0
      else if x < 0.0 && y < 0.0 then atanDeg + 180.0
      else if x > 0.0 && y < 0.0 then atanDeg + 360.0
      else atanDeg
  }

  /**
   * The angle the vector (x, y) forms with the X axis, in [0, 360): the
   * quadrant correction adds 180 for every leftward vector and 360 for a
   * rightward, downward one. This is the corrected form of the function
   * above: it differs only on vectors pointing straight left.
   */
  function CalculateDegreesFromVector(x: real, y: real, atanDeg: real): (d: real)
    requires x != 0.0 ==> IsAtanDegrees(y / x, atanDeg)
    ensures 0.0 <= d < 360.0
    ensures x == 0.0 ==> d == (if y > 0.0 then 90.0 else 270.0)
    ensures x < 0.0 && y > 0.0 ==> 90.0 < d < 180.0
    ensures x < 0.0 && y == 0.0 ==> d == 180.0
    ensures x < 0.0 && y < 0.0 ==> 180.0 < d < 270.0
    ensures x > 0.0 && y > 0.0 ==> 0.0 < d < 90.0
    ensures x > 0.0 && y == 0.0 ==> d == 0.0
    ensures x > 0.0 && y < 0.0 ==> 270.0 < d < 360.0
  {
    if x == 0.0 then (if y > 0.0 then 90.0 else 270.0)
    else
      QuotientSign(x, y);
      if x < 0.0 then atanDeg + 180.0
      else if y < 0.0 then atanDeg + 360.0
      else atanDeg
  }

  /** The two definitions differ only on vectors pointing straight left. */
  lemma CorrectionOnlyAffectsLeftwardVectors(x: real, y: real, atanDeg: real)
    requires x != 0.0 ==> IsAtanDegrees(y / x, atanDeg)
    ensures CalculateDegreesFromVectorAsWritten(x, y, atanDeg) == CalculateDegreesFromVector(x, y, atanDeg)
            <==> !(x < 0.0 && y == 0.0)
  {
  }

  /** Counterexample: the vector (-1, 0) points at 180 degrees but the code as written reports 0. */
  lemma LeftwardVectorAsWritten()
    ensures CalculateDegreesFromVectorAsWritten(-1.0, 0.0, 0.0) == 0.0
    ensures CalculateDegreesFromVector(-1.0, 0.0, 0.0) == 180.0
  {
    QuotientSign(-1.0, 0.0);
  }

  /** Java's Math.PI. */
  const PI: real := 3.141592653589793

  /** Math.toDegrees: rad * 180 / PI, with PI written out so that the division is by a literal. */
  function ToDegrees(rad: real): real
  {
    rad * 180.0 / 3.141592653589793
  }

  /** r is a whole number. */
  predicate IsWhole(r: real)
  {
    r.Floor as real == r
  }

  /** The fractional part of t, signed like t: what truncation discards. */
  function Frac(t: real): (f: real)
    ensures t >= 0.0 ==> 0.0 <= f < 1.0
    ensures t < 0.0 ==> -1.0 < f <= 0.0
    ensures IsWhole(t - f)
  {
    t - Trunc(t) as real
  }

  /**
   * Java's floating-point `a % 360`: a - 360 * trunc(a / 360). The remainder
   * takes the sign of the dividend, and a and r differ by whole turns.
   */
  function Rem360(a: real): (r: real)
    ensures a >= 0.0 ==> 0.0 <= r < 360.0
    ensures a < 0.0 ==> -360.0 < r <= 0.0
    ensures IsWhole(a / 360.0 - r / 360.0)
  {
    Frac(a / 360.0) * 360.0
  }

  lemma WholeMinusOne(w: real)
    requires IsWhole(w)
    ensures IsWhole(w - 1.0)
  {
  }

  /**
   * perceiveOrientation's normalisation: `degrees % 360`, plus 360 when
   * negative. The result is in [0, 360) and differs from the input by a whole
   * number of turns.
   */
  function NormaliseDegrees(d: real): (r: real)
    ensures 0.0 <= r < 360.0
    ensures IsWhole(d / 360.0 - r / 360.0)
  {
    var m := Rem360(d);
    if m < 0.0 then
      WholeMinusOne(d / 360.0 - m / 360.0);
      m + 360.0
    else m
  }
}
