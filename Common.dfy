/** Small value types shared by every module of the model. */
module Common {

  /** A value that may be absent (JavaScript's `null` / `undefined`). */
  datatype Option<T> = None | Some(value: T)

  /** A point or an Euler rotation, as the `{x, y, z}` objects of the game. */
  datatype Vec3 = Vec3(x: real, y: real, z: real)

  const ORIGIN: Vec3 := Vec3(0.0, 0.0, 0.0)

  /** `Math.min` on two reals. */
  function MinReal(a: real, b: real): (r: real)
    ensures r <= a && r <= b
    ensures r == a || r == b
  {
    if a <= b then a else b
  }

  /** `Math.max` on two reals. */
  function MaxReal(a: real, b: real): (r: real)
    ensures r >= a && r >= b
    ensures r == a || r == b
  {
    if a >= b then a else b
  }

  /** `Math.min` on two whole numbers, the real minimum read back as an integer. */
  function MinNat(a: nat, b: nat): (r: nat)
    ensures r <= a && r <= b
    ensures r == a || r == b
  {
    MinReal(a as real, b as real).Floor
  }

  /** Square of the distance between two points projected on the ground (x, z) plane. */
  function PlanarDistanceSquared(a: Vec3, b: Vec3): (r: real)
    ensures r >= 0.0
    ensures a.x == b.x && a.z == b.z ==> r == 0.0
  {
    (a.x - b.x) * (a.x - b.x) + (a.z - b.z) * (a.z - b.z)
  }

  /** Every entry is a possible result of `Math.random()`, i.e. lies in [0, 1). */
  predicate UnitDraws(draws: seq<real>) {
    forall i :: 0 <= i < |draws| ==> 0.0 <= draws[i] < 1.0
  }

  /** `r * span`: a draw `r` in [0, 1) scales `span` to a value in [0, span). */
  function Fraction(r: real, span: real): (v: real)
    ensures 0.0 <= r < 1.0 && span > 0.0 ==> 0.0 <= v < span
  {
    if 0.0 <= r < 1.0 && span > 0.0 then
      ScaledBelow(r, span);
      r * span
    else
      r * span
  }

  lemma ScaledBelow(r: real, span: real)
    requires 0.0 <= r < 1.0 && span > 0.0
    ensures 0.0 <= r * span < span
  {
    assert span - r * span == (1.0 - r) * span;
    assert (1.0 - r) * span > 0.0;
  }

  /** A uniform draw `r` in [0, 1) turned into an index, as `Math.floor(r * n)`. */
  function PickIndex(r: real, n: nat): (k: nat)
    requires 0.0 <= r < 1.0 && n > 0
    ensures k < n
  {
    ScaledBelow(r, n as real);
    FloorBelow(r * (n as real), n);
    (r * (n as real)).Floor
  }

  lemma FloorBelow(x: real, n: int)
    requires 0.0 <= x < n as real
    ensures 0 <= x.Floor < n
  {
  }
}
