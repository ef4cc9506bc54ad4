/**
 * Positions, directions and camera matrices of the snake game, in integer
 * hundredths of a world unit (the source uses `Vector3f`/`Matrix3f` floats).
 * Rotations about the vertical Y axis by +-90 degrees are exact here.
 */
module Geometry {

  /** A point or vector in world space, each component in hundredths of a unit. */
  datatype Vec3 = Vec3(x: int, y: int, z: int)

  /** A 3x3 rotation/scale matrix, entries in hundredths, row by row. */
  datatype Mat3 = Mat3(m00: int, m01: int, m02: int,
                       m10: int, m11: int, m12: int,
                       m20: int, m21: int, m22: int)

  function Add(a: Vec3, b: Vec3): Vec3 {
    Vec3(a.x + b.x, a.y + b.y, a.z + b.z)
  }

  function Sub(a: Vec3, b: Vec3): Vec3 {
    Vec3(a.x - b.x, a.y - b.y, a.z - b.z)
  }

  function Scale(k: int, a: Vec3): Vec3 {
    Vec3(k * a.x, k * a.y, k * a.z)
  }

  function Dot(a: Vec3, b: Vec3): int {
    a.x * b.x + a.y * b.y + a.z * b.z
  }

  /** Squared Euclidean length. */
  function NormSq(a: Vec3): int {
    Dot(a, a)
  }

  /** Third column of a matrix: the camera's local Z axis, which zooming moves along. */
  function Column2(m: Mat3): Vec3 {
    Vec3(m.m02, m.m12, m.m22)
  }

  /**
   * `rotY(+90 degrees)` applied to a vector: x' = cos*x + sin*z, z' = -sin*x + cos*z
   * with cos = 0 and sin = 1.
   */
  function RotateLeft(d: Vec3): (r: Vec3)
    ensures r.y == d.y
    ensures r.x * d.x + r.z * d.z == 0
    ensures NormSq(r) == NormSq(d)
  {
    Vec3(d.z, d.y, -d.x)
  }

  /** `rotY(-90 degrees)` applied to a vector: sin = -1. */
  function RotateRight(d: Vec3): (r: Vec3)
    ensures r.y == d.y
    ensures r.x * d.x + r.z * d.z == 0
    ensures NormSq(r) == NormSq(d)
  {
    Vec3(-d.z, d.y, d.x)
  }

  /** Rotate left by k quarter turns, k taken modulo 4 (so k = -1 is one right turn). */
  function RotateQuarters(d: Vec3, k: int): Vec3 {
    var q := k % 4;
    if q == 0 then d
    else if q == 1 then RotateLeft(d)
    else if q == 2 then RotateLeft(RotateLeft(d))
    else RotateRight(d)
  }

  lemma LeftThenRight(d: Vec3)
    ensures RotateRight(RotateLeft(d)) == d
    ensures RotateLeft(RotateRight(d)) == d
  {
  }

  lemma FourTurnsRestore(d: Vec3)
    ensures RotateLeft(RotateLeft(RotateLeft(RotateLeft(d)))) == d
    ensures RotateRight(RotateRight(RotateRight(RotateRight(d)))) == d
  {
  }

  /** One more left (right) quarter turn adds (subtracts) one to the count. */
  lemma RotateQuartersStep(d: Vec3, k: int)
    ensures RotateLeft(RotateQuarters(d, k)) == RotateQuarters(d, k + 1)
    ensures RotateRight(RotateQuarters(d, k)) == RotateQuarters(d, k - 1)
  {
    var q := k % 4;
    assert (k + 1) % 4 == (q + 1) % 4;
    assert (k - 1) % 4 == (q + 3) % 4;
  }

  function Abs(n: int): nat {
    if n < 0 then -n else n
  }

  /** If n * n is below c * c (c >= 0) then |n| is below c. */
  lemma SquareBelow(n: int, c: nat)
    requires n * n < c * c
    ensures Abs(n) < c
  {
    assert Abs(n) * Abs(n) == n * n;
    if Abs(n) >= c {
      MulMono(c, Abs(n));
    }
  }

  lemma MulMono(a: nat, b: nat)
    requires a <= b
    ensures a * a <= b * b
  {
    assert a * a <= a * b;
    assert a * b <= b * b;
  }
}
