/** Values shared by every module of the game model: optional values, 3D vectors in
    exact real arithmetic, and the clamp used by the camera controls. */
module Common {

  datatype Option<+T> = None | Some(value: T)

  /** How a JavaScript call ends: it returns, or it throws (a TypeError on an undefined
      value, or an explicit `throw`). */
  datatype Completion = Normal | Thrown

  /** A three.js Vector3, with exact reals in place of IEEE doubles. */
  datatype Vec3 = Vec3(x: real, y: real, z: real)

  const Origin: Vec3 := Vec3(0.0, 0.0, 0.0)

  /** JavaScript's Math.PI, written out as a decimal. */
  const PI: real := 3.141592653589793

  function Add(a: Vec3, b: Vec3): Vec3 {
    Vec3(a.x + b.x, a.y + b.y, a.z + b.z)
  }

  function Sub(a: Vec3, b: Vec3): Vec3 {
    Vec3(a.x - b.x, a.y - b.y, a.z - b.z)
  }

  function Scale(k: real, v: Vec3): Vec3 {
    Vec3(k * v.x, k * v.y, k * v.z)
  }

  /** The square of a vector's Euclidean length. */
  function NormSq(v: Vec3): real {
    v.x * v.x + v.y * v.y + v.z * v.z
  }

  /** `len` is the Euclidean length of `v` (what three.js calls v.length()). Lengths are
      supplied by callers, since Dafny's reals have no square root. */
  predicate IsLengthOf(len: real, v: Vec3) {
    len >= 0.0 && len * len == NormSq(v)
  }

  /** `a.distanceTo(b) < limit`, decided exactly through squared distances. */
  predicate CloserThan(a: Vec3, b: Vec3, limit: real)
    requires limit >= 0.0
  {
    NormSq(Sub(a, b)) < limit * limit
  }

  function Min(a: real, b: real): real {
    if a <= b then a else b
  }

  function Max(a: real, b: real): real {
    if a >= b then a else b
  }

  /** THREE.MathUtils.clamp: Math.max(lo, Math.min(hi, v)). */
  function Clamp(v: real, lo: real, hi: real): (r: real)
    ensures lo <= hi ==> lo <= r <= hi
    ensures lo <= v <= hi ==> r == v
    ensures v < lo ==> r == lo
    ensures lo <= hi && hi < v ==> r == hi
  {
    Max(lo, Min(hi, v))
  }

  /** `CloserThan` is the comparison `a.distanceTo(b) < limit` once the distance is known. */
  lemma CloserThanIsDistance(a: Vec3, b: Vec3, len: real, limit: real)
    requires IsLengthOf(len, Sub(a, b)) && limit >= 0.0
    ensures CloserThan(a, b, limit) <==> len < limit
  {
    assert NormSq(Sub(a, b)) == len * len;
    if len < limit {
      MulStrict(len, limit);
    } else {
      MulMono(limit, len);
    }
  }

  lemma MulStrict(x: real, y: real)
    requires 0.0 <= x < y
    ensures x * x < y * y
  {
    var d := y - x;
    assert y * y == x * x + d * (x + y);
    assert d * (x + y) > 0.0;
  }

  lemma MulMono(x: real, y: real)
    requires 0.0 <= x <= y
    ensures x * x <= y * y
  {
    assert x * x <= x * y;
    assert x * y <= y * y;
  }

  /** The longest a cannon ball may fly, in seconds. */
  const MaxFlightDuration: real := 6.0

  /** `Math.min(totalLength / speed, 6)`: the flight time along a path of the given
      length, capped at six seconds. */
  function FlightDuration(length: real, speed: real): (d: real)
    requires speed > 0.0
    ensures d <= MaxFlightDuration && d * speed <= length
    ensures d == MaxFlightDuration || d * speed == length
    ensures length >= 0.0 ==> d >= 0.0
  {
    Min(length / speed, MaxFlightDuration)
  }
}
