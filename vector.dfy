/** Vector and transform algebra of the renderer: 3D and 2D vectors over reals
    (the source's doubles), clamping, dot and cross products, the zero-length
    policy of normalisation, and the scale-rotate-translate transform.

    The C math library (sqrt, sin, cos, tan) is not interpreted: callers pass
    it in as a `MathLib` value, and lemmas state as hypotheses the few facts
    about it that they rely on. */
module Vector {

  datatype V3 = V3(x: real, y: real, z: real)
  datatype V2 = V2(x: real, y: real)

  /** Position, Euler rotation in radians, and per-axis scale. */
  datatype Transform = Transform(position: V3, rotation: V3, scale: V3)

  /** The libm functions the source calls, as uninterpreted function values. */
  datatype MathLib = MathLib(sqrt: real -> real, sin: real -> real, cos: real -> real, tan: real -> real)

  /** The only fact about sqrt the zero-length policy depends on. */
  ghost predicate SqrtZeroExactly(sqrt: real -> real)
  {
    forall x :: x >= 0.0 ==> (sqrt(x) == 0.0 <==> x == 0.0)
  }

  const Zero3: V3 := V3(0.0, 0.0, 0.0)
  const Zero2: V2 := V2(0.0, 0.0)
  const Ones3: V3 := V3(1.0, 1.0, 1.0)

  // ---------- clamping ----------

  /** `clampi`: first raise to min, then lower to max. */
  function Clampi(d: int, min: int, max: int): (r: int)
    ensures min <= max ==> min <= r <= max
    ensures min <= max ==> (r == d <==> min <= d <= max)
    ensures min <= max && d < min ==> r == min
    ensures d > max ==> r == max
    ensures min > max ==> r == max
  {
    var t := if d < min then min else d;
    if t > max then max else t
  }

  /** `clampd`: the same policy over doubles. */
  function Clampd(d: real, min: real, max: real): (r: real)
    ensures min <= max ==> min <= r <= max
    ensures min <= max ==> (r == d <==> min <= d <= max)
    ensures min <= max && d < min ==> r == min
    ensures d > max ==> r == max
    ensures min > max ==> r == max
  {
    var t := if d < min then min else d;
    if t > max then max else t
  }

  // ---------- 3D vector operations ----------

  function V3Scale(a: V3, s: real): V3 { V3(a.x * s, a.y * s, a.z * s) }
  function V3Add(a: V3, b: V3): V3 { V3(a.x + b.x, a.y + b.y, a.z + b.z) }
  function V3Sub(a: V3, b: V3): V3 { V3(a.x - b.x, a.y - b.y, a.z - b.z) }
  function Dot(a: V3, b: V3): real { a.x * b.x + a.y * b.y + a.z * b.z }

  function Cross(a: V3, b: V3): V3
  {
    V3(a.y * b.z - a.z * b.y, a.z * b.x - a.x * b.z, a.x * b.y - a.y * b.x)
  }

  function V3Len(a: V3, sqrt: real -> real): real { sqrt(Dot(a, a)) }

  /** `normalize`: the input itself when its length is exactly zero. */
  function Normalize(v: V3, sqrt: real -> real): V3
  {
    var len := V3Len(v, sqrt);
    if len == 0.0 then v else V3Scale(v, 1.0 / len)
  }

  lemma SubUndoesAdd(a: V3, b: V3)
    ensures V3Sub(V3Add(a, b), b) == a
  {
  }

  lemma AddCommutes(a: V3, b: V3)
    ensures V3Add(a, b) == V3Add(b, a)
  {
  }

  lemma ScaleByOne(a: V3)
    ensures V3Scale(a, 1.0) == a
  {
  }

  lemma DotSymmetric(a: V3, b: V3)
    ensures Dot(a, b) == Dot(b, a)
  {
  }

  /** The cross product is orthogonal to both of its arguments. */
  lemma CrossOrthogonal(a: V3, b: V3)
    ensures Dot(a, Cross(a, b)) == 0.0
    ensures Dot(b, Cross(a, b)) == 0.0
  {
  }

  lemma CrossAntiCommutes(a: V3, b: V3)
    ensures Cross(a, b) == V3Scale(Cross(b, a), -1.0)
  {
  }

  lemma CrossSelfIsZero(a: V3)
    ensures Cross(a, a) == Zero3
  {
  }

  /** The zero-length policy of `normalize`: the zero vector comes back
      unchanged, and when the squared length is non-zero (and sqrt vanishes
      only at zero) the vector is divided by its length, which is non-zero. */
  lemma NormalizeZeroPolicy(v: V3, sqrt: real -> real)
    requires SqrtZeroExactly(sqrt)
    ensures v == Zero3 ==> Normalize(v, sqrt) == v
    ensures Dot(v, v) != 0.0 ==> V3Len(v, sqrt) != 0.0 &&
                                 Normalize(v, sqrt) == V3Scale(v, 1.0 / V3Len(v, sqrt))
  {
  }

  /** The zero case needs only sqrt(0) == 0. */
  lemma NormalizeZero(sqrt: real -> real)
    requires sqrt(0.0) == 0.0
    ensures Normalize(Zero3, sqrt) == Zero3
  {
  }

  // ---------- 2D vector operations ----------

  function ScaleV2(a: V2, s: real): V2 { V2(a.x * s, a.y * s) }

  /** The length `normalizev2` computes inline. */
  function V2Len(v: V2, sqrt: real -> real): real { sqrt(v.x * v.x + v.y * v.y) }

  /** `normalizev2`: same zero-length policy as `normalize`. */
  function NormalizeV2(v: V2, sqrt: real -> real): V2
  {
    var len := V2Len(v, sqrt);
    if len == 0.0 then v else ScaleV2(v, 1.0 / len)
  }

  lemma NormalizeV2ZeroPolicy(v: V2, sqrt: real -> real)
    requires SqrtZeroExactly(sqrt)
    ensures v == Zero2 ==> NormalizeV2(v, sqrt) == v
    ensures v.x * v.x + v.y * v.y != 0.0 ==>
              V2Len(v, sqrt) != 0.0 && NormalizeV2(v, sqrt) == ScaleV2(v, 1.0 / V2Len(v, sqrt))
  {
  }

  /** The zero case of `normalizev2` needs only sqrt(0) == 0. */
  lemma NormalizeV2Zero(sqrt: real -> real)
    requires sqrt(0.0) == 0.0
    ensures NormalizeV2(Zero2, sqrt) == Zero2
  {
  }

  // ---------- transform ----------

  /** The six cosines and sines `transformV3` takes of the rotation angles. */
  datatype Trig = Trig(cx: real, sx: real, cy: real, sy: real, cz: real, sz: real)

  const NoRotation: Trig := Trig(1.0, 0.0, 1.0, 0.0, 1.0, 0.0)

  function TrigOf(rotation: V3, math: MathLib): Trig
  {
    Trig(math.cos(rotation.x), math.sin(rotation.x),
         math.cos(rotation.y), math.sin(rotation.y),
         math.cos(rotation.z), math.sin(rotation.z))
  }

  /** The body of `transformV3` once the six trigonometric values are known:
      multiply by the scale, apply the fixed Euler matrix, add the position. */
  function TransformWith(v: V3, t: Transform, g: Trig): V3
  {
    var x := v.x * t.scale.x;
    var y := v.y * t.scale.y;
    var z := v.z * t.scale.z;
    var rx := x * (g.cy * g.cz) + y * (g.sx * g.sy * g.cz - g.cx * g.sz) + z * (g.cx * g.sy * g.cz + g.sx * g.sz);
    var ry := x * (g.cy * g.sz) + y * (g.sx * g.sy * g.sz + g.cx * g.cz) + z * (g.cx * g.sy * g.sz - g.sx * g.cz);
    var rz := x * (-g.sy) + y * (g.sx * g.cy) + z * (g.cx * g.cy);
    V3(rx + t.position.x, ry + t.position.y, rz + t.position.z)
  }

  function TransformV3(v: V3, t: Transform, math: MathLib): V3
  {
    TransformWith(v, t, TrigOf(t.rotation, math))
  }

  /** Componentwise product (the scale step on its own). */
  function Mul(a: V3, b: V3): V3 { V3(a.x * b.x, a.y * b.y, a.z * b.z) }

  /** The rotation matrix on its own, as three rows dotted with the point. */
  function Rotate(p: V3, g: Trig): V3
  {
    V3(Dot(p, V3(g.cy * g.cz, g.sx * g.sy * g.cz - g.cx * g.sz, g.cx * g.sy * g.cz + g.sx * g.sz)),
       Dot(p, V3(g.cy * g.sz, g.sx * g.sy * g.sz + g.cx * g.cz, g.cx * g.sy * g.sz - g.sx * g.cz)),
       Dot(p, V3(-g.sy, g.sx * g.cy, g.cx * g.cy)))
  }

  /** Scale is applied first, then the rotation, and the position is added last. */
  lemma TransformStages(v: V3, t: Transform, g: Trig)
    ensures TransformWith(v, t, g) == V3Add(Rotate(Mul(v, t.scale), g), t.position)
  {
  }

  /** Unit scale, zero position and the trigonometric values of a zero
      rotation leave every point where it is. */
  lemma TransformIdentity(v: V3, t: Transform, g: Trig)
    requires t.scale == Ones3 && t.position == Zero3 && g == NoRotation
    ensures TransformWith(v, t, g) == v
  {
  }

  /** The position only shifts the result of the other two stages. */
  lemma TransformTranslatesLast(v: V3, t: Transform, g: Trig)
    ensures TransformWith(v, t, g) == V3Add(TransformWith(v, t.(position := Zero3), g), t.position)
  {
    TransformStages(v, t, g);
    TransformStages(v, t.(position := Zero3), g);
  }

  /** With the library values cos(0) = 1 and sin(0) = 0, the identity
      transform maps every point to itself. */
  lemma TransformV3Identity(v: V3, math: MathLib)
    requires math.cos(0.0) == 1.0 && math.sin(0.0) == 0.0
    ensures TransformV3(v, Transform(Zero3, Zero3, Ones3), math) == v
  {
    TransformIdentity(v, Transform(Zero3, Zero3, Ones3), TrigOf(Zero3, math));
  }
}
