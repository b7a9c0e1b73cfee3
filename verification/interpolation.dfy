/** `Common::Interpolation`: the keyframe samplers used for glTF animation
    channels (LINEAR, STEP and the spherical variant of LINEAR for rotations,
    section 3.11 of the glTF 2.0 specification). Values are vectors of reals
    of any dimension, standing for the template parameter `Type`. */
module Interpolation {

  /** `Lerp` on one component: `(1 - keyframe) * prev + keyframe * next`. */
  function Lerp(prev: real, next: real, keyframe: real): (r: real)
    ensures r - prev == keyframe * (next - prev)
    ensures keyframe == 0.0 ==> r == prev
    ensures keyframe == 1.0 ==> r == next
  {
    (1.0 - keyframe) * prev + keyframe * next
  }

  function Scale(s: real, v: seq<real>): (r: seq<real>)
    ensures |r| == |v|
    ensures forall i | 0 <= i < |v| :: r[i] == s * v[i]
  {
    seq(|v|, i requires 0 <= i < |v| => s * v[i])
  }

  function Add(u: seq<real>, v: seq<real>): (r: seq<real>)
    requires |u| == |v|
    ensures |r| == |u|
    ensures forall i | 0 <= i < |u| :: r[i] == u[i] + v[i]
  {
    seq(|u|, i requires 0 <= i < |u| => u[i] + v[i])
  }

  /** Unary minus on a vector or quaternion. */
  function Negate(v: seq<real>): (r: seq<real>)
    ensures |r| == |v|
    ensures forall i | 0 <= i < |v| :: r[i] == -v[i]
  {
    seq(|v|, i requires 0 <= i < |v| => -v[i])
  }

  /** `glm::dot`. */
  function Dot(u: seq<real>, v: seq<real>): real
    requires |u| == |v|
  {
    if |u| == 0 then 0.0 else u[0] * v[0] + Dot(u[1..], v[1..])
  }

  function Abs(x: real): real {
    if x < 0.0 then -x else x
  }

  /** `Lerp` on a vector: every component is the scalar lerp of its endpoints. */
  function LerpVec(prev: seq<real>, next: seq<real>, keyframe: real): (r: seq<real>)
    requires |prev| == |next|
    ensures |r| == |prev|
    ensures forall i | 0 <= i < |prev| :: r[i] == Lerp(prev[i], next[i], keyframe)
  {
    Add(Scale(1.0 - keyframe, prev), Scale(keyframe, next))
  }

  /** At keyframe 0 a lerp yields its first endpoint and at keyframe 1 its second. */
  lemma LerpVecEndpoints(prev: seq<real>, next: seq<real>)
    requires |prev| == |next|
    ensures LerpVec(prev, next, 0.0) == prev
    ensures LerpVec(prev, next, 1.0) == next
  {
    assert LerpVec(prev, next, 0.0) == prev;
    assert LerpVec(prev, next, 1.0) == next;
  }

  /** Halfway between two keyframes a lerp yields the componentwise midpoint. */
  lemma LerpVecMidpoint(prev: seq<real>, next: seq<real>)
    requires |prev| == |next|
    ensures forall i | 0 <= i < |prev| :: LerpVec(prev, next, 0.5)[i] == (prev[i] + next[i]) / 2.0
  {
  }

  /** `Step`: the sample switches from `prev` to `next` exactly when the
      keyframe reaches 1. */
  function Step<T>(prev: T, next: T, keyframe: real): (r: T)
    ensures r == prev || r == next
    ensures prev != next ==> (r == next <==> keyframe >= 1.0)
  {
    if keyframe >= 1.0 then next else prev
  }

  /** Every keyframe strictly between two samples holds the earlier one. */
  lemma StepHoldsPrev<T>(prev: T, next: T, keyframe: real)
    requires 0.0 <= keyframe < 1.0
    ensures Step(prev, next, keyframe) == prev
  {
  }

  /** Negating one argument negates the dot product. */
  lemma {:induction false} DotNegate(u: seq<real>, v: seq<real>)
    requires |u| == |v|
    ensures Dot(u, Negate(v)) == -Dot(u, v)
    decreases |u|
  {
    if |u| > 0 {
      assert Negate(v)[1..] == Negate(v[1..]);
      DotNegate(u[1..], v[1..]);
    }
  }

  /** The sign correction at the start of `SLerp`: `next` is negated when the
      two quaternions point into opposite half-spaces, so that the
      interpolation takes the shorter arc. Returns the corrected `next` and
      the corrected dot product. */
  function ShortestPath(prev: seq<real>, next: seq<real>): (res: (seq<real>, real))
    requires |prev| == |next|
    ensures |res.0| == |next|
    ensures res.1 == Dot(prev, res.0) && res.1 >= 0.0
    ensures res.1 == Abs(Dot(prev, next))
    ensures Dot(prev, next) < 0.0 ==> res.0 == Negate(next)
    ensures Dot(prev, next) >= 0.0 ==> res.0 == next
  {
    var d := Dot(prev, next);
    if d < 0.0 then DotNegate(prev, next); (Negate(next), -d) else (next, d)
  }

  /** Above this corrected dot product the quaternions count as nearly
      colinear and `SLerp` falls back to a normalised lerp. */
  const NearlyColinear: real := 0.9995

  /** Added to `sin(theta0)` before inverting it. */
  const SinEpsilon: real := 0.000001

  /** The trigonometric functions `SLerp` calls, passed in because the reals
      of this model have none. */
  datatype Trig = Trig(sin: real -> real, cos: real -> real, acos: real -> real)

  /** The facts about sine, cosine and arc cosine the model relies on:
      their values at 0, and that the sine of an arc cosine (an angle in
      [0, pi]) is not negative, so that `sin(theta0) + SinEpsilon` is never 0. */
  ghost predicate ValidTrig(t: Trig) {
    && t.sin(0.0) == 0.0
    && t.cos(0.0) == 1.0
    && forall x :: t.sin(t.acos(x)) >= 0.0
  }

  /** The spherical branch of `SLerp` for a sign-corrected pair with
      corrected dot product `d`. */
  function SphericalBlend(prev: seq<real>, next: seq<real>, d: real, keyframe: real, trig: Trig): (r: seq<real>)
    requires |prev| == |next|
    requires ValidTrig(trig)
    ensures |r| == |prev|
  {
    var theta0 := trig.acos(d);
    var theta := keyframe * theta0;
    var sinTheta := trig.sin(theta);
    var sinTheta0Inv := 1.0 / (trig.sin(theta0) + SinEpsilon);
    var scalePrev := trig.cos(theta) - d * sinTheta * sinTheta0Inv;
    var scaleNext := sinTheta * sinTheta0Inv;
    Add(Scale(scalePrev, prev), Scale(scaleNext, next))
  }

  /** `SLerp`: shortest-path correction, then either a normalised lerp (nearly
      colinear inputs) or the spherical blend. `normalize` stands for
      `glm::normalize`. */
  function SLerp(prev: seq<real>, next: seq<real>, keyframe: real, trig: Trig,
                 normalize: seq<real> -> seq<real>): (r: seq<real>)
    requires |prev| == |next|
    requires ValidTrig(trig)
    ensures Abs(Dot(prev, next)) > NearlyColinear ==>
              r == normalize(LerpVec(prev, ShortestPath(prev, next).0, keyframe))
    ensures Abs(Dot(prev, next)) <= NearlyColinear ==>
              r == SphericalBlend(prev, ShortestPath(prev, next).0, Abs(Dot(prev, next)), keyframe, trig)
  {
    var corrected := ShortestPath(prev, next);
    var n, d := corrected.0, corrected.1;
    if d > NearlyColinear then
      normalize(LerpVec(prev, n, keyframe))
    else
      SphericalBlend(prev, n, d, keyframe, trig)
  }

  /** At keyframe 0 the spherical blend weighs `prev` by cos 0 - d * sin 0 * inv = 1
      and `next` by sin 0 * inv = 0, so it yields `prev` itself. */
  lemma SphericalBlendAtZero(prev: seq<real>, next: seq<real>, d: real, trig: Trig)
    requires |prev| == |next|
    requires ValidTrig(trig)
    ensures SphericalBlend(prev, next, d, 0.0, trig) == prev
  {
    var theta0 := trig.acos(d);
    assert 0.0 * theta0 == 0.0;
    var r := SphericalBlend(prev, next, d, 0.0, trig);
    assert forall i | 0 <= i < |prev| :: r[i] == prev[i];
  }

  /** At keyframe 0 `SLerp` yields `prev` on the spherical branch and `prev`
      normalised on the nearly-colinear branch. */
  lemma SLerpAtZero(prev: seq<real>, next: seq<real>, trig: Trig, normalize: seq<real> -> seq<real>)
    requires |prev| == |next|
    requires ValidTrig(trig)
    ensures Abs(Dot(prev, next)) <= NearlyColinear ==> SLerp(prev, next, 0.0, trig, normalize) == prev
    ensures Abs(Dot(prev, next)) > NearlyColinear ==> SLerp(prev, next, 0.0, trig, normalize) == normalize(prev)
  {
    var n := ShortestPath(prev, next).0;
    LerpVecEndpoints(prev, n);
    SphericalBlendAtZero(prev, n, Abs(Dot(prev, next)), trig);
  }
}
