/** Values shared by the locomotion, controller and origin components:
    Unity's small vector types over reals, the core's enums and the
    InputTrackingState flags. */
module Common {

  datatype Option<T> = None | Some(value: T)

  /** Identity of a locomotion provider object (a non-null reference). */
  type ProviderId = nat

  /** Vector2, Vector3 and Quaternion, with real components. */
  datatype Vec2 = Vec2(x: real, y: real)
  datatype Vec3 = Vec3(x: real, y: real, z: real)
  datatype Quat = Quat(x: real, y: real, z: real, w: real)

  const Zero2: Vec2 := Vec2(0.0, 0.0)
  const Zero3: Vec3 := Vec3(0.0, 0.0, 0.0)
  const IdentityRotation: Quat := Quat(0.0, 0.0, 0.0, 1.0)

  function Abs(r: real): real { if r < 0.0 then -r else r }

  function Add(a: Vec3, b: Vec3): Vec3 { Vec3(a.x + b.x, a.y + b.y, a.z + b.z) }

  function Scale(a: Vec3, k: real): Vec3 { Vec3(a.x * k, a.y * k, a.z * k) }

  /** What the model knows of Vector2.magnitude `m`: the linear bounds of a
      Euclidean length, max(|x|, |y|) <= m <= |x| + |y|. */
  predicate IsMagnitude(v: Vec2, m: real) {
    Abs(v.x) <= m && Abs(v.y) <= m && m <= Abs(v.x) + Abs(v.y)
  }

  /** ELocomotionPhase: where a provider is in one locomotion. */
  datatype Phase = Idle | Started | Moving | Done

  /** ERequestResult: the arbiter's answer to a request or a finish. */
  datatype RequestResult = Success | Busy | Error

  /** ECardinal: the four directions an input vector is classified into. */
  datatype Cardinal = North | South | East | West

  /** EGravityApplicationMode. */
  datatype GravityApplicationMode = AttemptingMove | Immediately

  /** EUpdateType: when a controller samples its tracking input. */
  datatype UpdateType = UpdateAndBeforeRender | Update | BeforeRender | Fixed

  /** ETrackingOriginMode: the mode an origin asks the XR subsystem for. */
  datatype TrackingOriginMode = NotSpecified | Device | Floor

  /** The flags of InputTrackingState. */
  const TrackingNone: bv32 := 0
  const TrackingPosition: bv32 := 1
  const TrackingRotation: bv32 := 2
  const TrackingAll: bv32 := 63

  /** `xs` without the last occurrence of `x`: what removing a handler from
      a C# event's invocation list does. */
  function RemoveLast<T(==)>(xs: seq<T>, x: T): (r: seq<T>)
    ensures x !in xs ==> r == xs
    ensures x in xs ==> |r| == |xs| - 1
  {
    if xs == [] then []
    else if xs[|xs| - 1] == x then xs[..|xs| - 1]
    else RemoveLast(xs[..|xs| - 1], x) + [xs[|xs| - 1]]
  }

  /** The index of the last occurrence of `x`. */
  function LastIndex<T(==)>(xs: seq<T>, x: T): (i: nat)
    requires x in xs
    ensures i < |xs| && xs[i] == x
    ensures x !in xs[i + 1..]
  {
    if xs[|xs| - 1] == x then |xs| - 1
    else
      assert x in xs[..|xs| - 1] by {
        assert xs == xs[..|xs| - 1] + [xs[|xs| - 1]];
      }
      var i := LastIndex(xs[..|xs| - 1], x);
      assert xs[i + 1..] == xs[..|xs| - 1][i + 1..] + [xs[|xs| - 1]];
      i
  }

  /** RemoveLast drops exactly the last occurrence and keeps everything
      around it, in order. */
  lemma {:induction false} RemoveLastDropsLastOccurrence<T>(xs: seq<T>, x: T)
    requires x in xs
    ensures RemoveLast(xs, x) == xs[..LastIndex(xs, x)] + xs[LastIndex(xs, x) + 1..]
  {
    var n := |xs| - 1;
    if xs[n] != x {
      var init := xs[..n];
      assert xs == init + [xs[n]];
      assert x in init;
      RemoveLastDropsLastOccurrence(init, x);
      var i := LastIndex(init, x);
      assert LastIndex(xs, x) == i;
      assert xs[..i] == init[..i];
      assert xs[i + 1..] == init[i + 1..] + [xs[n]];
    }
  }

  /** Adding a handler and then removing it restores the invocation list. */
  lemma {:induction false} RemoveLastUndoesAppend<T>(xs: seq<T>, x: T)
    ensures RemoveLast(xs + [x], x) == xs
  {
    assert (xs + [x])[..|xs + [x]| - 1] == xs;
  }
}
