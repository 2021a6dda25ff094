/** SContinuousTurnProviderBase: turns the rig smoothly while the stick is
    held to the side, at turnSpeed degrees per second scaled by the stick's
    deflection. */
module ContinuousTurn {
  import opened Common
  import opened Locomotion
  import opened Provider
  import CardinalUtility
  import Origin

  /** Mathf.Sign: 1 for zero and positive values, -1 for negative ones. */
  function Sign(x: real): (r: real)
    ensures r == 1.0 || r == -1.0
    ensures r == 1.0 <==> x >= 0.0
  {
    if x >= 0.0 then 1.0 else -1.0
  }

  /** GetTurnAmount: `magnitude` is the input's length and `dt` the frame's
      duration. No turn for a centred stick or one pushed forward or back; a
      sideways stick turns by |input| * turnSpeed * dt, towards the side it
      points to. */
  function GetTurnAmount(input: Vec2, magnitude: real, turnSpeed: real, dt: real): (r: real)
    requires IsMagnitude(input, magnitude)
    ensures Abs(input.x) <= Abs(input.y) ==> r == 0.0
    ensures input.x > Abs(input.y) ==> r == magnitude * turnSpeed * dt
    ensures -input.x > Abs(input.y) ==> r == -(magnitude * turnSpeed * dt)
  {
    CardinalUtility.EastWestCones(input);
    if input == Zero2 then 0.0
    else
      match CardinalUtility.GetNearestCardinal(input)
      case North => 0.0
      case South => 0.0
      case East => magnitude * (Sign(input.x) * turnSpeed * dt)
      case West => magnitude * (Sign(input.x) * turnSpeed * dt)
  }

  /** With a positive speed and frame time, a sideways stick turns in the
      direction of input.x, and the size of the turn is |input| * turnSpeed * dt. */
  lemma {:induction false} TurnFollowsStick(input: Vec2, magnitude: real, turnSpeed: real, dt: real)
    requires IsMagnitude(input, magnitude) && turnSpeed > 0.0 && dt > 0.0
    requires Abs(input.x) > Abs(input.y)
    ensures GetTurnAmount(input, magnitude, turnSpeed, dt) > 0.0 <==> input.x > 0.0
    ensures Abs(GetTurnAmount(input, magnitude, turnSpeed, dt)) == magnitude * turnSpeed * dt
  {
    assert magnitude * turnSpeed * dt > 0.0 by {
      assert magnitude * turnSpeed > 0.0 * turnSpeed;
      assert (magnitude * turnSpeed) * dt > 0.0 * dt;
    }
  }

  class ContinuousTurnProvider {
    const base: LocomotionProvider
    var turnSpeed: real
    var isTurningXROrigin: bool

    constructor (base: LocomotionProvider)
      ensures this.base == base && turnSpeed == 60.0 && !isTurningXROrigin
    {
      this.base := base;
      turnSpeed := 60.0;
      isTurningXROrigin := false;
    }

    /** TurnRig: a zero amount asks for nothing. Otherwise, if the lock can be
        had, the rig (when the system has one) is turned by the amount and
        the turning flag is set, and the lock is given back, so the arbiter
        ends as it started. */
    method TurnRig(turnAmount: real, now: real)
      requires base.Valid()
      modifies this`isTurningXROrigin, base`raised, base.system, base.RigSet()`turns
      ensures base.Valid()
      ensures base.system != null ==> base.system.State() == old(base.system.State())
      ensures var began := turnAmount != 0.0 && old(base.CanBeginLocomotion());
              isTurningXROrigin == (old(isTurningXROrigin) || (began && base.Rig() != null)) &&
              base.raised == old(base.raised) + BracketEvents(began) &&
              (base.Rig() != null ==>
                 base.Rig().turns == old(base.Rig().turns) +
                   (if began && base.Rig().hasCamera && base.Rig().hasOriginBase then [turnAmount] else []))
    {
      if turnAmount == 0.0 { return; }
      var began := base.TryBegin(now);
      if began {
        BracketRestoresLock(old(base.system.State()), base.id, now);
        var rig := base.Rig();
        if rig != null {
          isTurningXROrigin := true;
          var _ := rig.RotateAroundCameraUsingOriginUp(turnAmount);
        }
        var _ := base.EndLocomotion();
      }
    }

    /** Update: clear the turning flag, turn by this frame's amount, then step
        the phase table on whether the rig turned. */
    method Update(input: Vec2, magnitude: real, dt: real, now: real)
      requires IsMagnitude(input, magnitude) && base.Valid()
      modifies this`isTurningXROrigin, base`phase, base`raised, base.system, base.RigSet()`turns
      ensures base.Valid()
      ensures base.system != null ==> base.system.State() == old(base.system.State())
      ensures var amount := GetTurnAmount(input, magnitude, turnSpeed, dt);
              var began := amount != 0.0 && old(base.CanBeginLocomotion());
              isTurningXROrigin == (began && base.Rig() != null) &&
              base.phase == NextPhase(old(base.phase), isTurningXROrigin) &&
              base.raised == old(base.raised) + BracketEvents(began) &&
              (base.Rig() != null ==>
                 base.Rig().turns == old(base.Rig().turns) +
                   (if began && base.Rig().hasCamera && base.Rig().hasOriginBase then [amount] else []))
    {
      isTurningXROrigin := false;
      var amount := GetTurnAmount(input, magnitude, turnSpeed, dt);
      TurnRig(amount, now);
      base.phase := NextPhase(base.phase, isTurningXROrigin);
    }
  }
}
