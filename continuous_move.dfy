/** SContinuousMoveProviderBase: moves the rig while the stick is held,
    through the rig's CharacterController when it has an enabled one (with
    gravity) and by moving the origin's transform otherwise. */
module ContinuousMove {
  import opened Common
  import opened Locomotion
  import opened Provider
  import Origin

  /** ComputeDesiredMove: `translation` stands for the world-space move the
      stick asks for, a piece of vector geometry this model does not
      compute. A centred stick or a system without a rig asks for no move. */
  function ComputeDesiredMove(input: Vec2, hasRig: bool, translation: Vec3): (r: Vec3)
    ensures input == Zero2 || !hasRig ==> r == Zero3
    ensures r != translation ==> r == Zero3
  {
    if input == Zero2 || !hasRig then Zero3 else translation
  }

  /** Whether gravity acts this tick: the controller is in the air, gravity
      is on and the provider does not fly. */
  predicate Falls(grounded: bool, useGravity: bool, enableFly: bool) {
    !grounded && useGravity && !enableFly
  }

  /** One step of the vertical velocity: reset to zero unless the rig falls,
      in which case gravity * dt is added. */
  function VerticalVelocityStep(falls: bool, vv: Vec3, gravity: Vec3, dt: real): (r: Vec3)
    ensures !falls ==> r == Zero3
    ensures falls ==> r == Add(vv, Scale(gravity, dt))
  {
    if falls then Add(vv, Scale(gravity, dt)) else Zero3
  }

  /** The vertical velocity after `k` falling ticks of length `dt`. */
  function FallFor(vv: Vec3, gravity: Vec3, dt: real, k: nat): Vec3 {
    if k == 0 then vv else VerticalVelocityStep(true, FallFor(vv, gravity, dt, k - 1), gravity, dt)
  }

  /** Falling from rest for k ticks reaches gravity * (k * dt): the velocity
      accumulates linearly while the rig is in the air. */
  lemma {:induction false} FallingAccumulates(gravity: Vec3, dt: real, k: nat)
    ensures FallFor(Zero3, gravity, dt, k) == Scale(gravity, k as real * dt)
  {
    if k > 0 {
      FallingAccumulates(gravity, dt, k - 1);
    }
  }

  /** Landing (or switching gravity off, or flying) resets the velocity at
      once, however long the fall was. */
  lemma LandingStops(gravity: Vec3, dt: real, k: nat, grounded: bool, useGravity: bool, enableFly: bool)
    requires !Falls(grounded, useGravity, enableFly)
    ensures VerticalVelocityStep(Falls(grounded, useGravity, enableFly), FallFor(Zero3, gravity, dt, k), gravity, dt) == Zero3
  {
  }

  /** The gravity-mode gate: Immediately moves the rig every tick,
      AttemptingMove only while the stick is pushed or the rig is still
      moving vertically. */
  function ShouldMoveRig(mode: GravityApplicationMode, input: Vec2, vv: Vec3): (b: bool)
    ensures mode == Immediately ==> b
    ensures mode == AttemptingMove ==> (b <==> input != Zero2 || vv != Zero3)
  {
    match mode
    case Immediately => true
    case AttemptingMove => input != Zero2 || vv != Zero3
  }

  class ContinuousMoveProvider {
    const base: LocomotionProvider
    const enableFly: bool
    const useGravity: bool
    const gravityApplicationMode: GravityApplicationMode
    /** Physics.gravity. */
    const gravity: Vec3
    var characterController: Origin.CharacterController?
    var attemptedGetCharacterController: bool
    var isMovingXROrigin: bool
    var verticalVelocity: Vec3

    constructor (base: LocomotionProvider, enableFly: bool, useGravity: bool,
                 gravityApplicationMode: GravityApplicationMode, gravity: Vec3)
      ensures this.base == base && this.enableFly == enableFly && this.useGravity == useGravity
      ensures this.gravityApplicationMode == gravityApplicationMode && this.gravity == gravity
      ensures characterController == null && !attemptedGetCharacterController
      ensures !isMovingXROrigin && verticalVelocity == Zero3
    {
      this.base := base;
      this.enableFly := enableFly;
      this.useGravity := useGravity;
      this.gravityApplicationMode := gravityApplicationMode;
      this.gravity := gravity;
      characterController := null;
      attemptedGetCharacterController := false;
      isMovingXROrigin := false;
      verticalVelocity := Zero3;
    }

    /** The controllers a move may go through: the cached one and the one
        the rig carries. */
    function Controllers(): set<Origin.CharacterController>
      reads this
    {
      (if characterController == null then {} else {characterController}) +
      (if base.Rig() == null || base.Rig().characterController == null then {} else {base.Rig().characterController})
    }

    /** FindCharacterController: looks the rig's controller up once and
        caches it; later calls change nothing. */
    method FindCharacterController()
      modifies this`characterController, this`attemptedGetCharacterController
      ensures base.Rig() == null ==>
                characterController == old(characterController) &&
                attemptedGetCharacterController == old(attemptedGetCharacterController)
      ensures base.Rig() != null ==>
                characterController ==
                  (if old(characterController) == null && !old(attemptedGetCharacterController)
                   then base.Rig().characterController else old(characterController)) &&
                attemptedGetCharacterController == (old(attemptedGetCharacterController) || old(characterController) == null)
      ensures base.Rig() != null ==> characterController != null || attemptedGetCharacterController
    {
      var rig := base.Rig();
      if rig == null { return; }
      if characterController == null && !attemptedGetCharacterController {
        characterController := rig.characterController;
        attemptedGetCharacterController := true;
      }
    }

    /** What MoveRig does to the controller cache, the vertical velocity, the
        lock, the events and the rig, given the rig exists: the move goes
        through an enabled controller (after the gravity step) or else moves
        the origin, and only when the lock could be had, which is given back. */
    twostate predicate RigMoved(translation: Vec3, dt: real)
      reads this, base, base.system, base.RigSet(), Controllers()
    {
      var rig := base.Rig();
      var cc := characterController;
      var began := old(base.CanBeginLocomotion());
      rig != null &&
      cc == (if old(characterController) == null && !old(attemptedGetCharacterController)
             then rig.characterController else old(characterController)) &&
      attemptedGetCharacterController == (old(attemptedGetCharacterController) || old(characterController) == null) &&
      (base.system != null ==> base.system.State() == old(base.system.State())) &&
      base.raised == old(base.raised) + BracketEvents(began) &&
      if cc != null && cc.enabled then
        verticalVelocity == VerticalVelocityStep(Falls(cc.isGrounded, useGravity, enableFly), old(verticalVelocity), gravity, dt) &&
        cc.moves == old(cc.moves) + (if began then [Add(translation, Scale(verticalVelocity, dt))] else []) &&
        rig.originPosition == old(rig.originPosition)
      else
        verticalVelocity == old(verticalVelocity) &&
        rig.originPosition == (if began then Add(old(rig.originPosition), translation) else old(rig.originPosition))
    }

    /** MoveRig: without a rig nothing happens; otherwise the move of
        RigMoved, and the moving flag is set when the lock was had. */
    method MoveRig(translation: Vec3, dt: real, now: real)
      requires base.Valid() && (base.Rig() != null ==> base.Rig().hasOriginBase)
      modifies this`characterController, this`attemptedGetCharacterController, this`isMovingXROrigin,
               this`verticalVelocity, base`raised, base.system, base.RigSet()`originPosition, Controllers()`moves
      ensures base.Valid()
      ensures base.Rig() == null ==>
                characterController == old(characterController) &&
                attemptedGetCharacterController == old(attemptedGetCharacterController) &&
                isMovingXROrigin == old(isMovingXROrigin) && verticalVelocity == old(verticalVelocity) &&
                base.raised == old(base.raised) &&
                (base.system != null ==> base.system.State() == old(base.system.State()))
      ensures base.Rig() != null ==>
                RigMoved(translation, dt) &&
                isMovingXROrigin == (old(isMovingXROrigin) || old(base.CanBeginLocomotion()))
      // Only the cached controller, when enabled, can record a move.
      ensures forall c :: c in old(Controllers()) && !(base.Rig() != null && c == characterController && c.enabled) ==>
                c.moves == old(c.moves)
    {
      var rig := base.Rig();
      if rig == null { return; }
      FindCharacterController();
      var motion := translation;
      var cc := characterController;
      if cc != null && cc.enabled {
        verticalVelocity := VerticalVelocityStep(Falls(cc.isGrounded, useGravity, enableFly), verticalVelocity, gravity, dt);
        motion := Add(motion, Scale(verticalVelocity, dt));
        var began := base.TryBegin(now);
        if began {
          BracketRestoresLock(old(base.system.State()), base.id, now);
          isMovingXROrigin := true;
          cc.Move(motion);
          var _ := base.EndLocomotion();
        }
      } else {
        var began := base.TryBegin(now);
        if began {
          BracketRestoresLock(old(base.system.State()), base.id, now);
          isMovingXROrigin := true;
          rig.originPosition := Add(rig.originPosition, motion);
          var _ := base.EndLocomotion();
        }
      }
    }

    /** Update: clear the moving flag; with a rig, move it when the gravity
        mode asks for it, then step the phase table on whether it moved. */
    method Update(input: Vec2, translation: Vec3, dt: real, now: real)
      requires base.system != null && base.Valid()
      requires base.Rig() != null && ShouldMoveRig(gravityApplicationMode, input, verticalVelocity) ==>
                 base.Rig().hasOriginBase
      modifies this`characterController, this`attemptedGetCharacterController, this`isMovingXROrigin,
               this`verticalVelocity, base`phase, base`raised, base.system, base.RigSet()`originPosition,
               Controllers()`moves
      ensures base.Valid()
      ensures base.Rig() == null ==>
                !isMovingXROrigin && base.phase == old(base.phase) &&
                characterController == old(characterController) &&
                attemptedGetCharacterController == old(attemptedGetCharacterController) &&
                verticalVelocity == old(verticalVelocity) && base.raised == old(base.raised) &&
                base.system.State() == old(base.system.State())
      ensures base.Rig() != null ==>
                var called := ShouldMoveRig(gravityApplicationMode, input, old(verticalVelocity));
                var moved := called && old(base.CanBeginLocomotion());
                isMovingXROrigin == moved &&
                base.phase == NextPhase(old(base.phase), moved) &&
                (called ==> RigMoved(ComputeDesiredMove(input, true, translation), dt)) &&
                (!called ==>
                   characterController == old(characterController) &&
                   attemptedGetCharacterController == old(attemptedGetCharacterController) &&
                   verticalVelocity == old(verticalVelocity) && base.raised == old(base.raised) &&
                   base.system.State() == old(base.system.State()) &&
                   base.Rig().originPosition == old(base.Rig().originPosition))
      // No controller records a move unless MoveRig ran and moved the cached, enabled one.
      ensures forall c :: c in old(Controllers()) &&
                          !(base.Rig() != null && ShouldMoveRig(gravityApplicationMode, input, old(verticalVelocity)) &&
                            c == characterController && c.enabled) ==>
                c.moves == old(c.moves)
    {
      isMovingXROrigin := false;
      if base.system.xrRig == null { return; }
      var move := ComputeDesiredMove(input, true, translation);
      if ShouldMoveRig(gravityApplicationMode, input, verticalVelocity) {
        MoveRig(move, dt, now);
      }
      base.phase := NextPhase(base.phase, isMovingXROrigin);
    }
  }
}
