/** SnapTurnProviderBase: turns the rig by a fixed angle per flick of the
    stick, with an optional delay before the turn and a debounce after it. */
module SnapTurn {
  import opened Common
  import opened Locomotion
  import opened Provider
  import CardinalUtility
  import Origin

  /** The serialized settings. */
  datatype SnapConfig = SnapConfig(
    turnAmount: real,
    debounceTime: real,
    enableTurnLeftRight: bool,
    enableTurnAround: bool,
    delayTime: real)

  const DefaultConfig: SnapConfig := SnapConfig(45.0, 0.5, true, true, 0.0)

  /** The provider's phase and its three private fields. */
  datatype SnapState = SnapState(
    phase: Phase,
    currentTurnAmount: real,
    timeStarted: real,
    delayStartTime: real)

  /** GetTurnAmount: a flick to the side turns by TurnAmount (East) or by
      -TurnAmount (West) when left/right turning is on, a flick back turns
      round when turn-around is on, and everything else asks for no turn. */
  function GetTurnAmount(c: SnapConfig, input: Vec2): (r: real)
    ensures input == Zero2 ==> r == 0.0
    ensures input != Zero2 ==>
              var d := CardinalUtility.GetNearestCardinal(input);
              r == (if d == East && c.enableTurnLeftRight then c.turnAmount
                    else if d == West && c.enableTurnLeftRight then -c.turnAmount
                    else if d == South && c.enableTurnAround then 180.0
                    else 0.0)
  {
    if input == Zero2 then 0.0
    else
      match CardinalUtility.GetNearestCardinal(input)
      case North => 0.0
      case South => if c.enableTurnAround then 180.0 else 0.0
      case East => if c.enableTurnLeftRight then c.turnAmount else 0.0
      case West => if c.enableTurnLeftRight then -c.turnAmount else 0.0
  }

  /** The turn directions in terms of the stick: right of the diagonals turns
      right, left of them turns left, below them turns round, above them
      (and on them, going up) does nothing. */
  lemma TurnDirections(c: SnapConfig, input: Vec2)
    ensures c.enableTurnLeftRight && input.x > Abs(input.y) ==> GetTurnAmount(c, input) == c.turnAmount
    ensures c.enableTurnLeftRight && -input.x > Abs(input.y) ==> GetTurnAmount(c, input) == -c.turnAmount
    ensures c.enableTurnAround && input.y < 0.0 && Abs(input.x) <= -input.y ==> GetTurnAmount(c, input) == 180.0
    ensures Abs(input.x) <= input.y ==> GetTurnAmount(c, input) == 0.0
  {
    CardinalUtility.EastWestCones(input);
  }

  /** StartTurn, as a function of the state before it. `canBegin` is
      CanBeginLocomotion() at the time of the call. */
  function StartTurnStep(c: SnapConfig, s: SnapState, amount: real, canBegin: bool, now: real): (r: SnapState)
    // Nothing changes during the debounce or while the lock is taken.
    ensures s.timeStarted > 0.0 || !canBegin ==> r == s
    // From Idle the turn is Started and the delay clock starts now.
    ensures s.timeStarted <= 0.0 && canBegin ==>
              r.delayStartTime == (if s.phase == Idle then now else s.delayStartTime)
    // A zero amount keeps the pending turn; any other amount replaces it.
    ensures s.timeStarted <= 0.0 && canBegin ==>
              r.currentTurnAmount == (if amount != 0.0 then amount else s.currentTurnAmount)
    // While the delay runs the phase is Started (or what it was); after it, Moving from now.
    ensures s.timeStarted <= 0.0 && canBegin ==>
              if c.delayTime > 0.0 && now - r.delayStartTime < c.delayTime
              then r.phase == (if s.phase == Idle then Started else s.phase) && r.timeStarted == s.timeStarted
              else r.phase == Moving && r.timeStarted == now
  {
    if s.timeStarted > 0.0 || !canBegin then s
    else
      var s1 := if s.phase == Idle then s.(phase := Started, delayStartTime := now) else s;
      var s2 := if amount != 0.0 then s1.(currentTurnAmount := amount) else s1;
      if c.delayTime > 0.0 && now - s2.delayStartTime < c.delayTime then s2
      else s2.(phase := Moving, timeStarted := now)
  }

  /** What one Update does: the state after it, and the angle of the
      locomotion it performed, if it began one. */
  datatype SnapStep = SnapStep(state: SnapState, turn: Option<real>)

  /** Whether the debounce that follows a turn has run out at `now`. */
  predicate DebounceExpired(c: SnapConfig, s: SnapState, now: real) {
    s.timeStarted > 0.0 && s.timeStarted + c.debounceTime < now
  }

  /** Update, as a function of the state before it. `free` is whether the
      lock is free (the provider then both may and does get it), `hasRig`
      whether the system has an origin. */
  function SnapTick(c: SnapConfig, s: SnapState, input: Vec2, free: bool, hasRig: bool, now: real): (r: SnapStep)
    // An expired debounce only clears timeStarted.
    ensures DebounceExpired(c, s, now) ==> r == SnapStep(s.(timeStarted := 0.0), None)
    // A turn needs the lock, is by a non-zero angle, and consumes the pending amount.
    ensures r.turn.Some? ==> free && r.turn.value != 0.0 && r.state.currentTurnAmount == 0.0
    ensures r.turn.Some? ==> r.state.phase == Moving || r.state.phase == Done
    // The angle is this tick's input amount, unless there is none or a
    // debounce is running, when it is the pending amount.
    ensures r.turn.Some? ==>
              var amount := GetTurnAmount(c, input);
              r.turn.value == (if amount != 0.0 && s.timeStarted <= 0.0 then amount else s.currentTurnAmount)
    // Without a rig, a begun turn ends in Done.
    ensures r.turn.Some? && !hasRig ==> r.state.phase == Done
    // A released stick after a turn ends in Done.
    ensures r.turn.Some? && GetTurnAmount(c, input) == 0.0 ==> r.state.phase == Done
  {
    if DebounceExpired(c, s, now) then SnapStep(s.(timeStarted := 0.0), None)
    else
      var amount := GetTurnAmount(c, input);
      TurnStep(PrepareTurn(c, s, amount, free, now), amount, free, hasRig)
  }

  /** The part of Update before the lock is asked for: Done becomes Idle,
      then a non-zero amount or a Started phase goes through StartTurn, and
      otherwise a Moving phase with nothing pending becomes Done. */
  function PrepareTurn(c: SnapConfig, s: SnapState, amount: real, free: bool, now: real): (r: SnapState)
    ensures r.currentTurnAmount == (if amount != 0.0 && s.timeStarted <= 0.0 && free then amount else s.currentTurnAmount)
    // Without input, Done becomes Idle and a Moving phase with nothing pending becomes Done.
    ensures amount == 0.0 && s.phase == Done ==> r == s.(phase := Idle)
    ensures amount == 0.0 && s.phase == Moving ==>
              r == (if s.currentTurnAmount == 0.0 then s.(phase := Done) else s)
    // An Idle provider with input and a free lock starts a turn.
    ensures amount != 0.0 && s.phase == Idle && s.timeStarted <= 0.0 && free ==> r.phase != Idle
    // A turn that goes through StartTurn is Moving from now once the delay is
    // over, and waits in Started (or the phase it had) while the delay runs.
    ensures (amount != 0.0 || s.phase == Started) && s.timeStarted <= 0.0 && free ==>
              if c.delayTime > 0.0 && now - r.delayStartTime < c.delayTime
              then r.phase == (if s.phase == Idle || s.phase == Done then Started else s.phase) &&
                   r.timeStarted == s.timeStarted
              else r.phase == Moving && r.timeStarted == now
  {
    var s1 := if s.phase == Done then s.(phase := Idle) else s;
    if amount != 0.0 || s1.phase == Started then StartTurnStep(c, s1, amount, free, now)
    else if s1.currentTurnAmount == 0.0 && s1.phase == Moving then s1.(phase := Done)
    else s1
  }

  /** The part of Update that turns: in Moving with a pending amount and the
      lock granted, the pending amount is turned and consumed; the phase ends
      Done when there is no rig or the stick was released. */
  function TurnStep(s: SnapState, amount: real, free: bool, hasRig: bool): (r: SnapStep)
    ensures r.turn.Some? <==> s.phase == Moving && s.currentTurnAmount != 0.0 && free
    ensures r.turn.Some? ==> r.turn.value == s.currentTurnAmount && r.state.currentTurnAmount == 0.0
    ensures r.turn.None? ==> r.state == s
  {
    if s.phase == Moving && s.currentTurnAmount != 0.0 && free then
      var done := !hasRig || amount == 0.0;
      SnapStep(s.(currentTurnAmount := 0.0, phase := if done then Done else Moving), Some(s.currentTurnAmount))
    else SnapStep(s, None)
  }

  /** A Done phase is turned into Idle before the input is read: outside an
      expired debounce, a tick from Done behaves as a tick from Idle. */
  lemma DoneActsAsIdle(c: SnapConfig, s: SnapState, input: Vec2, free: bool, hasRig: bool, now: real)
    requires !DebounceExpired(c, s, now)
    ensures SnapTick(c, s.(phase := Done), input, free, hasRig, now) == SnapTick(c, s.(phase := Idle), input, free, hasRig, now)
  {
  }

  /** During the debounce that follows a turn no second turn happens,
      whatever the stick does. */
  lemma {:induction false} NoTurnDuringDebounce(c: SnapConfig, s: SnapState, input: Vec2, free: bool, hasRig: bool, now: real)
    requires s.timeStarted > 0.0 && s.currentTurnAmount == 0.0
    ensures SnapTick(c, s, input, free, hasRig, now).turn == None
  {
    var amount := GetTurnAmount(c, input);
    var s1 := if s.phase == Done then s.(phase := Idle) else s;
    if !DebounceExpired(c, s, now) && (amount != 0.0 || s1.phase == Started) {
      assert StartTurnStep(c, s1, amount, free, now) == s1;
    }
  }

  /** Without a delay, a flick turns at once whatever the phase: the angle
      is this tick's amount, the debounce starts now, and the provider stays
      Moving (Done without a rig). */
  lemma FlickTurnsAtOnce(c: SnapConfig, s: SnapState, input: Vec2, hasRig: bool, now: real)
    requires s.timeStarted <= 0.0 && c.delayTime <= 0.0
    requires GetTurnAmount(c, input) != 0.0
    ensures var r := SnapTick(c, s, input, true, hasRig, now);
            r.turn == Some(GetTurnAmount(c, input)) &&
            r.state.timeStarted == now &&
            r.state.phase == (if hasRig then Moving else Done)
  {
  }

  /** With a delay, a flick from Idle or Done only starts the delay clock:
      nothing turns on that tick and the provider waits in Started. */
  lemma DelayedFlickWaits(c: SnapConfig, s: SnapState, input: Vec2, hasRig: bool, now: real)
    requires s.timeStarted <= 0.0 && c.delayTime > 0.0
    requires s.phase == Idle || s.phase == Done
    requires GetTurnAmount(c, input) != 0.0
    ensures var r := SnapTick(c, s, input, true, hasRig, now);
            r.turn == None &&
            r.state == s.(phase := Started, delayStartTime := now, currentTurnAmount := GetTurnAmount(c, input))
  {
  }

  /** A Moving provider whose stick is released and that has nothing
      pending is Done after the tick. */
  lemma ReleaseEndsMoving(c: SnapConfig, s: SnapState, input: Vec2, free: bool, hasRig: bool, now: real)
    requires !DebounceExpired(c, s, now) && s.phase == Moving && s.currentTurnAmount == 0.0
    requires GetTurnAmount(c, input) == 0.0
    ensures SnapTick(c, s, input, free, hasRig, now) == SnapStep(s.(phase := Done), None)
  {
  }

  /** With the default settings a flick right at time t turns by 45 degrees
      at once; holding the stick turns no further; the debounce runs out
      half a second later; releasing the stick then ends the turn (Done)
      and the tick after that is Idle again. */
  lemma {:induction false} FlickRightScenario(t: real)
    requires t > 0.0
    ensures var s0 := SnapState(Idle, 0.0, 0.0, 0.0);
            var right := Vec2(1.0, 0.0);
            var r1 := SnapTick(DefaultConfig, s0, right, true, true, t);
            var r2 := SnapTick(DefaultConfig, r1.state, right, true, true, t + 0.1);
            var r3 := SnapTick(DefaultConfig, r2.state, right, true, true, t + 0.6);
            var r4 := SnapTick(DefaultConfig, r3.state, Zero2, true, true, t + 0.7);
            var r5 := SnapTick(DefaultConfig, r4.state, Zero2, true, true, t + 0.8);
            r1 == SnapStep(SnapState(Moving, 0.0, t, t), Some(45.0)) &&
            r2 == SnapStep(r1.state, None) &&
            r3 == SnapStep(SnapState(Moving, 0.0, 0.0, t), None) &&
            r4 == SnapStep(SnapState(Done, 0.0, 0.0, t), None) &&
            r5 == SnapStep(SnapState(Idle, 0.0, 0.0, t), None)
  {
    var right := Vec2(1.0, 0.0);
    assert CardinalUtility.GetNearestCardinal(right) == East;
    assert GetTurnAmount(DefaultConfig, right) == 45.0;
  }

  class SnapTurnProvider {
    const base: LocomotionProvider
    const config: SnapConfig
    var currentTurnAmount: real
    var timeStarted: real
    var delayStartTime: real

    function State(): SnapState
      reads this, base
    {
      SnapState(base.phase, currentTurnAmount, timeStarted, delayStartTime)
    }

    constructor (base: LocomotionProvider, config: SnapConfig)
      ensures this.base == base && this.config == config
      ensures currentTurnAmount == 0.0 && timeStarted == 0.0 && delayStartTime == 0.0
    {
      this.base := base;
      this.config := config;
      currentTurnAmount := 0.0;
      timeStarted := 0.0;
      delayStartTime := 0.0;
    }

    method StartTurn(amount: real, now: real)
      modifies this, base`phase
      ensures State() == StartTurnStep(config, old(State()), amount, base.CanBeginLocomotion(), now)
    {
      if timeStarted > 0.0 { return; }
      if !base.CanBeginLocomotion() { return; }
      if base.phase == Idle {
        base.phase := Started;
        delayStartTime := now;
      }
      if amount != 0.0 { currentTurnAmount := amount; }
      if config.delayTime > 0.0 && now - delayStartTime < config.delayTime { return; }
      base.phase := Moving;
      timeStarted := now;
    }

    /** FakeStartTurn: a left or right turn by the configured amount. */
    method FakeStartTurn(isLeft: bool, now: real)
      modifies this, base`phase
      ensures State() == StartTurnStep(config, old(State()), if isLeft then -config.turnAmount else config.turnAmount,
                                       base.CanBeginLocomotion(), now)
    {
      StartTurn(if isLeft then -config.turnAmount else config.turnAmount, now);
    }

    /** FakeStartTurnAround: a turn by 180 degrees. */
    method FakeStartTurnAround(now: real)
      modifies this, base`phase
      ensures State() == StartTurnStep(config, old(State()), 180.0, base.CanBeginLocomotion(), now)
    {
      StartTurn(180.0, now);
    }

    /** Update: one tick of the snap-turn machine. The lock is taken and given
        back within the tick, so the arbiter ends where it started; the rig is
        rotated by the tick's turn, if any. */
    method Update(input: Vec2, now: real)
      requires base.Valid()
      modifies this, base`phase, base`raised, base.system, base.RigSet()`turns
      ensures base.Valid()
      ensures var step := SnapTick(config, old(State()), input, old(base.CanBeginLocomotion()), base.Rig() != null, now);
              State() == step.state &&
              base.raised == old(base.raised) + BracketEvents(step.turn.Some?) &&
              (base.Rig() != null ==>
                 base.Rig().turns == old(base.Rig().turns) +
                   (if step.turn.Some? && base.Rig().hasCamera && base.Rig().hasOriginBase
                    then [step.turn.value] else []))
      ensures base.system != null ==> base.system.State() == old(base.system.State())
    {
      if timeStarted > 0.0 && timeStarted + config.debounceTime < now {
        timeStarted := 0.0;
        return;
      }
      var amount := GetTurnAmount(config, input);
      Prepare(amount, now);
      Turn(amount, now);
    }

    /** Update up to the lock request. */
    method Prepare(amount: real, now: real)
      modifies this, base`phase
      ensures State() == PrepareTurn(config, old(State()), amount, base.CanBeginLocomotion(), now)
    {
      if base.phase == Done { base.phase := Idle; }
      if amount != 0.0 || base.phase == Started {
        StartTurn(amount, now);
      } else if currentTurnAmount == 0.0 && base.phase == Moving {
        base.phase := Done;
      }
    }

    /** Update from the lock request on: begin, rotate the rig (or end in
        Done without one), consume the pending amount, end. */
    method Turn(amount: real, now: real)
      requires base.Valid()
      modifies this, base`phase, base`raised, base.system, base.RigSet()`turns
      ensures base.Valid()
      ensures var step := TurnStep(old(State()), amount, old(base.CanBeginLocomotion()), base.Rig() != null);
              State() == step.state &&
              base.raised == old(base.raised) + BracketEvents(step.turn.Some?) &&
              (base.Rig() != null ==>
                 base.Rig().turns == old(base.Rig().turns) +
                   (if step.turn.Some? && base.Rig().hasCamera && base.Rig().hasOriginBase
                    then [step.turn.value] else []))
      ensures base.system != null ==> base.system.State() == old(base.system.State())
    {
      if base.phase == Moving && currentTurnAmount != 0.0 {
        var began := base.BeginLocomotion(now);
        if began {
          BracketRestoresLock(old(base.system.State()), base.id, now);
          var rig := base.Rig();
          if rig != null {
            var _ := rig.RotateAroundCameraUsingOriginUp(currentTurnAmount);
          } else {
            base.phase := Done;
          }
          currentTurnAmount := 0.0;
          var _ := base.EndLocomotion();
          if amount == 0.0 { base.phase := Done; }
        }
      }
    }
  }
}
