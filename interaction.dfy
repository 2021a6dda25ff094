/** SInteractionState and SXRControllerState: the per-frame state of a
    controller's select, activate and UI-press interactions, with the edges
    (activated or deactivated this frame) derived from the last frame. */
module Interaction {
  import opened Common

  /** SInteractionState, a value type. */
  datatype InteractionState = InteractionState(
    value: real,
    active: bool,
    activatedThisFrame: bool,
    deactivatedThisFrame: bool)

  /** default(SInteractionState). */
  const Inactive: InteractionState := InteractionState(0.0, false, false, false)

  /** SetFrameState(isActive, newValue): stores the value and the new active
      state; the state is activated this frame exactly when it was inactive
      and is now active, and deactivated exactly when the reverse. */
  function SetFrameState(s: InteractionState, isActive: bool, newValue: real): (r: InteractionState)
    ensures r.value == newValue && r.active == isActive
    ensures r.activatedThisFrame <==> !s.active && r.active
    ensures r.deactivatedThisFrame <==> s.active && !r.active
  {
    InteractionState(newValue, isActive, !s.active && isActive, s.active && !isActive)
  }

  /** SetFrameState(isActive): the value is 1 when active and 0 otherwise. */
  function SetFrameStateActive(s: InteractionState, isActive: bool): (r: InteractionState)
    ensures r == SetFrameState(s, isActive, if isActive then 1.0 else 0.0)
    ensures r.value == 1.0 <==> r.active
  {
    SetFrameState(s, isActive, if isActive then 1.0 else 0.0)
  }

  /** SetFrameDependent(wasActive): recomputes the two edges against the
      given previous state; value and active are kept. */
  function SetFrameDependent(s: InteractionState, wasActive: bool): (r: InteractionState)
    ensures r.value == s.value && r.active == s.active
    ensures r.activatedThisFrame <==> !wasActive && s.active
    ensures r.deactivatedThisFrame <==> wasActive && !s.active
  {
    s.(activatedThisFrame := !wasActive && s.active, deactivatedThisFrame := wasActive && !s.active)
  }

  /** ResetFrameDependent: clears both edges and nothing else. */
  function ResetFrameDependent(s: InteractionState): (r: InteractionState)
    ensures !r.activatedThisFrame && !r.deactivatedThisFrame
    ensures r.value == s.value && r.active == s.active
  {
    s.(activatedThisFrame := false, deactivatedThisFrame := false)
  }

  /** A state is never activated and deactivated in the same frame. */
  predicate EdgesExclusive(s: InteractionState) {
    !(s.activatedThisFrame && s.deactivatedThisFrame)
  }

  /** Every way of setting the edges keeps them exclusive. */
  lemma EdgesNeverBoth(s: InteractionState, isActive: bool, v: real, wasActive: bool)
    ensures EdgesExclusive(SetFrameState(s, isActive, v))
    ensures EdgesExclusive(SetFrameStateActive(s, isActive))
    ensures EdgesExclusive(SetFrameDependent(s, wasActive))
    ensures EdgesExclusive(ResetFrameDependent(s))
  {
  }

  /** Reporting the same active state twice in a row: the second frame has
      no edge, whatever the values. */
  lemma {:induction false} RepeatHasNoEdge(s: InteractionState, isActive: bool, v1: real, v2: real)
    ensures var r := SetFrameState(SetFrameState(s, isActive, v1), isActive, v2);
            !r.activatedThisFrame && !r.deactivatedThisFrame
  {
  }

  /** SetFrameState is SetFrameDependent against the old active state after
      storing the new value and active state. */
  lemma FrameStateIsFrameDependent(s: InteractionState, isActive: bool, v: real)
    ensures SetFrameState(s, isActive, v) == SetFrameDependent(s.(value := v, active := isActive), s.active)
  {
  }

  /** Setting the frame state overwrites both edges, so clearing them first
      (as UpdateInput does) makes no difference: the edges always compare
      with the previous frame's active state. */
  lemma ResetThenSetIsSet(s: InteractionState, isActive: bool, v: real)
    ensures SetFrameState(ResetFrameDependent(s), isActive, v) == SetFrameState(s, isActive, v)
  {
  }

  /** The fields of an SXRControllerState, as one value. */
  datatype ControllerSnapshot = ControllerSnapshot(
    time: real,
    inputTrackingState: bv32,
    position: Vec3,
    rotation: Quat,
    select: InteractionState,
    activate: InteractionState,
    uiPress: InteractionState)

  const DefaultSnapshot: ControllerSnapshot :=
    ControllerSnapshot(0.0, TrackingNone, Zero3, IdentityRotation, Inactive, Inactive, Inactive)

  /** SXRControllerState. */
  class XRControllerState {
    var time: real
    var inputTrackingState: bv32
    var position: Vec3
    var rotation: Quat
    var selectInteractionState: InteractionState
    var activateInteractionState: InteractionState
    var uiPressInteractionState: InteractionState

    function Snapshot(): ControllerSnapshot
      reads this
    {
      ControllerSnapshot(time, inputTrackingState, position, rotation,
                         selectInteractionState, activateInteractionState, uiPressInteractionState)
    }

    /** The default constructor: time 0, origin, identity rotation, no
        tracking, inactive interactions. */
    constructor ()
      ensures Snapshot() == DefaultSnapshot
      ensures time == 0.0 && position == Zero3 && rotation == IdentityRotation
      ensures inputTrackingState == TrackingNone
      ensures selectInteractionState == Inactive && activateInteractionState == Inactive
      ensures uiPressInteractionState == Inactive
    {
      time := 0.0;
      position := Zero3;
      rotation := IdentityRotation;
      inputTrackingState := TrackingNone;
      selectInteractionState := Inactive;
      activateInteractionState := Inactive;
      uiPressInteractionState := Inactive;
    }

    /** The copy constructor: every field of `value`. */
    constructor Copy(value: XRControllerState)
      ensures Snapshot() == value.Snapshot()
    {
      time := value.time;
      position := value.position;
      rotation := value.rotation;
      inputTrackingState := value.inputTrackingState;
      selectInteractionState := value.selectInteractionState;
      activateInteractionState := value.activateInteractionState;
      uiPressInteractionState := value.uiPressInteractionState;
    }

    /** The constructor from active flags: each interaction is set from the
        default state, so an active one is activated this frame with value 1. */
    constructor WithActive(time: real, position: Vec3, rotation: Quat, inputTrackingState: bv32,
                           selectActive: bool, activateActive: bool, pressActive: bool)
      ensures this.time == time && this.position == position && this.rotation == rotation
      ensures this.inputTrackingState == inputTrackingState
      ensures selectInteractionState == SetFrameStateActive(Inactive, selectActive)
      ensures activateInteractionState == SetFrameStateActive(Inactive, activateActive)
      ensures uiPressInteractionState == SetFrameStateActive(Inactive, pressActive)
    {
      this.time := time;
      this.position := position;
      this.rotation := rotation;
      this.inputTrackingState := inputTrackingState;
      selectInteractionState := SetFrameStateActive(Inactive, selectActive);
      activateInteractionState := SetFrameStateActive(Inactive, activateActive);
      uiPressInteractionState := SetFrameStateActive(Inactive, pressActive);
    }

    /** The constructor from active flags and values. */
    constructor WithValues(time: real, position: Vec3, rotation: Quat, inputTrackingState: bv32,
                           selectActive: bool, activateActive: bool, pressActive: bool,
                           selectValue: real, activateValue: real, pressValue: real)
      ensures this.time == time && this.position == position && this.rotation == rotation
      ensures this.inputTrackingState == inputTrackingState
      ensures selectInteractionState == SetFrameState(Inactive, selectActive, selectValue)
      ensures activateInteractionState == SetFrameState(Inactive, activateActive, activateValue)
      ensures uiPressInteractionState == SetFrameState(Inactive, pressActive, pressValue)
    {
      this.time := time;
      this.position := position;
      this.rotation := rotation;
      this.inputTrackingState := inputTrackingState;
      selectInteractionState := SetFrameState(Inactive, selectActive, selectValue);
      activateInteractionState := SetFrameState(Inactive, activateActive, activateValue);
      uiPressInteractionState := SetFrameState(Inactive, pressActive, pressValue);
    }

    /** ResetFrameDependentStates: clears the edges of all three
        interactions and changes nothing else. */
    method ResetFrameDependentStates()
      modifies this`selectInteractionState, this`activateInteractionState, this`uiPressInteractionState
      ensures selectInteractionState == ResetFrameDependent(old(selectInteractionState))
      ensures activateInteractionState == ResetFrameDependent(old(activateInteractionState))
      ensures uiPressInteractionState == ResetFrameDependent(old(uiPressInteractionState))
    {
      selectInteractionState := ResetFrameDependent(selectInteractionState);
      activateInteractionState := ResetFrameDependent(activateInteractionState);
      uiPressInteractionState := ResetFrameDependent(uiPressInteractionState);
    }
  }
}
