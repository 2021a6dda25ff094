/** SActionBasedController: fills a controller state from Input System
    actions, the pose and its tracking flags on one side and the select,
    activate and UI-press interactions on the other. */
module ActionBased {
  import opened Common
  import opened Interaction

  /** The kind of an action's active control, which decides how ReadValue reads
      it. In the Input System a button control is an axis control as well. */
  datatype ControlKind = ButtonControl | AxisControl | Vector2Control | OtherControl

  /** A TrackedDevice and the raw value of its trackingState control. */
  datatype TrackedDevice = TrackedDevice(id: nat, trackingState: int)

  /** What the model sees of an InputAction: its binding count, whether it is
      enabled, its active control's kind and device, and what its reads
      return this frame. `pressed` is IsPressed's answer, which depends on
      the Input System version. */
  datatype InputAction = InputAction(
    bindingCount: nat,
    enabled: bool,
    control: ControlKind,
    device: Option<TrackedDevice>,
    pressed: bool,
    floatValue: real,
    vector2Magnitude: real,
    intValue: int,
    vector3Value: Vec3,
    quaternionValue: Quat)

  datatype InputActionReference = InputActionReference(action: Option<InputAction>)

  /** InputActionProperty: the action it resolves to, and the reference it
      came from when it uses one. */
  datatype InputActionProperty = InputActionProperty(action: Option<InputAction>, reference: Option<InputActionReference>)

  /** The controller's actions. */
  datatype ActionSet = ActionSet(
    position: InputActionProperty,
    rotation: InputActionProperty,
    trackingState: InputActionProperty,
    select: InputActionProperty,
    selectValue: InputActionProperty,
    activate: InputActionProperty,
    activateValue: InputActionProperty,
    uiPress: InputActionProperty,
    uiPressValue: InputActionProperty)

  /** The warnings the controller logs about disabled referenced actions. */
  datatype Warning = TrackingActionsDisabled | InputActionsDisabled

  predicate IsDisabledReferenceAction(p: InputActionProperty) {
    p.reference.Some? && p.reference.value.action.Some? && !p.reference.value.action.value.enabled
  }

  /** The 32 low bits of an int, as an unsigned value: values already in
      range are kept, and every other value is moved into range by a whole
      number of 2^32 steps. */
  function WrapToUInt32(v: int): (r: int)
    ensures 0 <= r < 0x1_0000_0000
    ensures 0 <= v < 0x1_0000_0000 ==> r == v
    ensures (v - r) % 0x1_0000_0000 == 0
  {
    v % 0x1_0000_0000
  }

  /** The cast of an int read from an action to InputTrackingState, whose
      underlying type is a 32-bit unsigned integer: the bits are kept, so
      negative values wrap around. */
  function ToTrackingState(v: int): bv32 {
    WrapToUInt32(v) as bv32
  }

  /** The cast forgets whole multiples of 2^32: -1 and 2^32 - 1 give the same
      flags. */
  lemma TrackingStateWraps(v: int)
    ensures ToTrackingState(v + 0x1_0000_0000) == ToTrackingState(v)
  {
    assert WrapToUInt32(v + 0x1_0000_0000) == WrapToUInt32(v) by {
      assert (v + 0x1_0000_0000) % 0x1_0000_0000 == v % 0x1_0000_0000;
    }
  }

  /** IsPressed: false for a missing action. */
  function IsPressed(a: Option<InputAction>): (b: bool)
    ensures a.None? ==> !b
    ensures a.Some? ==> b == a.value.pressed
  {
    a.Some? && a.value.pressed
  }

  /** ReadValue: 0 for a missing action; the float of an axis, a button
      being an axis too; the length of a 2D vector; otherwise 1 when pressed
      and 0 when not. */
  function ReadValue(a: Option<InputAction>): (r: real)
    ensures a.None? ==> r == 0.0
    ensures a.Some? && (a.value.control == AxisControl || a.value.control == ButtonControl) ==>
              r == a.value.floatValue
    ensures a.Some? && a.value.control == Vector2Control ==> r == a.value.vector2Magnitude
    ensures a.Some? && a.value.control == OtherControl ==>
              (r == 1.0 <==> IsPressed(a)) && (r == 0.0 <==> !IsPressed(a))
  {
    if a.None? then 0.0
    else if a.value.control == AxisControl || a.value.control == ButtonControl then a.value.floatValue
    else if a.value.control == Vector2Control then a.value.vector2Magnitude
    else if IsPressed(a) then 1.0 else 0.0
  }

  /** The action a value is read from: the value action when it exists and
      has a binding, the press action otherwise. */
  function ValueActionFor(value: InputActionProperty, press: InputActionProperty): (r: Option<InputAction>)
    ensures value.action.Some? && value.action.value.bindingCount > 0 ==> r == value.action
    ensures !(value.action.Some? && value.action.value.bindingCount > 0) ==> r == press.action
  {
    if value.action.None? || value.action.value.bindingCount <= 0 then press.action else value.action
  }

  /** With no usable value action, the value is read from the press action:
      a button or an axis gives its own float, and a control that is neither
      an axis nor a 2D vector reads 1 exactly when it is pressed, so the
      interaction's value agrees with its active state. */
  lemma FallbackValueFollowsPress(value: InputActionProperty, press: InputActionProperty)
    requires value.action.None? || value.action.value.bindingCount == 0
    requires press.action.Some?
    ensures press.action.value.control == ButtonControl || press.action.value.control == AxisControl ==>
              ReadValue(ValueActionFor(value, press)) == press.action.value.floatValue
    ensures press.action.value.control == OtherControl ==>
              ReadValue(ValueActionFor(value, press)) == (if IsPressed(press.action) then 1.0 else 0.0)
  {
  }

  function DeviceOf(a: Option<InputAction>): Option<TrackedDevice> {
    if a.None? then None else a.value.device
  }

  function DeviceState(d: Option<TrackedDevice>): bv32 {
    if d.None? then TrackingNone else ToTrackingState(d.value.trackingState)
  }

  /** The tracking flags of UpdateTrackingInput: a tracking-state action
      with a binding gives them directly; otherwise they come from the
      devices behind the position and rotation actions. */
  function ComputeTrackingState(a: ActionSet): (r: bv32)
    ensures a.trackingState.action.Some? && a.trackingState.action.value.bindingCount > 0 ==>
              r == ToTrackingState(a.trackingState.action.value.intValue)
    ensures !(a.trackingState.action.Some? && a.trackingState.action.value.bindingCount > 0) ==>
              (r & TrackingPosition != 0 ==> DeviceOf(a.position.action).Some?) &&
              (r & TrackingRotation != 0 ==> DeviceOf(a.rotation.action).Some?)
  {
    var ts := a.trackingState.action;
    if ts.Some? && ts.value.bindingCount > 0 then ToTrackingState(ts.value.intValue)
    else
      var posDevice := DeviceOf(a.position.action);
      var rotDevice := DeviceOf(a.rotation.action);
      if posDevice != rotDevice
      then (DeviceState(posDevice) & TrackingPosition) | (DeviceState(rotDevice) & TrackingRotation)
      else DeviceState(posDevice)
  }

  /** A bound tracking-state action decides the flags on its own. */
  lemma TrackingActionDecides(a: ActionSet)
    requires a.trackingState.action.Some? && a.trackingState.action.value.bindingCount > 0
    ensures ComputeTrackingState(a) == ToTrackingState(a.trackingState.action.value.intValue)
  {
  }

  /** Two different devices: the position device supplies only the Position
      flag and the rotation device only the Rotation flag; no other flag is
      set. A missing device supplies nothing. */
  lemma SplitDevicesSupplyOneFlagEach(a: ActionSet)
    requires a.trackingState.action.None? || a.trackingState.action.value.bindingCount == 0
    requires DeviceOf(a.position.action) != DeviceOf(a.rotation.action)
    ensures ComputeTrackingState(a) & TrackingPosition == DeviceState(DeviceOf(a.position.action)) & TrackingPosition
    ensures ComputeTrackingState(a) & TrackingRotation == DeviceState(DeviceOf(a.rotation.action)) & TrackingRotation
    ensures ComputeTrackingState(a) & !(TrackingPosition | TrackingRotation) == 0
    ensures DeviceOf(a.position.action).None? ==> ComputeTrackingState(a) & TrackingPosition == 0
    ensures DeviceOf(a.rotation.action).None? ==> ComputeTrackingState(a) & TrackingRotation == 0
  {
  }

  /** One device behind both actions: its flags are used whole. */
  lemma SharedDeviceSuppliesAllFlags(a: ActionSet)
    requires a.trackingState.action.None? || a.trackingState.action.value.bindingCount == 0
    requires DeviceOf(a.position.action) == DeviceOf(a.rotation.action)
    ensures ComputeTrackingState(a) == DeviceState(DeviceOf(a.position.action))
  {
  }

  /** UpdateTrackingInput on a controller state: the flags are recomputed,
      and the pose is overwritten only where its action exists and the
      matching flag is set; nothing else changes. */
  function UpdateTracking(a: ActionSet, s: ControllerSnapshot): (r: ControllerSnapshot)
    ensures r.inputTrackingState == ComputeTrackingState(a)
    ensures a.position.action.Some? && r.inputTrackingState & TrackingPosition != 0 ==>
              r.position == a.position.action.value.vector3Value
    ensures !(a.position.action.Some? && r.inputTrackingState & TrackingPosition != 0) ==> r.position == s.position
    ensures a.rotation.action.Some? && r.inputTrackingState & TrackingRotation != 0 ==>
              r.rotation == a.rotation.action.value.quaternionValue
    ensures !(a.rotation.action.Some? && r.inputTrackingState & TrackingRotation != 0) ==> r.rotation == s.rotation
    ensures r.time == s.time && r.select == s.select && r.activate == s.activate && r.uiPress == s.uiPress
  {
    var flags := ComputeTrackingState(a);
    var pos := a.position.action;
    var rot := a.rotation.action;
    s.(inputTrackingState := flags,
       position := if pos.Some? && flags & TrackingPosition != 0 then pos.value.vector3Value else s.position,
       rotation := if rot.Some? && flags & TrackingRotation != 0 then rot.value.quaternionValue else s.rotation)
  }

  /** One interaction of UpdateInput: edges cleared, then the frame state
      set from the press action and the value read from the value action
      (or the press action). */
  function UpdateInteraction(s: InteractionState, press: InputActionProperty, value: InputActionProperty): InteractionState {
    SetFrameState(ResetFrameDependent(s), IsPressed(press.action), ReadValue(ValueActionFor(value, press)))
  }

  /** UpdateInput on a controller state: each interaction becomes active
      exactly when its press action is pressed, takes its value from the
      value action or its fallback, and has an edge exactly when its active
      state changed since the last frame; the pose is untouched. */
  function UpdateInteractions(a: ActionSet, s: ControllerSnapshot): (r: ControllerSnapshot)
    ensures r.select.active == IsPressed(a.select.action)
    ensures r.select.value == ReadValue(ValueActionFor(a.selectValue, a.select))
    ensures r.select.activatedThisFrame <==> !s.select.active && r.select.active
    ensures r.select.deactivatedThisFrame <==> s.select.active && !r.select.active
    ensures r.activate.active == IsPressed(a.activate.action)
    ensures r.activate.value == ReadValue(ValueActionFor(a.activateValue, a.activate))
    ensures r.activate.activatedThisFrame <==> !s.activate.active && r.activate.active
    ensures r.activate.deactivatedThisFrame <==> s.activate.active && !r.activate.active
    ensures r.uiPress.active == IsPressed(a.uiPress.action)
    ensures r.uiPress.value == ReadValue(ValueActionFor(a.uiPressValue, a.uiPress))
    ensures r.uiPress.activatedThisFrame <==> !s.uiPress.active && r.uiPress.active
    ensures r.uiPress.deactivatedThisFrame <==> s.uiPress.active && !r.uiPress.active
    ensures r.time == s.time && r.inputTrackingState == s.inputTrackingState
    ensures r.position == s.position && r.rotation == s.rotation
  {
    s.(select := UpdateInteraction(s.select, a.select, a.selectValue),
       activate := UpdateInteraction(s.activate, a.activate, a.activateValue),
       uiPress := UpdateInteraction(s.uiPress, a.uiPress, a.uiPressValue))
  }

  /** Tracking and input write disjoint parts of the state, so the order in
      which a frame runs them does not matter. */
  lemma TrackingAndInputCommute(a: ActionSet, s: ControllerSnapshot)
    ensures UpdateInteractions(a, UpdateTracking(a, s)) == UpdateTracking(a, UpdateInteractions(a, s))
  {
  }

  /** The parts of SActionBasedController that are its own: its actions and
      the two warned-once flags. */
  class ActionBasedInput {
    var actions: ActionSet
    var hasCheckedDisabledTrackingInputReferenceActions: bool
    var hasCheckedDisabledInputReferenceActions: bool
    /** The warnings logged so far. */
    var warnings: seq<Warning>

    /** Each warning is logged at most once, and only once its check has run. */
    predicate Valid()
      reads this
    {
      multiset(warnings)[TrackingActionsDisabled] <= (if hasCheckedDisabledTrackingInputReferenceActions then 1 else 0) &&
      multiset(warnings)[InputActionsDisabled] <= (if hasCheckedDisabledInputReferenceActions then 1 else 0)
    }

    constructor (actions: ActionSet)
      ensures Valid() && this.actions == actions && warnings == []
      ensures !hasCheckedDisabledTrackingInputReferenceActions && !hasCheckedDisabledInputReferenceActions
    {
      this.actions := actions;
      hasCheckedDisabledTrackingInputReferenceActions := false;
      hasCheckedDisabledInputReferenceActions := false;
      warnings := [];
    }

    /** UpdateTrackingInput: nothing for a null state. Otherwise the warning
        check runs once there is a pose action, and the state gets the
        flags and pose of UpdateTracking. */
    method UpdateTrackingInput(state: XRControllerState?)
      requires Valid()
      modifies this`hasCheckedDisabledTrackingInputReferenceActions, this`warnings, state
      ensures Valid()
      ensures state == null ==>
                hasCheckedDisabledTrackingInputReferenceActions == old(hasCheckedDisabledTrackingInputReferenceActions) &&
                warnings == old(warnings)
      ensures state != null ==>
                var hasPose := actions.position.action.Some? || actions.rotation.action.Some?;
                var check := !old(hasCheckedDisabledTrackingInputReferenceActions) && hasPose;
                state.Snapshot() == UpdateTracking(actions, old(state.Snapshot())) &&
                hasCheckedDisabledTrackingInputReferenceActions == (old(hasCheckedDisabledTrackingInputReferenceActions) || hasPose) &&
                warnings == old(warnings) +
                  (if check && (IsDisabledReferenceAction(actions.position) || IsDisabledReferenceAction(actions.rotation))
                   then [TrackingActionsDisabled] else [])
    {
      if state == null { return; }
      var posAction := actions.position.action;
      var rotAction := actions.rotation.action;
      if !hasCheckedDisabledTrackingInputReferenceActions && (posAction.Some? || rotAction.Some?) {
        if IsDisabledReferenceAction(actions.position) || IsDisabledReferenceAction(actions.rotation) {
          warnings := warnings + [TrackingActionsDisabled];
        }
        hasCheckedDisabledTrackingInputReferenceActions := true;
      }
      var next := UpdateTracking(actions, state.Snapshot());
      state.inputTrackingState := next.inputTrackingState;
      state.position := next.position;
      state.rotation := next.rotation;
    }

    /** UpdateInput: nothing for a null state. Otherwise the warning check
        runs once there is a press action, the edges are cleared, and the
        three interactions are set as UpdateInteractions says. */
    method UpdateInput(state: XRControllerState?)
      requires Valid()
      modifies this`hasCheckedDisabledInputReferenceActions, this`warnings, state
      ensures Valid()
      ensures state == null ==>
                hasCheckedDisabledInputReferenceActions == old(hasCheckedDisabledInputReferenceActions) &&
                warnings == old(warnings)
      ensures state != null ==>
                var hasPress := actions.select.action.Some? || actions.activate.action.Some? || actions.uiPress.action.Some?;
                var check := !old(hasCheckedDisabledInputReferenceActions) && hasPress;
                state.Snapshot() == UpdateInteractions(actions, old(state.Snapshot())) &&
                hasCheckedDisabledInputReferenceActions == (old(hasCheckedDisabledInputReferenceActions) || hasPress) &&
                warnings == old(warnings) +
                  (if check && (IsDisabledReferenceAction(actions.select) || IsDisabledReferenceAction(actions.activate) ||
                                IsDisabledReferenceAction(actions.uiPress))
                   then [InputActionsDisabled] else [])
    {
      if state == null { return; }
      if !hasCheckedDisabledInputReferenceActions &&
         (actions.select.action.Some? || actions.activate.action.Some? || actions.uiPress.action.Some?) {
        if IsDisabledReferenceAction(actions.select) || IsDisabledReferenceAction(actions.activate) ||
           IsDisabledReferenceAction(actions.uiPress) {
          warnings := warnings + [InputActionsDisabled];
        }
        hasCheckedDisabledInputReferenceActions := true;
      }
      state.ResetFrameDependentStates();
      var selectValueAction := ValueActionFor(actions.selectValue, actions.select);
      state.selectInteractionState :=
        SetFrameState(state.selectInteractionState, IsPressed(actions.select.action), ReadValue(selectValueAction));
      var activateValueAction := ValueActionFor(actions.activateValue, actions.activate);
      state.activateInteractionState :=
        SetFrameState(state.activateInteractionState, IsPressed(actions.activate.action), ReadValue(activateValueAction));
      var uiPressValueAction := ValueActionFor(actions.uiPressValue, actions.uiPress);
      state.uiPressInteractionState :=
        SetFrameState(state.uiPressInteractionState, IsPressed(actions.uiPress.action), ReadValue(uiPressValueAction));
    }
  }
}
