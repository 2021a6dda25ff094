/** SXRBaseController: schedules when a controller samples its tracking and
    input, and applies the controller state to the controller's interaction
    states and transform in each frame phase. The sampling itself is the
    action-based controller's (module ActionBased). */
module BaseController {
  import opened Common
  import opened Interaction
  import opened ActionBased

  /** SXRInteractionUpdateOrder.EUpdatePhase. Its `Fixed` is written
      `UpdatePhase.Fixed`, as `UpdateType` has a `Fixed` too. */
  datatype UpdatePhase = Fixed | Dynamic | Late | OnBeforeRender

  /** Whether tracking is sampled in a frame phase: Update samples in the
      dynamic phase, BeforeRender before rendering, UpdateAndBeforeRender in
      both, Fixed in the fixed step, and nothing samples when tracking is
      disabled or in the late phase. */
  predicate SamplesTracking(enabled: bool, t: UpdateType, p: UpdatePhase): (b: bool)
    ensures b ==> enabled && p != Late
    ensures enabled && t == UpdateType.Update ==> (b <==> p == Dynamic)
    ensures enabled && t == BeforeRender ==> (b <==> p == OnBeforeRender)
    ensures enabled && t == UpdateAndBeforeRender ==> (b <==> p == Dynamic || p == OnBeforeRender)
    ensures enabled && t == UpdateType.Fixed ==> (b <==> p == UpdatePhase.Fixed)
  {
    enabled &&
    match p
    case Dynamic => t == UpdateType.Update || t == UpdateAndBeforeRender
    case OnBeforeRender => t == BeforeRender || t == UpdateAndBeforeRender
    case Fixed => t == UpdateType.Fixed
    case Late => false
  }

  /** With tracking enabled every update type samples in some phase; only
      UpdateAndBeforeRender samples twice a frame; the fixed step never
      shares with the others; disabled tracking and the late phase never
      sample. */
  lemma SchedulingCoversEveryType(enabled: bool, t: UpdateType)
    ensures !SamplesTracking(enabled, t, Late)
    ensures !enabled ==> forall p :: !SamplesTracking(enabled, t, p)
    ensures enabled ==> SamplesTracking(enabled, t, Dynamic) || SamplesTracking(enabled, t, OnBeforeRender) ||
                        SamplesTracking(enabled, t, UpdatePhase.Fixed)
    ensures SamplesTracking(enabled, t, Dynamic) && SamplesTracking(enabled, t, OnBeforeRender) <==>
              enabled && t == UpdateAndBeforeRender
    ensures SamplesTracking(enabled, t, UpdatePhase.Fixed) ==>
              !SamplesTracking(enabled, t, Dynamic) && !SamplesTracking(enabled, t, OnBeforeRender)
  {
  }

  /** What a controller shows of its state: its three interaction states and
      its transform's local pose. */
  datatype ControllerView = ControllerView(
    select: InteractionState,
    activate: InteractionState,
    uiPress: InteractionState,
    localPosition: Vec3,
    localRotation: Quat)

  /** ApplyControllerState on a non-null state. The dynamic phase copies the
      interaction states; the dynamic, before-render and fixed phases write
      the local position when the Position flag is set and the local rotation
      when the Rotation flag is set; the late phase changes nothing. */
  function ApplyState(phase: UpdatePhase, s: ControllerSnapshot, v: ControllerView): (r: ControllerView)
    ensures phase == Late ==> r == v
    ensures phase == Dynamic ==> r.select == s.select && r.activate == s.activate && r.uiPress == s.uiPress
    ensures phase != Dynamic ==> r.select == v.select && r.activate == v.activate && r.uiPress == v.uiPress
    ensures r.localPosition == (if phase != Late && s.inputTrackingState & TrackingPosition != 0 then s.position else v.localPosition)
    ensures r.localRotation == (if phase != Late && s.inputTrackingState & TrackingRotation != 0 then s.rotation else v.localRotation)
  {
    var synced := if phase == Dynamic then v.(select := s.select, activate := s.activate, uiPress := s.uiPress) else v;
    if phase == Late then synced
    else
      synced.(localPosition := if s.inputTrackingState & TrackingPosition != 0 then s.position else synced.localPosition,
              localRotation := if s.inputTrackingState & TrackingRotation != 0 then s.rotation else synced.localRotation)
  }

  /** Applying the same state twice is applying it once, and applying it
      before rendering after the dynamic phase of the same frame changes
      nothing: the pose written is the state's own. */
  lemma {:induction false} ApplyIsIdempotent(phase: UpdatePhase, s: ControllerSnapshot, v: ControllerView)
    ensures ApplyState(phase, s, ApplyState(phase, s, v)) == ApplyState(phase, s, v)
    ensures ApplyState(OnBeforeRender, s, ApplyState(Dynamic, s, v)) == ApplyState(Dynamic, s, v)
  {
    var once := ApplyState(phase, s, v);
    var twice := ApplyState(phase, s, once);
    assert twice.localPosition == once.localPosition;
    assert twice.localRotation == once.localRotation;
    var dyn := ApplyState(Dynamic, s, v);
    var render := ApplyState(OnBeforeRender, s, dyn);
    assert render.localPosition == dyn.localPosition;
    assert render.localRotation == dyn.localRotation;
  }

  /** A pose with neither flag set is never written, whatever the phase. */
  lemma UntrackedPoseIsKept(phase: UpdatePhase, s: ControllerSnapshot, v: ControllerView)
    requires s.inputTrackingState & (TrackingPosition | TrackingRotation) == 0
    ensures ApplyState(phase, s, v).localPosition == v.localPosition
    ensures ApplyState(phase, s, v).localRotation == v.localRotation
  {
    assert s.inputTrackingState & TrackingPosition == 0;
    assert s.inputTrackingState & TrackingRotation == 0;
  }

  /** The controller state after the dynamic phase's sampling: tracking
      first when it is sampled there, then input when input actions are
      enabled. */
  function DynamicSample(a: ActionSet, track: bool, readInput: bool, s: ControllerSnapshot): ControllerSnapshot {
    var tracked := if track then UpdateTracking(a, s) else s;
    if readInput then UpdateInteractions(a, tracked) else tracked
  }

  /** SXRBaseController, with its one subclass's sampling in `input`. */
  class XRBaseController {
    const input: ActionBasedInput
    var updateTrackingType: UpdateType
    var enableInputTracking: bool
    var enableInputActions: bool
    /** Whether modelPrefab is set. */
    const hasModelPrefab: bool
    /** Whether `model` is set, and whether its game object is active. */
    var hasModel: bool
    var modelActive: bool
    var hideControllerModel: bool
    var selectInteractionState: InteractionState
    var activateInteractionState: InteractionState
    var uiPressInteractionState: InteractionState
    var controllerState: XRControllerState?
    var createControllerState: bool
    var performSetup: bool
    /** The transform's local pose. */
    var localPosition: Vec3
    var localRotation: Quat

    function View(): ControllerView
      reads this
    {
      ControllerView(selectInteractionState, activateInteractionState, uiPressInteractionState, localPosition, localRotation)
    }

    predicate Tracks(phase: UpdatePhase)
      reads this
    {
      SamplesTracking(enableInputTracking, updateTrackingType, phase)
    }

    /** Whether the next setup will create a controller state. */
    predicate WillCreateState()
      reads this
    {
      performSetup && controllerState == null && createControllerState
    }

    /** The serialized defaults: tracking and input enabled, sampled in Update
        and before rendering, setup pending, state to be created. */
    constructor (input: ActionBasedInput, hasModelPrefab: bool)
      ensures this.input == input && this.hasModelPrefab == hasModelPrefab
      ensures updateTrackingType == UpdateAndBeforeRender && enableInputTracking && enableInputActions
      ensures !hasModel && !modelActive && !hideControllerModel
      ensures View() == ControllerView(Inactive, Inactive, Inactive, Zero3, IdentityRotation)
      ensures controllerState == null && createControllerState && performSetup
    {
      this.input := input;
      this.hasModelPrefab := hasModelPrefab;
      updateTrackingType := UpdateAndBeforeRender;
      enableInputTracking := true;
      enableInputActions := true;
      hasModel := false;
      modelActive := false;
      hideControllerModel := false;
      selectInteractionState := Inactive;
      activateInteractionState := Inactive;
      uiPressInteractionState := Inactive;
      controllerState := null;
      createControllerState := true;
      performSetup := true;
      localPosition := Zero3;
      localRotation := IdentityRotation;
    }

    /** The hideControllerModel setter: an existing model is shown exactly
        when it is not hidden. */
    method SetHideControllerModel(value: bool)
      modifies this`hideControllerModel, this`modelActive
      ensures hideControllerModel == value
      ensures modelActive == (if hasModel then !value else old(modelActive))
    {
      hideControllerModel := value;
      if hasModel {
        modelActive := !hideControllerModel;
      }
    }

    /** SetupModel: instantiates the prefab when there is no model and a
        prefab is set; then an existing model is shown exactly when it is
        not hidden. */
    method SetupModel()
      modifies this`hasModel, this`modelActive
      ensures hasModel == (old(hasModel) || hasModelPrefab)
      ensures modelActive == (if hasModel then !hideControllerModel else old(modelActive))
    {
      if !hasModel {
        if hasModelPrefab {
          hasModel := true;
        }
      }
      if hasModel {
        modelActive := !hideControllerModel;
      }
    }

    /** SetupControllerState: a default state is created only when there is
        none and creation is allowed. */
    method SetupControllerState()
      modifies this`controllerState
      ensures old(controllerState) == null && createControllerState ==>
                fresh(controllerState) && controllerState.Snapshot() == DefaultSnapshot
      ensures !(old(controllerState) == null && createControllerState) ==> controllerState == old(controllerState)
    {
      if controllerState == null && createControllerState {
        controllerState := new XRControllerState();
      }
    }

    /** The currentControllerState getter: sets the state up first. */
    method GetCurrentControllerState() returns (state: XRControllerState?)
      modifies this`controllerState
      ensures state == controllerState
      ensures old(controllerState) == null && createControllerState ==>
                fresh(state) && state.Snapshot() == DefaultSnapshot
      ensures !(old(controllerState) == null && createControllerState) ==> state == old(controllerState)
    {
      SetupControllerState();
      state := controllerState;
    }

    /** The currentControllerState setter: an assigned state, even null,
        turns automatic creation off. */
    method SetCurrentControllerState(value: XRControllerState?)
      modifies this`controllerState, this`createControllerState
      ensures controllerState == value && !createControllerState
    {
      controllerState := value;
      createControllerState := false;
    }

    /** ApplyControllerState: nothing for a null state, otherwise ApplyState
        on the controller's view. */
    method ApplyControllerState(phase: UpdatePhase, state: XRControllerState?)
      modifies this`selectInteractionState, this`activateInteractionState, this`uiPressInteractionState,
               this`localPosition, this`localRotation
      ensures state == null ==> View() == old(View())
      ensures state != null ==> View() == ApplyState(phase, state.Snapshot(), old(View()))
    {
      if state == null { return; }
      if phase == Dynamic {
        selectInteractionState := state.selectInteractionState;
        activateInteractionState := state.activateInteractionState;
        uiPressInteractionState := state.uiPressInteractionState;
      }
      if phase == Dynamic || phase == UpdatePhase.OnBeforeRender || phase == UpdatePhase.Fixed {
        if state.inputTrackingState & TrackingPosition != 0 {
          localPosition := state.position;
        }
        if state.inputTrackingState & TrackingRotation != 0 {
          localRotation := state.rotation;
        }
      }
    }

    /** The sampling of UpdateController: tracking when the dynamic phase
        samples it, then input when input actions are enabled. */
    method SampleDynamic()
      requires input.Valid()
      modifies input`hasCheckedDisabledTrackingInputReferenceActions,
               input`hasCheckedDisabledInputReferenceActions, input`warnings, controllerState
      ensures input.Valid()
      ensures controllerState != null ==>
                controllerState.Snapshot() ==
                  DynamicSample(input.actions, Tracks(Dynamic), enableInputActions, old(controllerState.Snapshot()))
    {
      if enableInputTracking && (updateTrackingType == UpdateType.Update || updateTrackingType == UpdateAndBeforeRender) {
        input.UpdateTrackingInput(controllerState);
      }
      if enableInputActions {
        input.UpdateInput(controllerState);
      }
    }

    /** UpdateController (run by Update): the first call sets up the model
        and the state; then the dynamic phase's sampling, whose result is
        applied in the dynamic phase. */
    method UpdateController()
      requires input.Valid()
      modifies this`hasModel, this`modelActive, this`controllerState, this`performSetup,
               this`selectInteractionState, this`activateInteractionState, this`uiPressInteractionState,
               this`localPosition, this`localRotation,
               input`hasCheckedDisabledTrackingInputReferenceActions,
               input`hasCheckedDisabledInputReferenceActions, input`warnings, controllerState
      ensures input.Valid() && !performSetup
      ensures hasModel == (old(hasModel) || (old(performSetup) && hasModelPrefab))
      ensures modelActive == (if old(performSetup) && hasModel then !hideControllerModel else old(modelActive))
      ensures old(WillCreateState()) ==> fresh(controllerState)
      ensures !old(WillCreateState()) ==> controllerState == old(controllerState)
      ensures controllerState == null ==> View() == old(View())
      ensures old(WillCreateState()) ==>
                controllerState.Snapshot() == DynamicSample(input.actions, Tracks(Dynamic), enableInputActions, DefaultSnapshot)
      ensures !old(WillCreateState()) && controllerState != null ==>
                controllerState.Snapshot() ==
                  DynamicSample(input.actions, Tracks(Dynamic), enableInputActions, old(controllerState.Snapshot()))
      ensures controllerState != null ==> View() == ApplyState(Dynamic, controllerState.Snapshot(), old(View()))
    {
      if performSetup {
        SetupModel();
        SetupControllerState();
        performSetup := false;
      }
      SampleDynamic();
      ApplyControllerState(Dynamic, controllerState);
    }

    /** OnBeforeRender: samples tracking when this phase samples it, then
        applies the state before rendering. */
    method OnBeforeRender()
      requires input.Valid()
      modifies this`selectInteractionState, this`activateInteractionState, this`uiPressInteractionState,
               this`localPosition, this`localRotation,
               input`hasCheckedDisabledTrackingInputReferenceActions, input`warnings, controllerState
      ensures input.Valid()
      ensures controllerState == null ==> View() == old(View())
      ensures controllerState != null ==>
                controllerState.Snapshot() ==
                  (if Tracks(UpdatePhase.OnBeforeRender) then UpdateTracking(input.actions, old(controllerState.Snapshot()))
                   else old(controllerState.Snapshot())) &&
                View() == ApplyState(UpdatePhase.OnBeforeRender, controllerState.Snapshot(), old(View()))
    {
      if enableInputTracking && (updateTrackingType == BeforeRender || updateTrackingType == UpdateAndBeforeRender) {
        input.UpdateTrackingInput(controllerState);
      }
      ApplyControllerState(UpdatePhase.OnBeforeRender, controllerState);
    }

    /** FixedUpdate: samples tracking when the type is Fixed, then applies
        the state in the fixed phase. */
    method FixedUpdate()
      requires input.Valid()
      modifies this`selectInteractionState, this`activateInteractionState, this`uiPressInteractionState,
               this`localPosition, this`localRotation,
               input`hasCheckedDisabledTrackingInputReferenceActions, input`warnings, controllerState
      ensures input.Valid()
      ensures controllerState == null ==> View() == old(View())
      ensures controllerState != null ==>
                controllerState.Snapshot() ==
                  (if Tracks(UpdatePhase.Fixed) then UpdateTracking(input.actions, old(controllerState.Snapshot()))
                   else old(controllerState.Snapshot())) &&
                View() == ApplyState(UpdatePhase.Fixed, controllerState.Snapshot(), old(View()))
    {
      if enableInputTracking && updateTrackingType == UpdateType.Fixed {
        input.UpdateTrackingInput(controllerState);
      }
      ApplyControllerState(UpdatePhase.Fixed, controllerState);
    }
  }
}
