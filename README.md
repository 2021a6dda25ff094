# SuperColdVR locomotion, controllers and origin: a Dafny model

This project models the VR core of SuperColdVR, a Unity game. The core has five parts:

- **The locomotion arbiter (`SLocomotionSystem`).** It lets one locomotion provider at a time hold the "exclusive operation". It frees a lock held longer than `OperationTimeout`.
- **The providers.** `SLocomotionProvider` is the base; the variants are the snap-turn, continuous-turn and continuous-move providers. Each one asks the arbiter for the lock, moves or turns the rig, gives the lock back, raises `beginLocomotion`/`endLocomotion`, and steps its `LocomotionPhase` (Idle, Started, Moving, Done).
- **The origin (`SXROrigin`).** It negotiates the tracking origin mode with the XR input subsystems. It keeps the camera-floor offset object at the height that mode needs, and it is what providers rotate and move.
- **The controllers.** `SXRBaseController` decides in which frame phase tracking and input are sampled, and applies the controller state to its interaction states and transform. `SActionBasedController` fills the state from Input System actions. `SInteractionState`/`SXRControllerState` keep the per-frame select, activate and UI-press state.
- **`SCharacterControllerDriver`.** It resizes the rig's `CharacterController` to the camera on every begin and end of locomotion.

## How the model is built

- **One module per source file.** `Common` holds the shared vector types, the enums and the `InputTrackingState` flags (as `bv32`).
- **The arbiter.** It is specified by pure functions `Request`, `Finish` and `Sweep` on a `Lock` value. The class `LocomotionSystem` updates its two fields, and each of its methods promises that its new state and its answer are those functions' results. Lemmas about those functions prove two things:
  - mutual exclusion over any sequence of calls;
  - that the sweep recovers a stale lock.
- **Providers.** They share `LocomotionProvider` by composition: each variant holds it as `base`.
- **Snap turn.** One `Update` is specified as the function `SnapTick` from the old state to the new state plus the turn made.
- **Continuous providers.** Their `Update`s state the phase through `NextPhase`. They also state the events raised, the rig's turns or moves, and that the lock ends as it started. That last point holds because they call the corrected origin rotate of the Findings; the source throws between begin and end on a rig without an origin base object (see Left out).
- **The origin.** The per-subsystem setup is the function `SetupOne`, and the loop over subsystems is `SetupAll`. `XROrigin.SetupCamera` keeps the loop invariant that its state equals `SetupAll` of the subsystems seen so far.
- **The action-based controller.** It is specified by `UpdateTracking` and `UpdateInteractions` on a `ControllerSnapshot`, which holds all fields of an `SXRControllerState`. `XRBaseController` schedules those calls and applies the result through `ApplyState`.

### Abstractions

- **Engine state.** `Time.time` and `Time.deltaTime` are the parameters `now` and `dt`.
- **Stick input.** What `ReadInput` returns is a parameter. `input.magnitude` is a parameter known only through the linear bounds of a Euclidean length: max(|x|, |y|) <= magnitude <= |x| + |y|.
- **`Mathf.Approximately(x, 0)`** is `x == 0`.
- **Vector geometry.** Rotation about the camera is recorded as the sequence of angles applied (`XROrigin.turns`). A move without a character controller adds the translation to `originPosition`. A move through a character controller is recorded in `CharacterController.moves`.
- **`GetNearestCardinal`.** The source classifies `atan2(y, x)` in degrees against 45 and 135. The model states the same cones as comparisons of `|x|` and `|y|`. The zero vector is East, because `atan2(0, 0)` is 0. The model proves that the cones pick the cardinal with the greatest dot product. Reals have no signed zero, so `atan2` of a negative zero (West in the source) is not distinguished.
- **Null references.** A provider's `LocomotionSystem` is `system: LocomotionSystem?`, a rig is `XROrigin?`, and a controller state is `XRControllerState?`. A missing Camera or origin base object is a boolean of the origin.
- **Subsystems.** The XR subsystems are values (`InputSubsystem`). Each value gives the mode the subsystem reports, the modes it supports, and its answers to `TrySetTrackingOriginMode` and `TryRecenter`.
- **Events.** The events a provider raises are logged in `raised`. The invocation lists of its two events are the sequences `beginHandlers` and `endHandlers`. A C# `-=` removes the last occurrence of a handler (`Common.RemoveLast`).

## Model

| member | source | states |
|---|---|---|
| `Locomotion.Request` | Assets/SuperColdVR/_Scripts/VR/Locomotion/Base/SLocomotionSystem.cs:30-42 | A request succeeds exactly when the provider is non-null and the lock is free, and the lock then holds that provider and the time. It answers Busy exactly when another provider holds the lock. Any non-success leaves the lock unchanged. |
| `Locomotion.Finish` | Assets/SuperColdVR/_Scripts/VR/Locomotion/Base/SLocomotionSystem.cs:44-62 | A finish succeeds exactly when the caller holds the lock, and then frees it (holder null, time 0). Otherwise the answer is Error and the lock is unchanged. |
| `Locomotion.Sweep` | Assets/SuperColdVR/_Scripts/VR/Locomotion/Base/SLocomotionSystem.cs:22-28 | A lock held strictly longer than the timeout is freed; any other lock is kept. |
| `Locomotion.StepKeepsInv` | Assets/SuperColdVR/_Scripts/VR/Locomotion/Base/SLocomotionSystem.cs:30-62 | Every request, finish or sweep keeps the invariant that a free lock has time 0. |
| `Locomotion.RunKeepsInv` | Assets/SuperColdVR/_Scripts/VR/Locomotion/Base/SLocomotionSystem.cs:22-62 | Any sequence of calls keeps that invariant. |
| `Locomotion.GrantsAreExclusive` | Assets/SuperColdVR/_Scripts/VR/Locomotion/Base/SLocomotionSystem.cs:30-62 | Mutual exclusion over any sequence of calls: held-at-start plus grants equals releases plus held-at-end. So no grant happens while another is outstanding. |
| `Locomotion.StaleLockIsRecovered` | Assets/SuperColdVR/_Scripts/VR/Locomotion/Base/SLocomotionSystem.cs:22-39 | After the sweep frees a lock held past the timeout, any provider's request succeeds. |
| `Locomotion.RequestThenFinishRestores` | Assets/SuperColdVR/_Scripts/VR/Locomotion/Base/SLocomotionSystem.cs:30-62 | A request on a free lock followed by a finish by the same provider returns the free lock, with Success both times. |
| `Locomotion.LocomotionSystem.IsBusy` | Assets/SuperColdVR/_Scripts/VR/Locomotion/Base/SLocomotionSystem.cs:15 | IsBusy holds exactly when the arbiter is not in the free state. |
| `Locomotion.LocomotionSystem.constructor` | Assets/SuperColdVR/_Scripts/VR/Locomotion/Base/SLocomotionSystem.cs:9-20 | A new arbiter is free and keeps the given timeout and rig. |
| `Locomotion.LocomotionSystem.Update` | Assets/SuperColdVR/_Scripts/VR/Locomotion/Base/SLocomotionSystem.cs:22-28 | The new state is `Sweep` of the old state. |
| `Locomotion.LocomotionSystem.RequestExclusiveOperation` | Assets/SuperColdVR/_Scripts/VR/Locomotion/Base/SLocomotionSystem.cs:30-42 | The new state and the answer are those of `Request`. |
| `Locomotion.LocomotionSystem.ResetExclusivity` | Assets/SuperColdVR/_Scripts/VR/Locomotion/Base/SLocomotionSystem.cs:44-48 | The arbiter becomes free. |
| `Locomotion.LocomotionSystem.FinishExclusiveOperation` | Assets/SuperColdVR/_Scripts/VR/Locomotion/Base/SLocomotionSystem.cs:50-62 | The new state and the answer are those of `Finish`. |
| `Provider.NextPhase` | Assets/SuperColdVR/_Scripts/VR/Locomotion/Continuous/SContinuousMoveProviderBase.cs:45-62 | The continuous providers' phase table. The next phase is Moving exactly when the rig moved, and Done exactly when it was Moving and did not move. Without a move, Idle and Started stay as they are, and Done becomes Idle. |
| `Provider.DoneLastsOneTick` | Assets/SuperColdVR/_Scripts/VR/Locomotion/Base/SContinuousTurnProviderBase.cs:29-46 | Done never lasts two ticks. A provider that stops goes from Moving through Done to Idle. |
| `Provider.BracketRestoresLock` | Assets/SuperColdVR/_Scripts/VR/Locomotion/Base/SLocomotionProvider.cs:30-52 | On a free lock, begin succeeds and the matching end frees it again. On a held lock, begin fails and changes nothing. |
| `Provider.LocomotionProvider.constructor` | Assets/SuperColdVR/_Scripts/VR/Locomotion/Base/SLocomotionProvider.cs:11-20 | A new provider is Idle, has raised nothing and has no handlers. |
| `Provider.LocomotionProvider.CanBeginLocomotion` | Assets/SuperColdVR/_Scripts/VR/Locomotion/Base/SLocomotionProvider.cs:22-28 | False without a system. Otherwise true exactly when the arbiter is free. |
| `Provider.LocomotionProvider.BeginLocomotion` | Assets/SuperColdVR/_Scripts/VR/Locomotion/Base/SLocomotionProvider.cs:30-40 | False without a system. Otherwise the arbiter takes `Request`'s state, and the result is whether it answered Success. beginLocomotion is raised exactly on success. |
| `Provider.LocomotionProvider.EndLocomotion` | Assets/SuperColdVR/_Scripts/VR/Locomotion/Base/SLocomotionProvider.cs:42-52 | The same for `Finish`; endLocomotion is raised exactly on success. |
| `Provider.LocomotionProvider.TryBegin` | Assets/SuperColdVR/_Scripts/VR/Locomotion/Continuous/SContinuousMoveProviderBase.cs:128 | `CanBeginLocomotion() && BeginLocomotion()`. It holds exactly when there is a system and its lock was free; the provider then holds the lock from now. Otherwise the lock is unchanged, and beginLocomotion is raised exactly on success. |
| `CardinalUtility.GetNearestCardinal` | Assets/SuperColdVR/_Scripts/VR/Utils/Classes/SCardinalUtility.cs:7-15 | The result has the greatest dot product with the input among the four directions. The zero vector is East. Away from zero, East and West win only strictly, so exact diagonals go to North or South. South wins only when it is strictly better aligned than North. |
| `CardinalUtility.NearestCardinalIsUnique` | Assets/SuperColdVR/_Scripts/VR/Utils/Classes/SCardinalUtility.cs:7-15 | Those four properties determine the result. |
| `CardinalUtility.EastWestCones` | Assets/SuperColdVR/_Scripts/VR/Utils/Classes/SCardinalUtility.cs:9-14 | East iff x > \|y\| or the input is zero. West iff -x > \|y\|. North iff \|x\| <= \|y\|, y >= 0 and the input is not zero. South iff \|x\| <= \|y\| and y < 0. These are the cones \|angle\| < 45 and \|angle\| > 135, with atan2(0, 0) = 0. |
| `CardinalUtility.AxesAndDiagonals` | Assets/SuperColdVR/_Scripts/VR/Utils/Classes/SCardinalUtility.cs:11-14 | The zero vector maps to East and the axes to their own directions. The diagonals at exactly 45 and 135 degrees map to North or South. |
| `SnapTurn.GetTurnAmount` | Assets/SuperColdVR/_Scripts/VR/Locomotion/Snap/SSnapTurnProviderBase.cs:73-100 | A centred stick gives 0. East gives +TurnAmount and West gives -TurnAmount when left/right turns are enabled. South gives 180 when turn-around is enabled. Everything else gives 0. |
| `SnapTurn.TurnDirections` | Assets/SuperColdVR/_Scripts/VR/Locomotion/Snap/SSnapTurnProviderBase.cs:73-100 | The same in terms of the stick: right of the diagonals turns right, left turns left, down turns around, and up never turns. |
| `SnapTurn.StartTurnStep` | Assets/SuperColdVR/_Scripts/VR/Locomotion/Snap/SSnapTurnProviderBase.cs:102-123 | Nothing changes during the debounce or when the lock is taken. Otherwise: Idle becomes Started with the delay clock started; a non-zero amount is stored; once the delay is over, the phase is Moving and the debounce clock starts. |
| `SnapTurn.PrepareTurn` | Assets/SuperColdVR/_Scripts/VR/Locomotion/Snap/SSnapTurnProviderBase.cs:40-51 | Update before the lock request. The pending amount becomes this tick's non-zero amount when no debounce runs and the lock is free, and is kept otherwise. Without input, Done becomes Idle, and Moving with nothing pending becomes Done. An Idle provider with input, no debounce and a free lock leaves Idle. A turn going through StartTurn is Moving from now once the delay is over, and waits in Started (or its current phase) while the delay runs. |
| `SnapTurn.TurnStep` | Assets/SuperColdVR/_Scripts/VR/Locomotion/Snap/SSnapTurnProviderBase.cs:53-68 | A turn happens exactly in Moving with a pending amount and a free lock. It turns by that amount and clears it. Otherwise nothing changes. |
| `SnapTurn.SnapTick` | Assets/SuperColdVR/_Scripts/VR/Locomotion/Snap/SSnapTurnProviderBase.cs:28-69 | One Update. An expired debounce only clears the debounce clock. A turn needs a free lock, is non-zero, and leaves Moving or Done. It turns by this tick's amount, or by the amount stored earlier. After a turn without a rig, or with the stick released, the phase is Done. |
| `SnapTurn.DoneActsAsIdle` | Assets/SuperColdVR/_Scripts/VR/Locomotion/Snap/SSnapTurnProviderBase.cs:37-40 | Outside an expired debounce, a Done provider behaves exactly as an Idle one. |
| `SnapTurn.NoTurnDuringDebounce` | Assets/SuperColdVR/_Scripts/VR/Locomotion/Snap/SSnapTurnProviderBase.cs:30-35 | While the debounce clock runs and nothing is pending, no turn happens, whatever the input. |
| `SnapTurn.ReleaseEndsMoving` | Assets/SuperColdVR/_Scripts/VR/Locomotion/Snap/SSnapTurnProviderBase.cs:48-51 | A Moving provider with nothing pending and a released stick becomes Done and does not turn. |
| `SnapTurn.FlickRightScenario` | Assets/SuperColdVR/_Scripts/VR/Locomotion/Snap/SSnapTurnProviderBase.cs:11-15 | With the default settings: a flick right turns 45 degrees once; holding the stick during the 0.5 s debounce turns no more; after release the provider passes through Done to Idle. |
| `SnapTurn.SnapTurnProvider.constructor` | Assets/SuperColdVR/_Scripts/VR/Locomotion/Snap/SSnapTurnProviderBase.cs:11-19 | The settings are kept, and the three private fields start at 0. |
| `SnapTurn.SnapTurnProvider.StartTurn` | Assets/SuperColdVR/_Scripts/VR/Locomotion/Snap/SSnapTurnProviderBase.cs:102-123 | The new state is `StartTurnStep` of the old state. |
| `SnapTurn.SnapTurnProvider.FakeStartTurn` | Assets/SuperColdVR/_Scripts/VR/Locomotion/Snap/SSnapTurnProviderBase.cs:125-128 | StartTurn with -TurnAmount (left) or +TurnAmount (right). |
| `SnapTurn.SnapTurnProvider.FakeStartTurnAround` | Assets/SuperColdVR/_Scripts/VR/Locomotion/Snap/SSnapTurnProviderBase.cs:130-133 | StartTurn with 180. |
| `SnapTurn.FlickTurnsAtOnce` | Assets/SuperColdVR/_Scripts/VR/Locomotion/Snap/SSnapTurnProviderBase.cs:28-69 | Without a delay and outside a debounce, a flick with a free lock turns by this tick's amount in the same tick, whatever the phase. The debounce clock starts now, and the phase is Moving (Done without a rig). |
| `SnapTurn.DelayedFlickWaits` | Assets/SuperColdVR/_Scripts/VR/Locomotion/Snap/SSnapTurnProviderBase.cs:28-69 | With a positive delay, a flick from Idle or Done turns nothing on that tick. It stores the amount, starts the delay clock now and moves to Started. |
| `SnapTurn.SnapTurnProvider.Prepare` | Assets/SuperColdVR/_Scripts/VR/Locomotion/Snap/SSnapTurnProviderBase.cs:40-51 | The new state is `PrepareTurn` of the old state. |
| `SnapTurn.SnapTurnProvider.Turn` | Assets/SuperColdVR/_Scripts/VR/Locomotion/Snap/SSnapTurnProviderBase.cs:53-68 | The new state is `TurnStep`'s. A turn raises begin and end, rotates the rig by the amount, and leaves the lock as it was. |
| `SnapTurn.SnapTurnProvider.Update` | Assets/SuperColdVR/_Scripts/VR/Locomotion/Snap/SSnapTurnProviderBase.cs:28-69 | The new state is `SnapTick`'s. The rig is rotated exactly by `SnapTick`'s turn. Events are raised in pairs around a turn. The arbiter ends as it started. |
| `ContinuousTurn.Sign` | Assets/SuperColdVR/_Scripts/VR/Locomotion/Base/SContinuousTurnProviderBase.cs:64 | Mathf.Sign: 1 for zero and positive values, -1 for negative ones. |
| `ContinuousTurn.GetTurnAmount` | Assets/SuperColdVR/_Scripts/VR/Locomotion/Base/SContinuousTurnProviderBase.cs:51-71 | Forward, back or a centred stick gives 0. A stick pushed sideways gives \|input\| * turnSpeed * dt, with the sign of x. |
| `ContinuousTurn.TurnFollowsStick` | Assets/SuperColdVR/_Scripts/VR/Locomotion/Base/SContinuousTurnProviderBase.cs:51-71 | With a positive speed and frame time, a sideways stick turns towards x. The size of the turn is \|input\| * turnSpeed * dt. |
| `ContinuousTurn.ContinuousTurnProvider.constructor` | Assets/SuperColdVR/_Scripts/VR/Locomotion/Base/SContinuousTurnProviderBase.cs:9-17 | turnSpeed is 60, and the turning flag is off. |
| `ContinuousTurn.ContinuousTurnProvider.TurnRig` | Assets/SuperColdVR/_Scripts/VR/Locomotion/Base/SContinuousTurnProviderBase.cs:73-89 | A zero amount does nothing. If the lock is free: begin, then (with a rig) set the turning flag and rotate the rig by the amount, then end. The arbiter ends as it started. |
| `ContinuousTurn.ContinuousTurnProvider.Update` | Assets/SuperColdVR/_Scripts/VR/Locomotion/Base/SContinuousTurnProviderBase.cs:19-47 | The turning flag holds exactly when the rig turned this tick. The phase is `NextPhase` of whether it turned. The rig turned by GetTurnAmount. The events are the begin/end pair, and the arbiter ends as it started. |
| `ContinuousMove.ComputeDesiredMove` | Assets/SuperColdVR/_Scripts/VR/Locomotion/Continuous/SContinuousMoveProviderBase.cs:67-72 | A centred stick, or a system without a rig, asks for no move. |
| `ContinuousMove.VerticalVelocityStep` | Assets/SuperColdVR/_Scripts/VR/Locomotion/Continuous/SContinuousMoveProviderBase.cs:116-124 | In the air with gravity and not flying, gravity * dt is added. Otherwise the velocity is reset to zero. |
| `ContinuousMove.FallingAccumulates` | Assets/SuperColdVR/_Scripts/VR/Locomotion/Continuous/SContinuousMoveProviderBase.cs:116-126 | Falling from rest for k ticks gives velocity gravity * k * dt. |
| `ContinuousMove.LandingStops` | Assets/SuperColdVR/_Scripts/VR/Locomotion/Continuous/SContinuousMoveProviderBase.cs:117-120 | Landing, switching gravity off or flying stops the fall at once, however long it lasted. |
| `ContinuousMove.ShouldMoveRig` | Assets/SuperColdVR/_Scripts/VR/Locomotion/Continuous/SContinuousMoveProviderBase.cs:32-43 | Immediately always moves. AttemptingMove moves exactly when the stick is pushed or the vertical velocity is non-zero. |
| `ContinuousMove.ContinuousMoveProvider.constructor` | Assets/SuperColdVR/_Scripts/VR/Locomotion/Continuous/SContinuousMoveProviderBase.cs:11-21 | The settings are kept. There is no cached controller, the provider is not moving, and the velocity is zero. |
| `ContinuousMove.ContinuousMoveProvider.FindCharacterController` | Assets/SuperColdVR/_Scripts/VR/Locomotion/Continuous/SContinuousMoveProviderBase.cs:147-159 | The rig's controller is looked up at most once and cached. Without a rig nothing changes. |
| `ContinuousMove.ContinuousMoveProvider.MoveRig` | Assets/SuperColdVR/_Scripts/VR/Locomotion/Continuous/SContinuousMoveProviderBase.cs:105-145 | Without a rig nothing changes. With an enabled controller: a gravity step, then, if the lock is free, `Move(translation + velocity * dt)`. Without one, if the lock is free, the origin moves by the translation. The moving flag is set exactly when the lock was had, and the arbiter ends as it started. Only the cached controller, when enabled, can record a move; every other controller's move log is kept. |
| `ContinuousMove.ContinuousMoveProvider.Update` | Assets/SuperColdVR/_Scripts/VR/Locomotion/Continuous/SContinuousMoveProviderBase.cs:23-63 | Without a rig only the moving flag is cleared. Otherwise the rig moves when `ShouldMoveRig` says so, and the phase is `NextPhase` of whether it moved. No controller records a move unless the rig was moved through the cached, enabled one. |
| `Interaction.SetFrameState` | Assets/SuperColdVR/_Scripts/VR/Utils/Structs/SInteractionState.cs:44-50 | The value and active state are stored. Activated-this-frame holds exactly when the state was inactive and is now active; deactivated holds exactly for the reverse. |
| `Interaction.SetFrameStateActive` | Assets/SuperColdVR/_Scripts/VR/Utils/Structs/SInteractionState.cs:40-43 | SetFrameState with value 1 when active and 0 otherwise, so the value is 1 exactly when active. |
| `Interaction.SetFrameDependent` | Assets/SuperColdVR/_Scripts/VR/Utils/Structs/SInteractionState.cs:52-56 | The edges are recomputed against the given previous state; value and active are kept. |
| `Interaction.ResetFrameDependent` | Assets/SuperColdVR/_Scripts/VR/Utils/Structs/SInteractionState.cs:58-62 | Both edges are cleared and nothing else changes. |
| `Interaction.EdgesNeverBoth` | Assets/SuperColdVR/_Scripts/VR/Utils/Structs/SInteractionState.cs:40-62 | No operation leaves a state both activated and deactivated this frame. |
| `Interaction.RepeatHasNoEdge` | Assets/SuperColdVR/_Scripts/VR/Utils/Structs/SInteractionState.cs:44-50 | The same active state reported twice in a row gives no edge the second time. |
| `Interaction.FrameStateIsFrameDependent` | Assets/SuperColdVR/_Scripts/VR/Utils/Structs/SInteractionState.cs:44-56 | SetFrameState is SetFrameDependent against the old active state, after the new value and state are stored. |
| `Interaction.ResetThenSetIsSet` | Assets/SuperColdVR/_Scripts/VR/Utils/Structs/SInteractionState.cs:44-62 | Clearing the edges before SetFrameState makes no difference. |
| `Interaction.XRControllerState.constructor` | Assets/SuperColdVR/_Scripts/VR/Utils/Structs/SInteractionState.cs:84-86 | Time 0, position zero, identity rotation, no tracking, all interactions inactive. |
| `Interaction.XRControllerState.Copy` | Assets/SuperColdVR/_Scripts/VR/Utils/Structs/SInteractionState.cs:88-97 | Every field equals the copied state's. |
| `Interaction.XRControllerState.WithActive` | Assets/SuperColdVR/_Scripts/VR/Utils/Structs/SInteractionState.cs:99-106 | The pose and flags are as given. Each interaction is SetFrameState(active) applied to the default state. |
| `Interaction.XRControllerState.WithValues` | Assets/SuperColdVR/_Scripts/VR/Utils/Structs/SInteractionState.cs:108-116 | The same, with the given values. |
| `Interaction.XRControllerState.ResetFrameDependentStates` | Assets/SuperColdVR/_Scripts/VR/Utils/Structs/SInteractionState.cs:118-123 | The edges of all three interactions are cleared. |
| `ActionBased.IsPressed` | Assets/SuperColdVR/_Scripts/VR/Controller/SActionBasedController.cs:253-269 | A missing action is never pressed. Otherwise the action's pressed state. |
| `ActionBased.ReadValue` | Assets/SuperColdVR/_Scripts/VR/Controller/SActionBasedController.cs:271-283 | A missing action reads 0. An axis, and a button (a button control is an axis control), reads its float. A 2D vector reads its length. Any other control reads 1 exactly when pressed and 0 exactly when not. |
| `ActionBased.ValueActionFor` | Assets/SuperColdVR/_Scripts/VR/Controller/SActionBasedController.cs:237-249 | The value action is used when it exists and has a binding; otherwise the press action is used. |
| `ActionBased.FallbackValueFollowsPress` | Assets/SuperColdVR/_Scripts/VR/Controller/SActionBasedController.cs:237-240 | Without a bound value action, the value comes from the press action. A button or axis gives its own float. Any other control that is not a 2D vector gives 1 exactly when pressed and 0 otherwise. |
| `ActionBased.WrapToUInt32` | Assets/SuperColdVR/_Scripts/VR/Controller/SActionBasedController.cs:168 | The cast to the 32-bit InputTrackingState keeps the low 32 bits: the result is in [0, 2^32), a value already in range is kept, and any other value differs from the result by a multiple of 2^32. |
| `ActionBased.TrackingStateWraps` | Assets/SuperColdVR/_Scripts/VR/Controller/SActionBasedController.cs:168 | The cast forgets whole multiples of 2^32, so a negative value wraps around: v and v + 2^32 give the same flags. |
| `ActionBased.ComputeTrackingState` | Assets/SuperColdVR/_Scripts/VR/Controller/SActionBasedController.cs:161-195 | A bound tracking-state action gives the flags through the cast. Otherwise a Position flag is only reported when the position action has a device, and a Rotation flag only when the rotation action has one. |
| `ActionBased.TrackingActionDecides` | Assets/SuperColdVR/_Scripts/VR/Controller/SActionBasedController.cs:163-169 | A tracking-state action with a binding gives the flags, cast to InputTrackingState. |
| `ActionBased.SplitDevicesSupplyOneFlagEach` | Assets/SuperColdVR/_Scripts/VR/Controller/SActionBasedController.cs:170-190 | With different devices behind position and rotation, Position comes only from the position device and Rotation only from the rotation device. No other flag is set, and a missing device supplies nothing. |
| `ActionBased.SharedDeviceSuppliesAllFlags` | Assets/SuperColdVR/_Scripts/VR/Controller/SActionBasedController.cs:191-194 | With one device behind both, its flags are used whole. |
| `ActionBased.UpdateTracking` | Assets/SuperColdVR/_Scripts/VR/Controller/SActionBasedController.cs:161-209 | The flags are recomputed. The position is overwritten exactly when its action exists and the Position flag is set, and the rotation likewise with the Rotation flag. Time and the interactions are kept. |
| `ActionBased.UpdateInteractions` | Assets/SuperColdVR/_Scripts/VR/Controller/SActionBasedController.cs:235-250 | Each interaction is active exactly when its press action is pressed, and takes its value as `ReadValue` reads the value action, or the press action when the value action is missing or unbound (a button's float, not a pressed flag). Its edges compare with the previous frame's active state. The pose is kept. |
| `ActionBased.TrackingAndInputCommute` | Assets/SuperColdVR/_Scripts/VR/Controller/SActionBasedController.cs:135-251 | Tracking and input write disjoint parts of the state, so their order within a frame does not matter. |
| `ActionBased.ActionBasedInput.constructor` | Assets/SuperColdVR/_Scripts/VR/Controller/SActionBasedController.cs:14-117 | Neither check has run and no warning has been logged. |
| `ActionBased.ActionBasedInput.UpdateTrackingInput` | Assets/SuperColdVR/_Scripts/VR/Controller/SActionBasedController.cs:135-210 | A null state changes nothing. Otherwise the state becomes `UpdateTracking` of itself. The disabled-reference warning is logged at most once, on the first call that has a pose action. |
| `ActionBased.ActionBasedInput.UpdateInput` | Assets/SuperColdVR/_Scripts/VR/Controller/SActionBasedController.cs:213-251 | A null state changes nothing. Otherwise the state becomes `UpdateInteractions` of itself, so a button's value is its float as `ReadValue` reads it, and the warning is logged at most once. |
| `BaseController.SamplesTracking` | Assets/SuperColdVR/_Scripts/VR/Controller/SXRBaseController.cs:200-233 | Sampling needs tracking enabled and never happens in the late phase. Update samples only in the dynamic phase, BeforeRender only before rendering, UpdateAndBeforeRender in exactly those two, and Fixed only in the fixed step. |
| `BaseController.SchedulingCoversEveryType` | Assets/SuperColdVR/_Scripts/VR/Controller/SXRBaseController.cs:200-233 | With tracking enabled every update type samples in some phase, and only UpdateAndBeforeRender samples twice. Fixed shares with no other phase. Disabled tracking and the late phase never sample. |
| `BaseController.ApplyState` | Assets/SuperColdVR/_Scripts/VR/Controller/SXRBaseController.cs:238-265 | The dynamic phase copies the interaction states. The dynamic, before-render and fixed phases write the position exactly when the Position flag is set, and the rotation exactly when the Rotation flag is set. The late phase writes nothing. |
| `BaseController.ApplyIsIdempotent` | Assets/SuperColdVR/_Scripts/VR/Controller/SXRBaseController.cs:238-265 | Applying a state twice is applying it once. Applying before rendering after the dynamic phase, with the same state, changes nothing. |
| `BaseController.UntrackedPoseIsKept` | Assets/SuperColdVR/_Scripts/VR/Controller/SXRBaseController.cs:255-263 | A state with neither flag never moves the controller. |
| `BaseController.XRBaseController.constructor` | Assets/SuperColdVR/_Scripts/VR/Controller/SXRBaseController.cs:10-136 | Tracking and input are enabled and sampled in Update and before rendering. Setup is pending and a state will be created. |
| `BaseController.XRBaseController.SetHideControllerModel` | Assets/SuperColdVR/_Scripts/VR/Controller/SXRBaseController.cs:88-98 | An existing model is shown exactly when it is not hidden. |
| `BaseController.XRBaseController.SetupModel` | Assets/SuperColdVR/_Scripts/VR/Controller/SXRBaseController.cs:167-178 | A model exists afterwards when it did before or a prefab is set. It is then shown exactly when not hidden. |
| `BaseController.XRBaseController.SetupControllerState` | Assets/SuperColdVR/_Scripts/VR/Controller/SXRBaseController.cs:180-184 | A new default state is created exactly when there is none and creation is allowed; otherwise the state is kept. |
| `BaseController.XRBaseController.GetCurrentControllerState` | Assets/SuperColdVR/_Scripts/VR/Controller/SXRBaseController.cs:112-116 | The getter sets the state up first and returns it. |
| `BaseController.XRBaseController.SetCurrentControllerState` | Assets/SuperColdVR/_Scripts/VR/Controller/SXRBaseController.cs:118-122 | Assigning a state, null included, turns automatic creation off. |
| `BaseController.XRBaseController.ApplyControllerState` | Assets/SuperColdVR/_Scripts/VR/Controller/SXRBaseController.cs:238-265 | A null state changes nothing. Otherwise the view becomes `ApplyState` of the old view. |
| `BaseController.XRBaseController.SampleDynamic` | Assets/SuperColdVR/_Scripts/VR/Controller/SXRBaseController.cs:200-211 | Tracking is sampled exactly when the dynamic phase samples it, and input exactly when input actions are enabled. |
| `BaseController.XRBaseController.UpdateController` | Assets/SuperColdVR/_Scripts/VR/Controller/SXRBaseController.cs:191-214 | Setup runs only on the first call, creating a default state when allowed. Then the dynamic sampling happens, and the result is applied in the dynamic phase. |
| `BaseController.XRBaseController.OnBeforeRender` | Assets/SuperColdVR/_Scripts/VR/Controller/SXRBaseController.cs:216-226 | Tracking is sampled exactly when enabled with type BeforeRender or UpdateAndBeforeRender. The state is then applied before rendering. |
| `BaseController.XRBaseController.FixedUpdate` | Assets/SuperColdVR/_Scripts/VR/Controller/SXRBaseController.cs:228-236 | Tracking is sampled exactly when enabled with type Fixed. The state is then applied in the fixed phase. |
| `CharacterDriver.Clamp` | Assets/SuperColdVR/_Scripts/VR/Input/SCharacterControllerDriver.cs:84 | Mathf.Clamp: below the minimum gives the minimum, above the maximum gives the maximum, and anything else is kept. |
| `CharacterDriver.ClampIsWithinBounds` | Assets/SuperColdVR/_Scripts/VR/Input/SCharacterControllerDriver.cs:26-40 | With min <= max the height lies within the bounds, is changed only to a bound, and clamping again changes nothing. |
| `CharacterDriver.SizeCapsule` | Assets/SuperColdVR/_Scripts/VR/Input/SCharacterControllerDriver.cs:84-90 | The height is the camera height clamped. The centre's x and z are the camera's. |
| `CharacterDriver.CapsuleStandsOnFloor` | Assets/SuperColdVR/_Scripts/VR/Input/SCharacterControllerDriver.cs:86-87 | The capsule's bottom is at skinWidth and its top at height + skinWidth. Within the bounds, the top is the camera height plus skinWidth. |
| `CharacterDriver.ReassignKeepsHandlers` | Assets/SuperColdVR/_Scripts/VR/Input/SCharacterControllerDriver.cs:15-23 | Assigning the same provider again turns each handler list h into RemoveLast(h, driver) + [driver]: a list ending with the driver's handler is left as it was, and a list without it gains the handler. |
| `CharacterDriver.CharacterControllerDriver.constructor` | Assets/SuperColdVR/_Scripts/VR/Input/SCharacterControllerDriver.cs:26-46 | minHeight 0, no upper bound, no origin and no controller yet. |
| `CharacterDriver.CharacterControllerDriver.UpdateCharacterController` | Assets/SuperColdVR/_Scripts/VR/Input/SCharacterControllerDriver.cs:79-91 | Without an origin or a controller nothing changes. Otherwise the controller gets `SizeCapsule` of the camera position in origin space. |
| `CharacterDriver.CharacterControllerDriver.Subscribe` | Assets/SuperColdVR/_Scripts/VR/Input/SCharacterControllerDriver.cs:93-100 | The driver's handler is appended to both events of a non-null provider. |
| `CharacterDriver.CharacterControllerDriver.Unsubscribe` | Assets/SuperColdVR/_Scripts/VR/Input/SCharacterControllerDriver.cs:102-109 | The driver's last handler is removed from both events of a non-null provider. |
| `CharacterDriver.CharacterControllerDriver.SetupCharacterController` | Assets/SuperColdVR/_Scripts/VR/Input/SCharacterControllerDriver.cs:111-127 | Without a provider or a rig nothing changes. Otherwise the driver takes the rig and the controller on its origin base. |
| `CharacterDriver.CharacterControllerDriver.SetLocomotionProvider` | Assets/SuperColdVR/_Scripts/VR/Input/SCharacterControllerDriver.cs:12-24 | The setter unsubscribes from the old provider and subscribes to the new one. Reassigning the same provider moves its handler to the end. Then it sets up and resizes the controller. |
| `CharacterDriver.CharacterControllerDriver.OnBeginLocomotion` | Assets/SuperColdVR/_Scripts/VR/Input/SCharacterControllerDriver.cs:129-132 | Beginning locomotion resizes the controller. |
| `CharacterDriver.CharacterControllerDriver.OnEndLocomotion` | Assets/SuperColdVR/_Scripts/VR/Input/SCharacterControllerDriver.cs:134-137 | Ending locomotion resizes the controller. |
| `Common.RemoveLast` | Assets/SuperColdVR/_Scripts/VR/Input/SCharacterControllerDriver.cs:106-107 | Removing a handler that is not subscribed changes nothing. Otherwise the list loses exactly one entry. |
| `Common.LastIndex` | Assets/SuperColdVR/_Scripts/VR/Input/SCharacterControllerDriver.cs:106-107 | The index of the last occurrence: it holds the handler, and no later entry does. |
| `Common.RemoveLastDropsLastOccurrence` | Assets/SuperColdVR/_Scripts/VR/Input/SCharacterControllerDriver.cs:106-107 | Removing a subscribed handler drops exactly its last occurrence and keeps every other entry in order. |
| `Common.RemoveLastUndoesAppend` | Assets/SuperColdVR/_Scripts/VR/Input/SCharacterControllerDriver.cs:93-109 | Subscribing and then unsubscribing restores the invocation list. |
| `Origin.OffsetHeight` | Assets/SuperColdVR/_Scripts/VR/Core/SXROrigin.cs:81-96 | There is a height only while playing in Floor or Device mode: 0 in Floor and cameraYOffset in Device. |
| `Origin.WithHeight` | Assets/SuperColdVR/_Scripts/VR/Core/SXROrigin.cs:98-107 | Only an existing offset object moves. Only its local y changes. |
| `Origin.SetupOne` | Assets/SuperColdVR/_Scripts/VR/Core/SXROrigin.cs:143-194 | A null subsystem fails. An Unknown supported-mode set fails a Device or Floor request without changing anything. |
| `Origin.Negotiate` | Assets/SuperColdVR/_Scripts/VR/Core/SXROrigin.cs:147-184 | The negotiation gives up (None) exactly when a Device or Floor request meets a subsystem that reports no supported modes. It never touches the offset object. |
| `Origin.UnsupportedRequestFallsBack` | Assets/SuperColdVR/_Scripts/VR/Core/SXROrigin.cs:163-174 | An unsupported request falls back to NotSpecified and adopts the subsystem's mode and its offset height. It succeeds unless that mode is Device, where the recenter answers. |
| `Origin.SupportedRequestAsksSubsystem` | Assets/SuperColdVR/_Scripts/VR/Core/SXROrigin.cs:175-191 | A supported request keeps the modes. The answer is the set-mode answer, replaced by the recenter answer when Device is involved. |
| `Origin.UnspecifiedAdoptsSubsystemMode` | Assets/SuperColdVR/_Scripts/VR/Core/SXROrigin.cs:151-153 | NotSpecified adopts the subsystem's mode and offset height. It succeeds unless the mode is Device, where the recenter answers. |
| `Origin.SetupAll` | Assets/SuperColdVR/_Scripts/VR/Core/SXROrigin.cs:117-141 | With no subsystem nothing changes and the setup succeeds. A null subsystem anywhere makes the setup fail. A request that was dropped, or never made, is not made again. |
| `Origin.Recenter` | Assets/SuperColdVR/_Scripts/VR/Core/SXROrigin.cs:186-193 | The modes are kept. The offset height is applied only on success. With Device current or requested the answer is the recenter's; otherwise the answer so far stands. |
| `Origin.SetupAllSucceedsIffEverySubsystemDoes` | Assets/SuperColdVR/_Scripts/VR/Core/SXROrigin.cs:117-141 | Setup succeeds exactly when every subsystem's setup succeeded, each in the state the earlier ones left. |
| `Origin.NullSubsystemFailsSetup` | Assets/SuperColdVR/_Scripts/VR/Core/SXROrigin.cs:124-145 | A null entry in the list makes the whole setup fail. |
| `Origin.RotateAsWritten` | Assets/SuperColdVR/_Scripts/VR/Core/SXROrigin.cs:213-216 | As written: without an origin base object the call throws, and it rotates exactly when both the camera and the base exist. |
| `Origin.RotateIntended` | Assets/SuperColdVR/_Scripts/VR/Core/SXROrigin.cs:218-226 | As the null check intends: the call never throws, and it rotates exactly when both objects exist. |
| `Origin.MissingOriginBaseThrows` | Assets/SuperColdVR/_Scripts/VR/Core/SXROrigin.cs:213-226 | The two agree whenever the base exists. Without it the written code throws, whether or not there is a camera. |
| `Origin.CharacterController.constructor` | Assets/SuperColdVR/_Scripts/VR/Input/SCharacterControllerDriver.cs:45 | A controller with the given enabled state, grounded state and skin width, and no moves yet. |
| `Origin.CharacterController.Move` | Assets/SuperColdVR/_Scripts/VR/Locomotion/Continuous/SContinuousMoveProviderBase.cs:132 | The motion is appended to the moves. |
| `Origin.OffsetTransform.constructor` | Assets/SuperColdVR/_Scripts/VR/Core/SXROrigin.cs:33-34 | An offset object at the given local position. |
| `Origin.XROrigin.constructor` | Assets/SuperColdVR/_Scripts/VR/Core/SXROrigin.cs:22-79 | NotSpecified requested, cameraYOffset 1.1176, current mode Unknown, camera not initialised. |
| `Origin.XROrigin.MoveOffsetHeightTo` | Assets/SuperColdVR/_Scripts/VR/Core/SXROrigin.cs:98-107 | Only the offset object's local y changes, to y. |
| `Origin.XROrigin.MoveOffsetHeight` | Assets/SuperColdVR/_Scripts/VR/Core/SXROrigin.cs:81-96 | The offset object takes the height the current mode asks for. |
| `Origin.XROrigin.SetCameraYOffset` | Assets/SuperColdVR/_Scripts/VR/Core/SXROrigin.cs:61-69 | The setter stores the offset and re-applies the offset height. |
| `Origin.XROrigin.SetCameraFloorOffsetObject` | Assets/SuperColdVR/_Scripts/VR/Core/SXROrigin.cs:35-43 | The setter stores the object and applies the offset height to it. |
| `Origin.XROrigin.SetupCameraWith` | Assets/SuperColdVR/_Scripts/VR/Core/SXROrigin.cs:143-194 | The new modes, offset and answer are `SetupOne`'s. |
| `Origin.XROrigin.NegotiateWith` | Assets/SuperColdVR/_Scripts/VR/Core/SXROrigin.cs:147-184 | Proceeds exactly when `Negotiate` does not give up. It then leaves the modes and the answer so far that `Negotiate` gives; otherwise nothing changes. |
| `Origin.XROrigin.RecenterWith` | Assets/SuperColdVR/_Scripts/VR/Core/SXROrigin.cs:186-193 | The offset height is applied on success, and the recenter answer replaces the answer in Device mode, as `Recenter` states. |
| `Origin.XROrigin.SetupCamera` | Assets/SuperColdVR/_Scripts/VR/Core/SXROrigin.cs:117-141 | The loop over the subsystems ends in `SetupAll`'s state and answer. |
| `Origin.XROrigin.TryInitializeCamera` | Assets/SuperColdVR/_Scripts/VR/Core/SXROrigin.cs:109-115 | Nothing happens when not playing. Otherwise cameraInitialized is SetupCamera's answer. |
| `Origin.XROrigin.SetRequestedTrackingOriginMode` | Assets/SuperColdVR/_Scripts/VR/Core/SXROrigin.cs:48-56 | The setter stores the request and re-runs the camera setup. |
| `Origin.XROrigin.OnTrackingOriginUpdated` | Assets/SuperColdVR/_Scripts/VR/Core/SXROrigin.cs:207-211 | The origin adopts the subsystem's mode and re-applies the offset height. |
| `Origin.XROrigin.IsModeStale` | Assets/SuperColdVR/_Scripts/VR/Core/SXROrigin.cs:389-420 | Never stale for NotSpecified. Otherwise stale exactly when some non-null subsystem reports a mode other than the requested one. |
| `Origin.XROrigin.RotateAroundCameraUsingOriginUp` | Assets/SuperColdVR/_Scripts/VR/Core/SXROrigin.cs:213-226 | The corrected behaviour: it rotates by the angle exactly when the camera and the origin base exist, and answers false otherwise. |

## Left out

- **Vector geometry is not computed:** `ComputeDesiredMove`'s projection, strafing, speed and scale, `RotateAround`, `InverseTransformPoint`, and Quaternion arithmetic. The translation a move asks for is a parameter, and a rotation is recorded as its angle. This avoids floating point and trigonometry.
- **Reals stand for floats.** `Mathf.Approximately(x, 0)` is `x == 0`, and no rounding or `double` time precision is modelled.
- **`ReadInput` and the action-based provider subclasses are not modelled.** They read stick actions, and that input is a parameter here. The same holds for `SetInputActionProperty`, `EnableAllDirectActions`/`DisableAllDirectActions`, `OnEnable`/`OnDisable`, `Awake` and `Start`, all of which is Unity lifecycle and Input System plumbing.
- **Handlers are not invoked.** Raising `beginLocomotion`/`endLocomotion` is logged in `raised`, and the handlers are not called. The driver's handlers are modelled as methods of their own (`OnBeginLocomotion`, `OnEndLocomotion`).
- **Logging is not modelled.** Debug warnings and errors are dropped, except the action-based controller's warned-once flags, which are modelled as the `warnings` log. This covers the snap-turn delay warning in Awake and the driver's missing-controller error.
- **`RepeatInitializeCamera` is not modelled.** This coroutine retries camera setup every frame, as does the `cameraInitializing` flag. The subscriptions to each subsystem's `trackingOriginUpdated` are not modelled either. The callback itself is `OnTrackingOriginUpdated`.
- **These SXROrigin members are not modelled:** `Awake`, `OnValidate`, `OnBeforeRender`, `OnDestroy`, the trackables parent, `MatchOriginUp*` and `MoveCameraToWorldLocation`. They are transform geometry and lifecycle outside the locomotion core.
- **`UpdateControllerModelAnimation` is not modelled.** It drives Animator triggers. The same goes for `SendHapticImpulse` (device I/O) and the `modelParent` setter (transform parenting).
- **Sampling runs through the action-based subclass.** `XRBaseController` calls `ActionBasedInput`, the only subclass in the core; the base class's empty virtual `UpdateTrackingInput`/`UpdateInput` are not modelled separately.
- **`IsPressed`'s dependence on the Input System version is an input.** Each action carries `pressed`, what IsPressed answers for it.
- `ContinuousMove.ContinuousMoveProvider.Update` requires a locomotion system, which the source dereferences without a check. With a rig it also requires an origin base object on the frames where `ShouldMoveRig` calls `MoveRig`. Most of those frames throw in the source, because `ComputeDesiredMove` (for a non-zero stick) or `MoveRig` dereferences `OriginBaseGameObject`. Not all of them do. Take a centred stick in Immediately mode, or with a non-zero vertical velocity, after the controller lookup has already been made. If an enabled controller is cached, or the lock is taken, the source never touches the base object. The model excludes those frames too. Frames on which `MoveRig` is not called need no base object.
- `ContinuousMove.ContinuousMoveProvider.MoveRig` requires an origin base object when there is a rig, and so excludes the same frames.
- `ContinuousMove.ContinuousMoveProvider.MoveRig` also does nothing without a system, where the source would throw a null reference. It is only reached from `Update`, which requires a system.
- `CharacterDriver.CharacterControllerDriver.SetupCharacterController` requires the provider's system and, with a rig, its origin base object. The source dereferences both without a check.
- `CharacterDriver.CharacterControllerDriver.SetLocomotionProvider` has the same requirement (`CanSetUp`). In the source the setter throws only after its unsubscribe and subscribe have run, so the handler lists change before the throw. The model does not cover that partial run.
- `SnapTurn.SnapTurnProvider.Update` follows the code, not the documented three-tick Started, Moving, Done sequence. With `DelayTime` 0 the provider reaches Moving in the tick of the flick and turns in that same tick. The turn then leaves it in Moving or Done.
- `SnapTurn.SnapTurnProvider.Turn` calls the corrected origin rotate of the Findings. With a rig that has no origin base object, the source throws inside its begin/end bracket: the lock stays held until the arbiter's timeout sweep, only `beginLocomotion` is raised, and the pending amount and phase are not reset. The model instead ends the bracket and gives the lock back, so its "lock as it was" promise does not cover that case.
- `SnapTurn.SnapTurnProvider.Update` inherits that gap from `Turn`: on a rig without an origin base object the source throws after the begin, so the lock is leaked and the tick's phase step is cut short.
- `ContinuousTurn.ContinuousTurnProvider.TurnRig` calls the corrected origin rotate too. The source throws there on a rig without an origin base object, after setting the turning flag and raising begin, and so never ends the locomotion or gives the lock back. The model's "arbiter ends as it started" does not cover that case.
- `ContinuousTurn.ContinuousTurnProvider.Update` inherits that gap from `TurnRig`: in the throwing case the source also skips the phase step that follows the turn.
- `ContinuousMove.ComputeDesiredMove` does not model `ForwardSource` or a rig without a Camera. `SXROrigin.Awake` leaves `Camera` null when the scene has no main camera. With no `ForwardSource`, the source then throws for any pushed stick, because it reads the camera's transform. The model returns the translation instead.
- `ContinuousMove.ContinuousMoveProvider.Update` inherits that gap. On a rig without a Camera and with a pushed stick, the source throws before `MoveRig`: no lock is taken, nothing moves and the phase is not stepped. The model moves the rig and steps the phase.
- `CharacterDriver.CharacterControllerDriver.UpdateCharacterController` writes the capsule from `cameraInOriginSpacePos` even on a rig without a Camera. The source reads `CameraInOriginSpacePos` there, which dereferences the Camera, so it throws and nothing is resized.
- `CharacterDriver.CharacterControllerDriver.SetLocomotionProvider` inherits that gap: on a rig without a Camera, the source's setter throws in its final resize, after the subscriptions and the setup.
- `CharacterDriver.CharacterControllerDriver.OnBeginLocomotion` inherits the same camera-less gap from `UpdateCharacterController`.
- `CharacterDriver.CharacterControllerDriver.OnEndLocomotion` inherits the same camera-less gap from `UpdateCharacterController`.

## Findings

| source | as written | input that shows it | evidently intended | confidence | as-written member | corrected member |
|---|---|---|---|---|---|---|
| Assets/SuperColdVR/_Scripts/VR/Core/SXROrigin.cs:213-226 | `RotateAroundCameraUsingOriginUp` reads the origin base object's up axis before `RotateAroundCameraPosition` checks whether that object is null, so the null check cannot protect this path | an origin whose `OriginBaseGameObject` has been destroyed (or is null at run time), turned by any angle: the read at line 215 throws, where the `== null` test at line 220 would have answered `false`. In the editor, `OnValidate` (lines 378-379) refills a null reference, so a destroyed base object is the realistic case | return false without rotating, as `RotateAroundCameraPosition` does | medium, not executed | `Origin.RotateAsWritten` (with `Origin.MissingOriginBaseThrows`) | `Origin.XROrigin.RotateAroundCameraUsingOriginUp` (with `Origin.RotateIntended`) |
