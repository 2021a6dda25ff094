/** SXROrigin: the XR rig. It negotiates the tracking origin mode with the XR
    input subsystems, keeps the camera floor offset at the height that mode
    needs, and is the object locomotion rotates and moves. */
module Origin {
  import opened Common

  /** TrackingOriginModeFlags, a flags enum. */
  const OriginUnknown: bv32 := 0
  const OriginDevice: bv32 := 1
  const OriginFloor: bv32 := 2
  const OriginTrackingReference: bv32 := 4
  const OriginUnbounded: bv32 := 8

  /** The average seated height, 44 inches, in metres. */
  const DefaultCameraYOffset: real := 1.1176

  /** The CharacterController component on the rig's base object. `moves`
      records the motions passed to Move, in order; the physics is not modelled. */
  class CharacterController {
    var enabled: bool
    var isGrounded: bool
    var height: real
    var center: Vec3
    const skinWidth: real
    var moves: seq<Vec3>

    constructor (enabled: bool, isGrounded: bool, skinWidth: real)
      ensures this.enabled == enabled && this.isGrounded == isGrounded
      ensures this.skinWidth == skinWidth && moves == []
    {
      this.enabled := enabled;
      this.isGrounded := isGrounded;
      this.skinWidth := skinWidth;
      height := 0.0;
      center := Zero3;
      moves := [];
    }

    method Move(motion: Vec3)
      modifies this`moves
      ensures moves == old(moves) + [motion]
    {
      moves := moves + [motion];
    }
  }

  /** The Transform of the camera floor offset object. */
  class OffsetTransform {
    var localPosition: Vec3

    constructor (p: Vec3)
      ensures localPosition == p
    {
      localPosition := p;
    }
  }

  /** An XRInputSubsystem as the origin sees it during one setup: the mode it
      reports, the modes it supports, and what TrySetTrackingOriginMode and
      TryRecenter answer. */
  datatype InputSubsystem = InputSubsystem(
    trackingOriginMode: bv32,
    supportedModes: bv32,
    setModeResult: bool,
    recenterResult: bool)

  /** What setup reads and writes: the requested mode, the current mode and
      the local position of the offset object (None when there is none). */
  datatype OriginView = OriginView(
    requested: TrackingOriginMode,
    current: bv32,
    offset: Option<Vec3>)

  datatype SetupReply = SetupReply(view: OriginView, ok: bool)

  /** The flags value that a Device or Floor request stands for. */
  function EquivalentFlags(m: TrackingOriginMode): bv32
    requires m != NotSpecified
  {
    if m == Device then OriginDevice else OriginFloor
  }

  /** The local y that MoveOffsetHeight() gives the offset object, if any:
      0 in Floor mode, the camera y offset in Device mode, nothing otherwise
      or when the application is not playing. */
  function OffsetHeight(isPlaying: bool, current: bv32, cameraYOffset: real): (y: Option<real>)
    ensures y.Some? <==> isPlaying && (current == OriginFloor || current == OriginDevice)
    ensures y.Some? && current == OriginFloor ==> y.value == 0.0
    ensures y.Some? && current == OriginDevice ==> y.value == cameraYOffset
  {
    if !isPlaying then None
    else if current == OriginFloor then Some(0.0)
    else if current == OriginDevice then Some(cameraYOffset)
    else None
  }

  /** The offset object's local position once its y is set to `y`; x and z are kept. */
  function WithHeight(offset: Option<Vec3>, y: Option<real>): (r: Option<Vec3>)
    ensures r.Some? <==> offset.Some?
    ensures r.Some? ==> r.value.x == offset.value.x && r.value.z == offset.value.z
    ensures r.Some? ==> r.value.y == (if y.Some? then y.value else offset.value.y)
  {
    if offset.Some? && y.Some? then Some(offset.value.(y := y.value)) else offset
  }

  function ApplyOffset(v: OriginView, isPlaying: bool, cameraYOffset: real): OriginView {
    v.(offset := WithHeight(v.offset, OffsetHeight(isPlaying, v.current, cameraYOffset)))
  }

  /** The first half of SetupCamera(XRInputSubsystem): the modes after the
      negotiation and the answer so far, or None when the subsystem supports
      no mode at all and the setup gives up at once. */
  function Negotiate(v: OriginView, s: InputSubsystem): (r: Option<SetupReply>)
    ensures r.None? <==> v.requested != NotSpecified && s.supportedModes == OriginUnknown
    ensures r.Some? ==> r.value.view.offset == v.offset
  {
    if v.requested == NotSpecified then Some(SetupReply(v.(current := s.trackingOriginMode), true))
    else if s.supportedModes == OriginUnknown then None
    else if s.supportedModes & EquivalentFlags(v.requested) == 0 then
      Some(SetupReply(v.(requested := NotSpecified, current := s.trackingOriginMode), true))
    else Some(SetupReply(v, s.setModeResult))
  }

  /** SetupCamera(XRInputSubsystem): negotiate the mode with one subsystem. */
  function SetupOne(v: OriginView, isPlaying: bool, cameraYOffset: real, sub: Option<InputSubsystem>): (r: SetupReply)
    ensures sub.None? ==> r == SetupReply(v, false)
    ensures sub.Some? && v.requested != NotSpecified && sub.value.supportedModes == OriginUnknown ==>
              r == SetupReply(v, false)
  {
    if sub.None? then SetupReply(v, false)
    else
      match Negotiate(v, sub.value)
      case None => SetupReply(v, false)
      case Some(n) => Recenter(n.view, n.ok, sub.value, isPlaying, cameraYOffset)
  }

  /** The common end of SetupCamera(XRInputSubsystem): apply the offset on
      success, then let a recenter decide the answer in Device mode. */
  function Recenter(v: OriginView, ok: bool, s: InputSubsystem, isPlaying: bool, cameraYOffset: real): (r: SetupReply)
    // The modes are left alone; only the offset object moves, and only on success.
    ensures r.view.requested == v.requested && r.view.current == v.current
    ensures !ok ==> r.view == v
    ensures ok ==> r.view.offset == WithHeight(v.offset, OffsetHeight(isPlaying, v.current, cameraYOffset))
    // With Device involved the recenter answers; otherwise the answer so far stands.
    ensures v.current == OriginDevice || v.requested == Device ==> r.ok == s.recenterResult
    ensures !(v.current == OriginDevice || v.requested == Device) ==> r.ok == ok
  {
    var w := if ok then ApplyOffset(v, isPlaying, cameraYOffset) else v;
    if w.current == OriginDevice || w.requested == Device then SetupReply(w, s.recenterResult)
    else SetupReply(w, ok)
  }

  /** A mode the subsystem does not support is dropped: the request falls back
      to NotSpecified and the current mode is copied from the subsystem. */
  lemma UnsupportedRequestFallsBack(v: OriginView, isPlaying: bool, y: real, s: InputSubsystem)
    requires v.requested != NotSpecified && s.supportedModes != OriginUnknown
    requires s.supportedModes & EquivalentFlags(v.requested) == 0
    ensures var r := SetupOne(v, isPlaying, y, Some(s));
            r.view.requested == NotSpecified && r.view.current == s.trackingOriginMode &&
            r.view.offset == WithHeight(v.offset, OffsetHeight(isPlaying, s.trackingOriginMode, y)) &&
            r.ok == (if s.trackingOriginMode == OriginDevice then s.recenterResult else true)
  {
  }

  /** A supported mode is asked for: the answer is the set-mode answer, unless
      Device is involved, where the recenter answer replaces it. */
  lemma SupportedRequestAsksSubsystem(v: OriginView, isPlaying: bool, y: real, s: InputSubsystem)
    requires v.requested != NotSpecified && s.supportedModes != OriginUnknown
    requires s.supportedModes & EquivalentFlags(v.requested) != 0
    ensures var r := SetupOne(v, isPlaying, y, Some(s));
            r.view.requested == v.requested && r.view.current == v.current &&
            r.ok == (if v.current == OriginDevice || v.requested == Device then s.recenterResult else s.setModeResult)
  {
  }

  /** With no mode requested, the subsystem's mode is adopted and the answer is
      true unless the adopted mode is Device, where the recenter answers. */
  lemma UnspecifiedAdoptsSubsystemMode(v: OriginView, isPlaying: bool, y: real, s: InputSubsystem)
    requires v.requested == NotSpecified
    ensures var r := SetupOne(v, isPlaying, y, Some(s));
            r.view.requested == NotSpecified && r.view.current == s.trackingOriginMode &&
            r.view.offset == WithHeight(v.offset, OffsetHeight(isPlaying, s.trackingOriginMode, y)) &&
            r.ok == (if s.trackingOriginMode == OriginDevice then s.recenterResult else true)
  {
  }

  /** SetupCamera(): every subsystem in turn, each seeing the state the
      previous ones left; true when all of them succeeded. */
  function SetupAll(v: OriginView, isPlaying: bool, cameraYOffset: real, subs: seq<Option<InputSubsystem>>): (r: SetupReply)
    // No subsystem: nothing changes and the setup succeeds.
    ensures subs == [] ==> r == SetupReply(v, true)
    // A missing subsystem anywhere makes the whole setup fail.
    ensures forall k :: 0 <= k < |subs| && subs[k].None? ==> !r.ok
    // A request that was dropped (or never made) is not made again.
    ensures v.requested == NotSpecified ==> r.view.requested == NotSpecified
    decreases |subs|
  {
    if subs == [] then SetupReply(v, true)
    else
      var prev := SetupAll(v, isPlaying, cameraYOffset, subs[..|subs| - 1]);
      var last := SetupOne(prev.view, isPlaying, cameraYOffset, subs[|subs| - 1]);
      SetupReply(last.view, prev.ok && last.ok)
  }

  /** The setup of the k-th subsystem succeeded, in the state the earlier ones left. */
  predicate StepSucceeds(v: OriginView, isPlaying: bool, y: real, subs: seq<Option<InputSubsystem>>, k: nat)
    requires k < |subs|
  {
    SetupOne(SetupAll(v, isPlaying, y, subs[..k]).view, isPlaying, y, subs[k]).ok
  }

  /** Setup succeeds exactly when the setup of every subsystem succeeded (so it
      succeeds with no subsystems at all). */
  lemma {:induction false} SetupAllSucceedsIffEverySubsystemDoes(
    v: OriginView, isPlaying: bool, y: real, subs: seq<Option<InputSubsystem>>)
    ensures SetupAll(v, isPlaying, y, subs).ok <==>
            forall k: nat :: k < |subs| ==> StepSucceeds(v, isPlaying, y, subs, k)
    decreases |subs|
  {
    if subs != [] {
      var n := |subs| - 1;
      var init := subs[..n];
      SetupAllSucceedsIffEverySubsystemDoes(v, isPlaying, y, init);
      forall k: nat | k < n
        ensures StepSucceeds(v, isPlaying, y, subs, k) == StepSucceeds(v, isPlaying, y, init, k)
      {
        assert init[..k] == subs[..k];
      }
      assert StepSucceeds(v, isPlaying, y, subs, n) == SetupOne(SetupAll(v, isPlaying, y, init).view, isPlaying, y, subs[n]).ok;
    }
  }

  /** A null entry in the subsystem list makes the whole setup fail. */
  lemma NullSubsystemFailsSetup(v: OriginView, isPlaying: bool, y: real, subs: seq<Option<InputSubsystem>>, k: nat)
    requires k < |subs| && subs[k].None?
    ensures !SetupAll(v, isPlaying, y, subs).ok
  {
    SetupAllSucceedsIffEverySubsystemDoes(v, isPlaying, y, subs);
    assert !StepSucceeds(v, isPlaying, y, subs, k);
  }

  /** How a call to RotateAroundCameraUsingOriginUp ends. */
  datatype RotateOutcome = Rotated | NotRotated | NullReference

  /** RotateAroundCameraUsingOriginUp as written: the origin object's up
      axis is read before RotateAroundCameraPosition checks whether that
      object exists, so a missing origin object throws instead of answering
      false. */
  function RotateAsWritten(hasCamera: bool, hasOriginBase: bool): (r: RotateOutcome)
    ensures r == Rotated <==> hasCamera && hasOriginBase
    ensures r == NullReference <==> !hasOriginBase
  {
    if !hasOriginBase then NullReference
    else if !hasCamera then NotRotated
    else Rotated
  }

  /** What the null check in RotateAroundCameraPosition is there for: the
      call never throws, and rotates exactly when both objects exist. */
  function RotateIntended(hasCamera: bool, hasOriginBase: bool): (r: RotateOutcome)
    ensures r != NullReference
    ensures r == Rotated <==> hasCamera && hasOriginBase
  {
    if !hasCamera || !hasOriginBase then NotRotated else Rotated
  }

  /** The two agree whenever the origin object exists; without it the
      written code throws, with or without a camera. */
  lemma MissingOriginBaseThrows(hasCamera: bool)
    ensures RotateAsWritten(hasCamera, true) == RotateIntended(hasCamera, true)
    ensures RotateAsWritten(hasCamera, false) == NullReference
    ensures RotateIntended(hasCamera, false) == NotRotated
  {
  }

  class XROrigin {
    /** Application.isPlaying. */
    const isPlaying: bool
    /** Whether Camera and OriginBaseGameObject are set. */
    const hasCamera: bool
    const hasOriginBase: bool
    /** The CharacterController component on OriginBaseGameObject, if any. */
    const characterController: CharacterController?

    var cameraFloorOffsetObject: OffsetTransform?
    var requestedTrackingOriginMode: TrackingOriginMode
    var cameraYOffset: real
    var currentTrackingOriginMode: bv32
    var cameraInitialized: bool
    /** CameraInOriginSpacePos, maintained by the engine's transforms. */
    var cameraInOriginSpacePos: Vec3
    /** OriginBaseGameObject.transform.position. */
    var originPosition: Vec3
    /** The angles the origin has been rotated by about its up axis through the camera. */
    var turns: seq<real>

    constructor (isPlaying: bool, hasCamera: bool, hasOriginBase: bool,
                 characterController: CharacterController?, offsetObject: OffsetTransform?)
      ensures this.isPlaying == isPlaying && this.hasCamera == hasCamera && this.hasOriginBase == hasOriginBase
      ensures this.characterController == characterController && cameraFloorOffsetObject == offsetObject
      ensures requestedTrackingOriginMode == NotSpecified && cameraYOffset == DefaultCameraYOffset
      ensures currentTrackingOriginMode == OriginUnknown && !cameraInitialized && turns == []
    {
      this.isPlaying := isPlaying;
      this.hasCamera := hasCamera;
      this.hasOriginBase := hasOriginBase;
      this.characterController := characterController;
      cameraFloorOffsetObject := offsetObject;
      requestedTrackingOriginMode := NotSpecified;
      cameraYOffset := DefaultCameraYOffset;
      currentTrackingOriginMode := OriginUnknown;
      cameraInitialized := false;
      cameraInOriginSpacePos := Zero3;
      originPosition := Zero3;
      turns := [];
    }

    function View(): OriginView
      reads this, cameraFloorOffsetObject
    {
      OriginView(requestedTrackingOriginMode, currentTrackingOriginMode,
                 if cameraFloorOffsetObject == null then None else Some(cameraFloorOffsetObject.localPosition))
    }

    /** MoveOffsetHeight(float): only the offset object's local y changes. */
    method MoveOffsetHeightTo(y: real)
      modifies cameraFloorOffsetObject
      ensures View() == old(View()).(offset := WithHeight(old(View()).offset, Some(y)))
    {
      if cameraFloorOffsetObject != null {
        var desired := cameraFloorOffsetObject.localPosition;
        desired := desired.(y := y);
        cameraFloorOffsetObject.localPosition := desired;
      }
    }

    /** MoveOffsetHeight(): the offset height the current mode asks for. */
    method MoveOffsetHeight()
      modifies cameraFloorOffsetObject
      ensures View() == ApplyOffset(old(View()), isPlaying, cameraYOffset)
    {
      if !isPlaying { return; }
      if currentTrackingOriginMode == OriginFloor {
        MoveOffsetHeightTo(0.0);
      } else if currentTrackingOriginMode == OriginDevice {
        MoveOffsetHeightTo(cameraYOffset);
      }
    }

    /** The CameraYOffset setter re-applies the offset height. */
    method SetCameraYOffset(value: real)
      modifies this`cameraYOffset, cameraFloorOffsetObject
      ensures cameraYOffset == value
      ensures View() == ApplyOffset(old(View()), isPlaying, value)
    {
      cameraYOffset := value;
      MoveOffsetHeight();
    }

    /** The CameraFloorOffsetObject setter re-applies the offset height to the new object. */
    method SetCameraFloorOffsetObject(value: OffsetTransform?)
      modifies this`cameraFloorOffsetObject, value
      ensures cameraFloorOffsetObject == value
      ensures View() == ApplyOffset(
                old(View()).(offset := if value == null then None else Some(old(value.localPosition))),
                isPlaying, cameraYOffset)
    {
      cameraFloorOffsetObject := value;
      MoveOffsetHeight();
    }

    /** SetupCamera(XRInputSubsystem); the subsystem's calls are abstract inputs. */
    method SetupCameraWith(sub: Option<InputSubsystem>) returns (successful: bool)
      modifies this`requestedTrackingOriginMode, this`currentTrackingOriginMode, cameraFloorOffsetObject
      ensures SetupReply(View(), successful) == SetupOne(old(View()), isPlaying, cameraYOffset, sub)
    {
      if sub.None? { return false; }
      var proceed;
      proceed, successful := NegotiateWith(sub.value);
      if !proceed { return false; }
      successful := RecenterWith(sub.value, successful);
    }

    /** The negotiation half of SetupCamera(XRInputSubsystem). */
    method NegotiateWith(s: InputSubsystem) returns (proceed: bool, successful: bool)
      modifies this`requestedTrackingOriginMode, this`currentTrackingOriginMode
      ensures var n := Negotiate(old(View()), s);
              proceed == n.Some? &&
              (n.None? ==> View() == old(View())) &&
              (n.Some? ==> View() == n.value.view && successful == n.value.ok)
    {
      proceed, successful := true, true;
      match requestedTrackingOriginMode {
        case NotSpecified =>
          currentTrackingOriginMode := s.trackingOriginMode;
        case _ =>
          if s.supportedModes == OriginUnknown { return false, false; }
          var equivalentFlagsMode := EquivalentFlags(requestedTrackingOriginMode);
          if s.supportedModes & equivalentFlagsMode == 0 {
            requestedTrackingOriginMode := NotSpecified;
            currentTrackingOriginMode := s.trackingOriginMode;
          } else {
            successful := s.setModeResult;
          }
      }
    }

    /** The end of SetupCamera(XRInputSubsystem): the offset height on
        success, then the recenter answer in Device mode. */
    method RecenterWith(s: InputSubsystem, ok: bool) returns (successful: bool)
      modifies cameraFloorOffsetObject
      ensures SetupReply(View(), successful) == Recenter(old(View()), ok, s, isPlaying, cameraYOffset)
    {
      successful := ok;
      if successful { MoveOffsetHeight(); }
      if currentTrackingOriginMode == OriginDevice || requestedTrackingOriginMode == Device {
        successful := s.recenterResult;
      }
    }

    /** SetupCamera(): set up every subsystem, accumulating whether all succeeded. */
    method SetupCamera(subs: seq<Option<InputSubsystem>>) returns (initialized: bool)
      modifies this`requestedTrackingOriginMode, this`currentTrackingOriginMode, cameraFloorOffsetObject
      ensures SetupReply(View(), initialized) == SetupAll(old(View()), isPlaying, cameraYOffset, subs)
    {
      initialized := true;
      var i := 0;
      while i < |subs|
        invariant 0 <= i <= |subs|
        invariant SetupReply(View(), initialized) == SetupAll(old(View()), isPlaying, cameraYOffset, subs[..i])
      {
        var ok := SetupCameraWith(subs[i]);
        if !ok { initialized := false; }
        assert subs[..i + 1][..i] == subs[..i];
        i := i + 1;
      }
      assert subs[..i] == subs;
    }

    /** TryInitializeCamera, without the retry coroutine. */
    method TryInitializeCamera(subs: seq<Option<InputSubsystem>>)
      modifies this`requestedTrackingOriginMode, this`currentTrackingOriginMode, this`cameraInitialized,
               cameraFloorOffsetObject
      ensures !isPlaying ==> View() == old(View()) && cameraInitialized == old(cameraInitialized)
      ensures isPlaying ==>
                SetupReply(View(), cameraInitialized) == SetupAll(old(View()), isPlaying, cameraYOffset, subs)
    {
      if !isPlaying { return; }
      cameraInitialized := SetupCamera(subs);
    }

    /** The RequestedTrackingOriginMode setter re-runs the camera setup. */
    method SetRequestedTrackingOriginMode(value: TrackingOriginMode, subs: seq<Option<InputSubsystem>>)
      modifies this`requestedTrackingOriginMode, this`currentTrackingOriginMode, this`cameraInitialized,
               cameraFloorOffsetObject
      ensures !isPlaying ==> View() == old(View()).(requested := value)
      ensures isPlaying ==>
                SetupReply(View(), cameraInitialized) ==
                SetupAll(old(View()).(requested := value), isPlaying, cameraYOffset, subs)
    {
      requestedTrackingOriginMode := value;
      TryInitializeCamera(subs);
    }

    /** The trackingOriginUpdated callback: adopt the subsystem's mode and re-apply the offset. */
    method OnTrackingOriginUpdated(sub: InputSubsystem)
      modifies this`currentTrackingOriginMode, cameraFloorOffsetObject
      ensures View() == ApplyOffset(old(View()).(current := sub.trackingOriginMode), isPlaying, cameraYOffset)
    {
      currentTrackingOriginMode := sub.trackingOriginMode;
      MoveOffsetHeight();
    }

    /** IsModeStale: never for NotSpecified; otherwise when some non-null
        subsystem reports a mode other than the requested one. */
    method IsModeStale(subs: seq<Option<InputSubsystem>>) returns (stale: bool)
      ensures stale <==>
                requestedTrackingOriginMode != NotSpecified &&
                exists k :: 0 <= k < |subs| && subs[k].Some? &&
                            subs[k].value.trackingOriginMode != EquivalentFlags(requestedTrackingOriginMode)
    {
      var i := 0;
      while i < |subs|
        invariant 0 <= i <= |subs|
        invariant requestedTrackingOriginMode != NotSpecified ==>
                    forall k :: 0 <= k < i && subs[k].Some? ==>
                                subs[k].value.trackingOriginMode == EquivalentFlags(requestedTrackingOriginMode)
      {
        if requestedTrackingOriginMode == NotSpecified { return false; }
        var equivalentFlagsMode := EquivalentFlags(requestedTrackingOriginMode);
        if subs[i].Some? && subs[i].value.trackingOriginMode != equivalentFlagsMode { return true; }
        i := i + 1;
      }
      return false;
    }

    /** RotateAroundCameraUsingOriginUp: turns the origin by `angle` about its up
        axis through the camera; nothing happens without a camera or an origin
        object. This is the intended behaviour (RotateIntended), not the
        written one (RotateAsWritten). */
    method RotateAroundCameraUsingOriginUp(angle: real) returns (rotated: bool)
      modifies this`turns
      ensures rotated == (RotateIntended(hasCamera, hasOriginBase) == Rotated)
      ensures rotated == (hasCamera && hasOriginBase)
      ensures turns == if rotated then old(turns) + [angle] else old(turns)
    {
      if !hasCamera || !hasOriginBase { return false; }
      turns := turns + [angle];
      return true;
    }
  }
}
