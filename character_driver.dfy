/** SCharacterControllerDriver: keeps the rig's CharacterController sized to
    the camera. It listens to a locomotion provider's begin and end events
    and, on each, sets the capsule's height to the camera's height above the
    origin (clamped) and puts its centre under the camera. */
module CharacterDriver {
  import opened Common
  import opened Provider
  import Origin

  /** maxHeight: positive infinity by default, so no upper clamp. */
  datatype UpperBound = Unbounded | AtMost(limit: real)

  /** Mathf.Clamp(value, min, max): min below min, max above max, the value
      otherwise. When min > max a value below min still gets min. */
  function Clamp(value: real, min: real, max: UpperBound): (r: real)
    ensures value < min ==> r == min
    ensures min <= value && (max.Unbounded? || value <= max.limit) ==> r == value
    ensures min <= value && max.AtMost? && value > max.limit ==> r == max.limit
  {
    if value < min then min
    else if max.AtMost? && value > max.limit then max.limit
    else value
  }

  /** With min <= max the clamped value lies within the bounds, is the
      nearest point of them to the value, and clamping again changes
      nothing. */
  lemma ClampIsWithinBounds(value: real, min: real, max: UpperBound)
    requires max.AtMost? ==> min <= max.limit
    ensures var r := Clamp(value, min, max);
            min <= r && (max.AtMost? ==> r <= max.limit) &&
            Clamp(r, min, max) == r &&
            (r != value ==> r == min || r == max.limit)
  {
  }

  /** The capsule UpdateCharacterController gives the controller. */
  datatype Capsule = Capsule(height: real, center: Vec3)

  /** The capsule for a camera at `camera` in origin space: its height is the
      camera's height clamped, its centre is under the camera at half the
      height plus the skin width. */
  function SizeCapsule(camera: Vec3, minHeight: real, maxHeight: UpperBound, skinWidth: real): (c: Capsule)
    ensures c.height == Clamp(camera.y, minHeight, maxHeight)
    ensures c.center.x == camera.x && c.center.z == camera.z
  {
    var height := Clamp(camera.y, minHeight, maxHeight);
    Capsule(height, Vec3(camera.x, height / 2.0 + skinWidth, camera.z))
  }

  /** The capsule stands on the origin's floor, lifted by the skin width: its
      bottom is at skinWidth and its top at height + skinWidth. With the
      camera within the bounds the top is the camera's height plus the skin
      width. */
  lemma CapsuleStandsOnFloor(camera: Vec3, minHeight: real, maxHeight: UpperBound, skinWidth: real)
    ensures var c := SizeCapsule(camera, minHeight, maxHeight, skinWidth);
            c.center.y - c.height / 2.0 == skinWidth &&
            c.center.y + c.height / 2.0 == c.height + skinWidth
    ensures minHeight <= camera.y && (maxHeight.AtMost? ==> camera.y <= maxHeight.limit) ==>
              var c := SizeCapsule(camera, minHeight, maxHeight, skinWidth);
              c.center.y + c.height / 2.0 == camera.y + skinWidth
  {
  }

  /** What assigning the same provider again does to one of its handler
      lists (the list becomes RemoveLast(h, driver) + [driver], as
      SetLocomotionProvider states): a list that ends with the driver's
      handler is left as it was, and a list without it gains one entry. */
  lemma {:induction false} ReassignKeepsHandlers(handlers: seq<object>, driver: object)
    ensures |handlers| > 0 && handlers[|handlers| - 1] == driver ==>
              RemoveLast(handlers, driver) + [driver] == handlers
    ensures driver !in handlers ==> RemoveLast(handlers, driver) + [driver] == handlers + [driver]
  {
    if |handlers| > 0 && handlers[|handlers| - 1] == driver {
      var init := handlers[..|handlers| - 1];
      assert handlers == init + [driver];
      RemoveLastUndoesAppend(init, driver);
    }
  }

  /** A provider reference as a frame. */
  function Providers(p: LocomotionProvider?): set<LocomotionProvider> {
    if p == null then {} else {p}
  }

  /** The controller a setup with provider `p` would find: the one on the
      rig's origin base. */
  function FoundControllers(p: LocomotionProvider?): set<Origin.CharacterController> {
    if p == null || p.Rig() == null || p.Rig().characterController == null then {}
    else {p.Rig().characterController}
  }

  /** What SetupCharacterController dereferences: the provider's system and,
      when it has a rig, the rig's origin base. */
  predicate CanSetUp(p: LocomotionProvider?) {
    p != null ==> p.system != null && (p.Rig() != null ==> p.Rig().hasOriginBase)
  }

  class CharacterControllerDriver {
    var locomotionProvider: LocomotionProvider?
    var minHeight: real
    var maxHeight: UpperBound
    var xrOrigin: Origin.XROrigin?
    var characterController: Origin.CharacterController?

    constructor (locomotionProvider: LocomotionProvider?)
      ensures this.locomotionProvider == locomotionProvider
      ensures minHeight == 0.0 && maxHeight == Unbounded
      ensures xrOrigin == null && characterController == null
    {
      this.locomotionProvider := locomotionProvider;
      minHeight := 0.0;
      maxHeight := Unbounded;
      xrOrigin := null;
      characterController := null;
    }

    function Controllers(): set<Origin.CharacterController>
      reads this
    {
      if characterController == null then {} else {characterController}
    }

    /** UpdateCharacterController: nothing without an origin or a
        controller; otherwise the controller gets the capsule for the
        camera's position in origin space. */
    method UpdateCharacterController()
      modifies Controllers()`height, Controllers()`center
      ensures xrOrigin == null || characterController == null ==>
                forall c :: c in old(Controllers()) ==> c.height == old(c.height) && c.center == old(c.center)
      ensures xrOrigin != null && characterController != null ==>
                Capsule(characterController.height, characterController.center) ==
                  SizeCapsule(xrOrigin.cameraInOriginSpacePos, minHeight, maxHeight, characterController.skinWidth)
    {
      if xrOrigin == null || characterController == null { return; }
      var height := Clamp(xrOrigin.cameraInOriginSpacePos.y, minHeight, maxHeight);
      var center := xrOrigin.cameraInOriginSpacePos.(y := height / 2.0 + characterController.skinWidth);
      characterController.height := height;
      characterController.center := center;
    }

    /** Subscribe: adds this driver's handlers to both events of a provider. */
    method Subscribe(provider: LocomotionProvider?)
      modifies Providers(provider)`beginHandlers, Providers(provider)`endHandlers
      ensures provider != null ==>
                provider.beginHandlers == old(provider.beginHandlers) + [this] &&
                provider.endHandlers == old(provider.endHandlers) + [this]
    {
      if provider != null {
        provider.beginHandlers := provider.beginHandlers + [this];
        provider.endHandlers := provider.endHandlers + [this];
      }
    }

    /** Unsubscribe: removes this driver's last handler from both events. */
    method Unsubscribe(provider: LocomotionProvider?)
      modifies Providers(provider)`beginHandlers, Providers(provider)`endHandlers
      ensures provider != null ==>
                provider.beginHandlers == RemoveLast(old(provider.beginHandlers), this) &&
                provider.endHandlers == RemoveLast(old(provider.endHandlers), this)
    {
      if provider != null {
        provider.beginHandlers := RemoveLast(provider.beginHandlers, this);
        provider.endHandlers := RemoveLast(provider.endHandlers, this);
      }
    }

    /** SetupCharacterController: without a provider or a rig nothing
        changes; otherwise the driver takes the rig and the controller on
        its origin base (which may be missing). */
    method SetupCharacterController()
      requires CanSetUp(locomotionProvider)
      modifies this`xrOrigin, this`characterController
      ensures locomotionProvider == null || locomotionProvider.Rig() == null ==>
                xrOrigin == old(xrOrigin) && characterController == old(characterController)
      ensures locomotionProvider != null && locomotionProvider.Rig() != null ==>
                xrOrigin == locomotionProvider.Rig() && characterController == xrOrigin.characterController
    {
      if locomotionProvider == null || locomotionProvider.system.xrRig == null { return; }
      xrOrigin := locomotionProvider.system.xrRig;
      characterController := xrOrigin.characterController;
    }

    /** The locomotionProvider setter: unsubscribes from the old provider,
        subscribes to the new one, then sets up and sizes the controller. */
    method SetLocomotionProvider(value: LocomotionProvider?)
      requires CanSetUp(value)
      modifies this`locomotionProvider, this`xrOrigin, this`characterController,
               Providers(locomotionProvider)`beginHandlers, Providers(locomotionProvider)`endHandlers,
               Providers(value)`beginHandlers, Providers(value)`endHandlers,
               Controllers()`height, Controllers()`center, FoundControllers(value)`height, FoundControllers(value)`center
      ensures locomotionProvider == value
      ensures old(locomotionProvider) != null && old(locomotionProvider) != value ==>
                old(locomotionProvider).beginHandlers == RemoveLast(old(locomotionProvider.beginHandlers), this) &&
                old(locomotionProvider).endHandlers == RemoveLast(old(locomotionProvider.endHandlers), this)
      ensures value != null && old(locomotionProvider) != value ==>
                value.beginHandlers == old(value.beginHandlers) + [this] &&
                value.endHandlers == old(value.endHandlers) + [this]
      ensures value != null && old(locomotionProvider) == value ==>
                value.beginHandlers == RemoveLast(old(value.beginHandlers), this) + [this] &&
                value.endHandlers == RemoveLast(old(value.endHandlers), this) + [this]
      ensures value == null || value.Rig() == null ==>
                xrOrigin == old(xrOrigin) && characterController == old(characterController)
      ensures value != null && value.Rig() != null ==>
                xrOrigin == value.Rig() && characterController == xrOrigin.characterController
      ensures xrOrigin != null && characterController != null ==>
                Capsule(characterController.height, characterController.center) ==
                  SizeCapsule(xrOrigin.cameraInOriginSpacePos, minHeight, maxHeight, characterController.skinWidth)
    {
      Unsubscribe(locomotionProvider);
      locomotionProvider := value;
      Subscribe(locomotionProvider);
      SetupCharacterController();
      UpdateCharacterController();
    }

    /** The beginLocomotion handler: resizes the controller. */
    method OnBeginLocomotion()
      modifies Controllers()`height, Controllers()`center
      ensures xrOrigin != null && characterController != null ==>
                Capsule(characterController.height, characterController.center) ==
                  SizeCapsule(xrOrigin.cameraInOriginSpacePos, minHeight, maxHeight, characterController.skinWidth)
    {
      UpdateCharacterController();
    }

    /** The endLocomotion handler: resizes the controller. */
    method OnEndLocomotion()
      modifies Controllers()`height, Controllers()`center
      ensures xrOrigin != null && characterController != null ==>
                Capsule(characterController.height, characterController.center) ==
                  SizeCapsule(xrOrigin.cameraInOriginSpacePos, minHeight, maxHeight, characterController.skinWidth)
    {
      UpdateCharacterController();
    }
  }
}
