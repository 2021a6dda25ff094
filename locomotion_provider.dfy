/** SLocomotionProvider: the base of every locomotion provider. It asks the
    arbiter for the exclusive operation, gives it back, and raises its begin
    and end events only when the arbiter agreed. */
module Provider {
  import opened Common
  import opened Locomotion
  import Origin

  /** The two events a provider raises: beginLocomotion and endLocomotion. */
  datatype LocomotionEvent = BeganLocomotion | EndedLocomotion

  /** The events raised by `CanBeginLocomotion() && BeginLocomotion()`
      followed, on success, by `EndLocomotion()`. */
  function BracketEvents(began: bool): seq<LocomotionEvent> {
    if began then [BeganLocomotion, EndedLocomotion] else []
  }

  /** The phase table shared by the continuous move and turn providers:
      Idle and Started become Moving when the rig moved this tick, Moving
      becomes Done when it did not, and Done becomes Moving or Idle. */
  function NextPhase(p: Phase, moved: bool): (r: Phase)
    ensures r == Moving <==> moved
    ensures r == Done <==> p == Moving && !moved
    ensures !moved && p != Moving ==> r != Done && (r == p || (p == Done && r == Idle))
  {
    match p
    case Idle => if moved then Moving else Idle
    case Started => if moved then Moving else Started
    case Moving => if moved then Moving else Done
    case Done => if moved then Moving else Idle
  }

  /** Done lasts one tick: the tick after a Done tick is never Done again,
      and a provider that stops moving passes through Done to Idle. */
  lemma DoneLastsOneTick(p: Phase, moved: bool)
    ensures NextPhase(Done, moved) != Done
    ensures NextPhase(NextPhase(Moving, false), false) == Idle
  {
  }

  /** Beginning on a free lock always succeeds, and the matching finish by
      the same provider leaves the lock free again: the bracket a provider
      wraps around every move or turn never leaves the lock held. */
  lemma {:induction false} BracketRestoresLock(l: Lock, id: ProviderId, now: real)
    requires LockInv(l)
    ensures !IsHeld(l) ==> Request(l, Some(id), now).result == Success
    ensures !IsHeld(l) ==> Finish(Request(l, Some(id), now).lock, Some(id)) == Reply(l, Success)
    ensures IsHeld(l) ==> Request(l, Some(id), now).result != Success && Request(l, Some(id), now).lock == l
  {
    if !IsHeld(l) {
      RequestThenFinishRestores(l, id, now);
    }
  }

  class LocomotionProvider {
    /** The provider's identity, passed to the arbiter as `this`. */
    const id: ProviderId
    /** LocomotionSystem: the arbiter found on the same object, if any. */
    const system: LocomotionSystem?
    var phase: Phase
    /** The events raised so far, in order. */
    var raised: seq<LocomotionEvent>
    /** The invocation lists of beginLocomotion and endLocomotion. */
    var beginHandlers: seq<object>
    var endHandlers: seq<object>

    /** LocomotionSystem.XRRig, or null when there is no system. */
    function Rig(): Origin.XROrigin? {
      if system == null then null else system.xrRig
    }

    /** The rig as a frame: what a provider that turns or moves it may change. */
    function RigSet(): set<Origin.XROrigin> {
      if Rig() == null then {} else {Rig()}
    }

    predicate Valid()
      reads system
    {
      system != null ==> system.Valid()
    }

    constructor (id: ProviderId, system: LocomotionSystem?)
      ensures this.id == id && this.system == system
      ensures phase == Idle && raised == [] && beginHandlers == [] && endHandlers == []
    {
      this.id := id;
      this.system := system;
      phase := Idle;
      raised := [];
      beginHandlers := [];
      endHandlers := [];
    }

    /** CanBeginLocomotion: false without a system; otherwise exactly when
        the lock is free. */
    predicate CanBeginLocomotion()
      reads system
      ensures CanBeginLocomotion() ==> system != null
      ensures Valid() && system != null ==> (CanBeginLocomotion() <==> system.State() == Free)
    {
      system != null && !system.IsBusy()
    }

    /** BeginLocomotion: asks the arbiter for the lock; true exactly when it
        answered Success, and beginLocomotion is raised exactly then. */
    method BeginLocomotion(now: real) returns (success: bool)
      requires Valid()
      modifies system, this`raised
      ensures Valid()
      ensures system == null ==> !success
      ensures system != null ==>
                var r := Request(old(system.State()), Some(id), now);
                system.State() == r.lock && success == (r.result == Success)
      ensures raised == old(raised) + (if success then [BeganLocomotion] else [])
    {
      if system == null { return false; }
      var result := system.RequestExclusiveOperation(Some(id), now);
      success := result == Success;
      if success {
        raised := raised + [BeganLocomotion];
      }
    }

    /** EndLocomotion: gives the lock back; true exactly when the arbiter
        answered Success, and endLocomotion is raised exactly then. */
    method EndLocomotion() returns (success: bool)
      requires Valid()
      modifies system, this`raised
      ensures Valid()
      ensures system == null ==> !success
      ensures system != null ==>
                var r := Finish(old(system.State()), Some(id));
                system.State() == r.lock && success == (r.result == Success)
      ensures raised == old(raised) + (if success then [EndedLocomotion] else [])
    {
      if system == null { return false; }
      var result := system.FinishExclusiveOperation(Some(id));
      success := result == Success;
      if success {
        raised := raised + [EndedLocomotion];
      }
    }

    /** `CanBeginLocomotion() && BeginLocomotion()`: the guard every
        continuous provider puts before touching the rig. When it holds the
        provider has the lock; when it fails nothing changed. */
    method TryBegin(now: real) returns (began: bool)
      requires Valid()
      modifies system, this`raised
      ensures Valid()
      ensures began == old(CanBeginLocomotion())
      ensures began ==> system != null && system.State() == Lock(Some(id), now)
      ensures !began ==> system == null || system.State() == old(system.State())
      ensures raised == old(raised) + (if began then [BeganLocomotion] else [])
    {
      began := CanBeginLocomotion();
      if began {
        began := BeginLocomotion(now);
      }
    }
  }
}
