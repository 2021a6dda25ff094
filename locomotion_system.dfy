/** SLocomotionSystem: the arbiter that lets one locomotion provider at a time
    move the rig, with a timeout that frees a lock its holder never released. */
module Locomotion {
  import opened Common
  import Origin

  /** The arbiter's state: the provider holding the exclusive operation, if
      any, and the time it was granted. */
  datatype Lock = Lock(holder: Option<ProviderId>, since: real)

  const Free: Lock := Lock(None, 0.0)

  /** The arbiter keeps the timestamp at 0 whenever nobody holds the lock. */
  predicate LockInv(l: Lock) { l.holder.None? ==> l.since == 0.0 }

  /** IsBusy: some provider holds the exclusive operation. */
  predicate IsHeld(l: Lock) { l.holder.Some? }

  datatype Reply = Reply(lock: Lock, result: RequestResult)

  /** RequestExclusiveOperation: a null provider is an error; a free lock is
      granted to the caller at `now`; a lock held by another provider is busy;
      a second request by the holder is an error. */
  function Request(l: Lock, provider: Option<ProviderId>, now: real): (r: Reply)
    ensures r.result == Success <==> provider.Some? && !IsHeld(l)
    ensures r.result == Success ==> r.lock == Lock(provider, now)
    ensures r.result == Busy <==> provider.Some? && IsHeld(l) && l.holder != provider
    ensures r.result != Success ==> r.lock == l
  {
    if provider.None? then Reply(l, Error)
    else if l.holder.None? then Reply(Lock(provider, now), Success)
    else if l.holder != provider then Reply(l, Busy)
    else Reply(l, Error)
  }

  /** FinishExclusiveOperation: only the holder can finish, which frees the
      lock and clears the timestamp; every other call is an error that
      changes nothing. */
  function Finish(l: Lock, provider: Option<ProviderId>): (r: Reply)
    ensures r.result == Success <==> provider.Some? && l.holder == provider
    ensures r.result == Success ==> r.lock == Free
    ensures r.result != Success ==> r.result == Error && r.lock == l
  {
    if provider.None? || l.holder.None? then Reply(l, Error)
    else if l.holder == provider then Reply(Free, Success)
    else Reply(l, Error)
  }

  /** The per-tick sweep of Update: a lock held strictly longer than the
      timeout is freed; nothing else changes. */
  function Sweep(l: Lock, now: real, timeout: real): (r: Lock)
    ensures IsHeld(l) && now > l.since + timeout ==> r == Free
    ensures !(IsHeld(l) && now > l.since + timeout) ==> r == l
  {
    if l.holder.Some? && now > l.since + timeout then Free else l
  }

  /** One call into the arbiter. */
  datatype LockOp =
    | RequestOp(provider: Option<ProviderId>, now: real)
    | FinishOp(provider: Option<ProviderId>)
    | SweepOp(now: real, timeout: real)

  function Step(l: Lock, op: LockOp): Lock {
    match op
    case RequestOp(p, now) => Request(l, p, now).lock
    case FinishOp(p) => Finish(l, p).lock
    case SweepOp(now, timeout) => Sweep(l, now, timeout)
  }

  /** The lock after a sequence of calls. */
  function Run(l: Lock, ops: seq<LockOp>): Lock
    decreases |ops|
  {
    if ops == [] then l else Run(Step(l, ops[0]), ops[1..])
  }

  /** 1 while the lock is held, 0 while it is free. */
  function HeldCount(l: Lock): nat { if IsHeld(l) then 1 else 0 }

  /** How many calls in the sequence granted the lock. */
  function Grants(l: Lock, ops: seq<LockOp>): nat
    decreases |ops|
  {
    if ops == [] then 0
    else
      var granted := ops[0].RequestOp? && Request(l, ops[0].provider, ops[0].now).result == Success;
      (if granted then 1 else 0) + Grants(Step(l, ops[0]), ops[1..])
  }

  /** How many calls in the sequence freed a held lock: finishes by the holder
      and sweeps that timed the holder out. */
  function Releases(l: Lock, ops: seq<LockOp>): nat
    decreases |ops|
  {
    if ops == [] then 0
    else
      var released := IsHeld(l) && !IsHeld(Step(l, ops[0]));
      (if released then 1 else 0) + Releases(Step(l, ops[0]), ops[1..])
  }

  /** Every call keeps the arbiter's invariant. */
  lemma StepKeepsInv(l: Lock, op: LockOp)
    requires LockInv(l)
    ensures LockInv(Step(l, op))
  {
  }

  /** Any sequence of requests, finishes and sweeps keeps the invariant: a
      free lock always has timestamp 0. */
  lemma {:induction false} RunKeepsInv(l: Lock, ops: seq<LockOp>)
    requires LockInv(l)
    ensures LockInv(Run(l, ops))
    decreases |ops|
  {
    if ops != [] {
      StepKeepsInv(l, ops[0]);
      RunKeepsInv(Step(l, ops[0]), ops[1..]);
    }
  }

  /** Mutual exclusion over any sequence of calls: every grant is matched by a
      release before the next grant, so grants minus releases is the change in
      whether the lock is held, which is -1, 0 or 1. */
  lemma {:induction false} GrantsAreExclusive(l: Lock, ops: seq<LockOp>)
    ensures HeldCount(l) + Grants(l, ops) == Releases(l, ops) + HeldCount(Run(l, ops))
    decreases |ops|
  {
    if ops != [] {
      GrantsAreExclusive(Step(l, ops[0]), ops[1..]);
    }
  }

  /** A lock held past the timeout is freed by the sweep, after which any
      provider's request is granted in the same tick. */
  lemma StaleLockIsRecovered(l: Lock, now: real, timeout: real, p: ProviderId)
    requires IsHeld(l) && now > l.since + timeout
    ensures Request(Sweep(l, now, timeout), Some(p), now) == Reply(Lock(Some(p), now), Success)
  {
  }

  /** Request followed by Finish by the same provider returns a free lock to
      exactly the state it had. */
  lemma {:induction false} RequestThenFinishRestores(l: Lock, p: ProviderId, now: real)
    requires LockInv(l) && !IsHeld(l)
    ensures Request(l, Some(p), now).result == Success
    ensures Finish(Request(l, Some(p), now).lock, Some(p)) == Reply(l, Success)
  {
  }

  class LocomotionSystem {
    var currentExclusiveProvider: Option<ProviderId>
    var timeMadeExclusive: real
    const operationTimeout: real
    /** XRRig: the origin component on the same object, if any. */
    const xrRig: Origin.XROrigin?

    function State(): Lock
      reads this
    {
      Lock(currentExclusiveProvider, timeMadeExclusive)
    }

    predicate Valid()
      reads this
    {
      LockInv(State())
    }

    /** IsBusy: a holder exists; when there is none the lock is the free state. */
    predicate IsBusy()
      reads this
      ensures Valid() ==> (IsBusy() <==> State() != Free)
    {
      currentExclusiveProvider.Some?
    }

    constructor (operationTimeout: real, xrRig: Origin.XROrigin?)
      ensures Valid() && State() == Free
      ensures this.operationTimeout == operationTimeout && this.xrRig == xrRig
    {
      currentExclusiveProvider := None;
      timeMadeExclusive := 0.0;
      this.operationTimeout := operationTimeout;
      this.xrRig := xrRig;
    }

    /** Update: the timeout sweep. */
    method Update(now: real)
      requires Valid()
      modifies this
      ensures Valid()
      ensures State() == Sweep(old(State()), now, operationTimeout)
    {
      if currentExclusiveProvider.Some? && now > timeMadeExclusive + operationTimeout {
        ResetExclusivity();
      }
    }

    method RequestExclusiveOperation(provider: Option<ProviderId>, now: real) returns (result: RequestResult)
      requires Valid()
      modifies this
      ensures Valid()
      ensures Reply(State(), result) == Request(old(State()), provider, now)
    {
      if provider.None? { return Error; }
      if currentExclusiveProvider.None? {
        currentExclusiveProvider := provider;
        timeMadeExclusive := now;
        return Success;
      }
      return if currentExclusiveProvider != provider then Busy else Error;
    }

    method ResetExclusivity()
      modifies this
      ensures Valid() && State() == Free
    {
      currentExclusiveProvider := None;
      timeMadeExclusive := 0.0;
    }

    method FinishExclusiveOperation(provider: Option<ProviderId>) returns (result: RequestResult)
      requires Valid()
      modifies this
      ensures Valid()
      ensures Reply(State(), result) == Finish(old(State()), provider)
    {
      if provider.None? || currentExclusiveProvider.None? { return Error; }
      if currentExclusiveProvider == provider {
        ResetExclusivity();
        return Success;
      }
      return Error;
    }
  }
}
