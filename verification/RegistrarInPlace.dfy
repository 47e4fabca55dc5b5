/** Registrar on objects: calls and retries are references, as asyncio's tasks are.
    Each method is the await-free stretch of register(), _attempt(),
    _retry_until_registered() or stop() that it names; an abstraction function reads
    the object graph as a state of module Registrar, and the method is proved to
    take that module's step. */
module RegistrarInPlace {
  import opened Basics
  import opened Identity
  import G = Registrar

  // ----- The objects -----

  /** A _retry_until_registered task. */
  class RetryTask {
    var pc: G.RetryPc
    var cancelled: bool

    constructor ()
      ensures pc == G.Asleep && !cancelled
    {
      pc, cancelled := G.Asleep, false;
    }
  }

  /** A register() call's place, with the retry it waits for in hand. */
  datatype CallerPc = Queued | StoppingRetry(retry: RetryTask) | InHook | Over | Gone

  class RegisterCall {
    const version: nat
    const origin: G.Origin
    var pc: CallerPc
    var cancelled: bool

    constructor (version: nat, origin: G.Origin)
      ensures this.version == version && this.origin == origin && pc == Queued && !cancelled
    {
      this.version, this.origin, pc, cancelled := version, origin, Queued, false;
    }
  }

  /** Who queues for the attempt lock. */
  datatype Waiter = CallWaits(call: RegisterCall) | RetryWaits(retry: RetryTask)

  // ----- The objects read as Registrar's values -----

  ghost function RetriesOf(retries: seq<RetryTask>): seq<G.Retry>
    reads retries
  {
    seq(|retries|, i requires 0 <= i < |retries| reads retries => G.Retry(retries[i].pc, retries[i].cancelled))
  }

  ghost function PcOf(retries: seq<RetryTask>, pc: CallerPc): G.CallPc {
    match pc
    case Queued => G.Queued
    case StoppingRetry(r) => G.StoppingRetry(if r in retries then IndexOf(retries, r) else 0)
    case InHook => G.InHook
    case Over => G.Over
    case Gone => G.Gone
  }

  ghost function CallsOf(retries: seq<RetryTask>, calls: seq<RegisterCall>): seq<G.Call>
    reads calls
  {
    seq(|calls|, i requires 0 <= i < |calls| reads calls =>
      G.Call(calls[i].version, calls[i].origin, PcOf(retries, calls[i].pc), calls[i].cancelled))
  }

  ghost predicate KnownWaiter(retries: seq<RetryTask>, calls: seq<RegisterCall>, w: Waiter) {
    match w
    case CallWaits(c) => c in calls
    case RetryWaits(r) => r in retries
  }

  ghost function WhoOf(retries: seq<RetryTask>, calls: seq<RegisterCall>, w: Waiter): G.Who {
    match w
    case CallWaits(c) => G.ByCall(if c in calls then IndexOf(calls, c) else 0)
    case RetryWaits(r) => G.ByRetry(if r in retries then IndexOf(retries, r) else 0)
  }

  ghost function LockOf(retries: seq<RetryTask>, calls: seq<RegisterCall>, queue: seq<Waiter>): seq<G.Who> {
    seq(|queue|, i requires 0 <= i < |queue| => WhoOf(retries, calls, queue[i]))
  }

  /** Later calls and retries leave the older ones their places. */
  lemma LockStays(retries: seq<RetryTask>, calls: seq<RegisterCall>, moreRetries: seq<RetryTask>,
                  moreCalls: seq<RegisterCall>, queue: seq<Waiter>)
    requires retries <= moreRetries && calls <= moreCalls && Distinct(moreRetries) && Distinct(moreCalls)
    requires forall w :: w in queue ==> KnownWaiter(retries, calls, w)
    ensures LockOf(moreRetries, moreCalls, queue) == LockOf(retries, calls, queue)
    ensures forall w :: w in queue ==> KnownWaiter(moreRetries, moreCalls, w)
  {
    forall i | 0 <= i < |queue|
      ensures WhoOf(moreRetries, moreCalls, queue[i]) == WhoOf(retries, calls, queue[i])
      ensures KnownWaiter(moreRetries, moreCalls, queue[i])
    {
      assert KnownWaiter(retries, calls, queue[i]);
      match queue[i]
      case CallWaits(c) => PlaceStays(calls, moreCalls, c);
      case RetryWaits(r) => PlaceStays(retries, moreRetries, r);
    }
  }

  // ----- The registrar -----

  class AlfredRegistrar {
    var manifest: nat
    var registered: nat
    var retry: RetryTask?
    var queue: seq<Waiter>
    var sending: Option<nat>
    ghost var calls: seq<RegisterCall>
    ghost var retries: seq<RetryTask>
    ghost var registrarStopped: bool
    ghost var hooks: nat

    ghost predicate Valid()
      reads this, calls
    {
      && Distinct(calls) && Distinct(retries)
      && (retry != null ==> retry in retries)
      && (forall w :: w in queue ==> KnownWaiter(retries, calls, w))
      && (forall c :: c in calls && c.pc.StoppingRetry? ==> c.pc.retry in retries)
    }

    ghost function Model(): G.State
      reads this, calls, retries
    {
      G.State(manifest, registered, CallsOf(retries, calls), RetriesOf(retries), PlaceOf(retries, retry),
              LockOf(retries, calls, queue), sending, registrarStopped, hooks)
    }

    constructor (manifest: nat)
      ensures Valid() && G.Initial(Model()) && this.manifest == manifest
    {
      this.manifest, registered, retry, queue, sending := manifest, 0, null, [], None;
      calls, retries, registrarStopped, hooks := [], [], false, 0;
    }

    /** register() up to the attempt lock. */
    method Register(origin: G.Origin) returns (c: RegisterCall)
      requires Valid() && G.Enabled(Model(), G.Registers(origin))
      modifies this`calls, this`queue
      ensures Valid() && fresh(c) && calls == old(calls) + [c]
      ensures Model() == G.Apply(old(Model()), G.Registers(origin))
    {
      c := new RegisterCall(manifest, origin);
      LockStays(retries, calls, retries, calls + [c], queue);
      ghost var lock := LockOf(retries, calls, queue);
      calls := calls + [c];
      queue := queue + [CallWaits(c)];
      assert LockOf(retries, calls, queue) == lock + [G.ByCall(|calls| - 1)];
      assert CallsOf(retries, calls) == old(CallsOf(retries, calls)) + [G.Call(manifest, origin, G.Queued, false)];
    }

    method SetPc(c: RegisterCall, pc: CallerPc)
      requires Valid() && c in calls && (pc.StoppingRetry? ==> pc.retry in retries)
      modifies c`pc
      ensures Valid() && c.pc == pc && |old(Model()).calls| == |calls|
      ensures Model() == G.WithCall(old(Model()), IndexOf(calls, c), PcOf(retries, pc))
    {
      c.pc := pc;
      var k := IndexOf(calls, c);
      ghost var was := old(CallsOf(retries, calls));
      assert CallsOf(retries, calls) == was[k := was[k].(pc := PcOf(retries, pc))];
    }

    method SetRetry(r: RetryTask, pc: G.RetryPc)
      requires Valid() && r in retries
      modifies r`pc
      ensures Valid() && r.pc == pc && |old(Model()).retries| == |retries|
      ensures Model() == G.WithRetry(old(Model()), IndexOf(retries, r), pc)
    {
      r.pc := pc;
      var i := IndexOf(retries, r);
      assert RetriesOf(retries) == old(RetriesOf(retries))[i := old(RetriesOf(retries))[i].(pc := pc)];
    }

    method RunHook()
      requires Valid()
      modifies this`hooks
      ensures hooks == old(hooks) + 1
      ensures Valid() && Model() == G.HookRuns(old(Model()))
    {
      hooks := hooks + 1;
    }

    /** stop() up to its await: self._retry is let go of before it is cancelled. */
    method LetGo() returns (was: RetryTask?)
      requires Valid()
      modifies this`retry, retry
      ensures Valid() && retry == null && was == old(retry) && (was != null ==> was.cancelled)
      ensures Model() == G.Detached(old(Model()))
    {
      was := retry;
      retry := null;
      if was != null {
        was.cancelled := true;
        var i := IndexOf(retries, was);
        assert RetriesOf(retries) == old(RetriesOf(retries))[i := old(RetriesOf(retries))[i].(cancelled := true)];
      }
    }

    /** The attempt in flight ends; its owner leaves the lock. */
    method AttemptEnds(tookEffect: bool)
      requires Valid() && queue != [] && sending.Some?
      modifies this`registered, this`sending, this`queue
      ensures Valid() && queue == old(queue)[1..] && sending.None?
      ensures registered == if tookEffect then old(sending).value else old(registered)
      ensures Model() == Ended(old(Model()), tookEffect)
    {
      if tookEffect {
        registered := sending.value;
      }
      sending, queue := None, queue[1..];
      assert LockOf(retries, calls, queue) == old(LockOf(retries, calls, queue))[1..];
    }

    /** A direct call's success stops the tracked retry before its hook runs. */
    method CallLanded(c: RegisterCall)
      requires Valid() && c in calls && queue != [] && queue[0] == CallWaits(c) && G.Enabled(Model(), G.Lands)
      modifies this, c, retry
      ensures Valid() && calls == old(calls) && Model() == G.Apply(old(Model()), G.Lands)
      ensures registered == old(sending).value && queue == old(queue)[1..] && sending.None?
      ensures retry == null && (old(retry) == null ==> c.pc == InHook && hooks == old(hooks) + 1)
      ensures old(retry) != null ==> old(retry).cancelled && c.pc == StoppingRetry(old(retry)) && hooks == old(hooks)
    {
      AttemptEnds(true);
      var was := LetGo();
      if was != null {
        SetPc(c, StoppingRetry(was));
      } else {
        SetPc(c, InHook);
        RunHook();
      }
    }

    /** A retry's success lets go of itself, if it is still the tracked one, and only
        then does the hook run. */
    method RetryLanded(r: RetryTask)
      requires Valid() && r in retries && queue != [] && queue[0] == RetryWaits(r) && G.Enabled(Model(), G.Lands)
      modifies this, r
      ensures Valid() && Model() == G.Apply(old(Model()), G.Lands)
      ensures registered == old(sending).value && queue == old(queue)[1..] && sending.None?
      ensures retry == if old(retry) == r then null else old(retry)
      ensures r.pc == G.RetryInHook && hooks == old(hooks) + 1
    {
      AttemptEnds(true);
      if retry == r {
        retry := null;
      }
      SetRetry(r, G.RetryInHook);
      RunHook();
    }

    method ScheduleRetry()
      requires Valid()
      modifies this`retry, this`retries
      ensures Valid() && retry != null && retry.pc != G.Ended
      ensures if old(retry != null && retry.pc != G.Ended) then retry == old(retry) else fresh(retry)
      ensures G.RetryLive(old(Model())) ==> Model() == old(Model()) && retry == old(retry)
      ensures !G.RetryLive(old(Model())) ==>
                (fresh(retry) && Model() == WithNewRetry(old(Model())))
    {
      if retry == null || retry.pc == G.Ended {
        var r := new RetryTask();
        LockStays(retries, calls, retries + [r], calls, queue);
        CallsStay(retries + [r]);
        retries := retries + [r];
        retry := r;
        assert RetriesOf(retries) == old(RetriesOf(retries)) + [G.Retry(G.Asleep, false)];
      }
    }

    lemma CallsStay(more: seq<RetryTask>)
      requires Valid() && retries <= more && Distinct(more)
      ensures CallsOf(more, calls) == CallsOf(retries, calls)
    {
      forall k | 0 <= k < |calls|
        ensures PcOf(more, calls[k].pc) == PcOf(retries, calls[k].pc)
      {
        if calls[k].pc.StoppingRetry? {
          PlaceStays(retries, more, calls[k].pc.retry);
        }
      }
    }

    /** A failed call schedules a retry unless a live one is tracked. */
    method CallFailed(c: RegisterCall, tookEffect: bool)
      requires Valid() && c in calls && queue != [] && queue[0] == CallWaits(c)
      requires G.Enabled(Model(), G.Fails(tookEffect))
      modifies this, c
      ensures Valid() && Model() == G.Apply(old(Model()), G.Fails(tookEffect))
      ensures c.pc == Over && queue == old(queue)[1..] && hooks == old(hooks)
      ensures retry != null && retry.pc != G.Ended
      ensures if old(retry != null && retry.pc != G.Ended) then retry == old(retry) else fresh(retry)
    {
      AttemptEnds(tookEffect);
      ScheduleRetry();
      SetPc(c, Over);
    }

    /** A failed retry goes back to sleep. */
    method RetryFailed(r: RetryTask, tookEffect: bool)
      requires Valid() && r in retries && queue != [] && queue[0] == RetryWaits(r)
      requires G.Enabled(Model(), G.Fails(tookEffect))
      modifies this, r
      ensures Valid() && Model() == G.Apply(old(Model()), G.Fails(tookEffect))
      ensures r.pc == G.Asleep && retry == old(retry) && queue == old(queue)[1..] && hooks == old(hooks)
    {
      AttemptEnds(tookEffect);
      SetRetry(r, G.Asleep);
    }

    /** register(), resumed by the end of the retry it cancelled. */
    method StopWaitEnded(c: RegisterCall)
      requires Valid() && c in calls && G.Enabled(Model(), G.StopWaitOver(IndexOf(calls, c)))
      modifies c, this`hooks
      ensures c.pc == InHook && hooks == old(hooks) + 1
      ensures Valid() && Model() == G.Apply(old(Model()), G.StopWaitOver(IndexOf(calls, c)))
    {
      SetPc(c, InHook);
      RunHook();
    }

    /** stop() at shutdown. */
    method Stop()
      requires Valid() && G.Enabled(Model(), G.RegistrarStops)
      modifies this`retry, this`registrarStopped, retry
      ensures Valid() && Model() == G.Apply(old(Model()), G.RegistrarStops)
    {
      var _ := LetGo();
      registrarStopped := true;
    }
  }

  function WithNewRetry(s: G.State): G.State {
    s.(retries := s.retries + [G.Retry(G.Asleep, false)], tracked := Some(|s.retries|))
  }

  /** The attempt in flight is over, its owner still to go on. */
  function Ended(s: G.State, tookEffect: bool): G.State
    requires s.lock != [] && s.sending.Some?
  {
    s.(registered := if tookEffect then s.sending.value else s.registered, sending := None, lock := s.lock[1..])
  }
}
