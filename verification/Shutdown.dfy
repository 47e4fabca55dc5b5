/** The lifespan's shutdown (app/server.py): after its final clear, exactly when can
    a live-state write still be requested? Whoever queued for the lifecycle lock in
    time may still get it; nobody comes anew. */
module Shutdown {
  import opened Basics
  import Runs
  import opened LiveState
  import R = Replication
  import G = Registrar
  import M = Mirror
  import opened Coupled

  // ----- When a write can still follow -----

  /** An attempt that could still land, or a task that could still make one. */
  predicate CanRegister(s: State) {
    || s.refreshRuns
    || s.g.tracked.Some?
    || (exists k :: 0 <= k < |s.g.calls| && CanLand(s.g.calls[k]))
  }

  predicate CanLand(c: G.Call) {
    GoesOn(c) && (c.pc == G.Queued || c.pc.StoppingRetry?)
  }

  /** The hash is dirty, or a write is pending that can fail. */
  predicate CanBeDirty(w: R.World) {
    w.replica.store.dirty || exists i :: 0 <= i < |w.Queue()| && w.Queue()[i].owner != Orphan
  }

  /** A caller is still queued for the lock, the connection is not down for good, or
      a hook can still find the hash dirty. */
  predicate CanStillWrite(s: State) {
    || s.callers > 0
    || s.w.phase != R.Down || s.w.loop
    || (CanRegister(s) && CanBeDirty(s.w))
  }

  // ----- Where it cannot, nothing follows -----

  predicate Down(s: State) {
    s.cleared && s.lifespan.PastStop() && s.callers == 0 && s.w.phase == R.Down && !s.w.loop
  }

  /** No replication step asks for a write while the connection is down for good. */
  lemma DownJoinsNothing(s: State, t: R.Step)
    requires Down(s) && ConnectionFits(s.w) && Enabled(s, Replicates(t))
    ensures Joined(s.w, R.Apply(s.w, t), Removed(t)) == 0
  {
    if t.Lands? {
      R.LandingIs(s.w);
    }
  }

  lemma DownStays(s: State, step: Step)
    requires Inv(s) && Down(s) && Enabled(s, step)
    ensures Down(Apply(s, step))
  {
    match step
    case Replicates(t) => PhaseFollows(s.w, t);
    case Registers(u) => HookFits(s, u);
    case _ =>
  }

  /** Nobody can register: no attempt is under way that could end, and none begins. */
  lemma NobodyStarts(g: G.State, u: G.Step)
    requires G.Inv(g) && G.Enabled(g, u) && !u.Registers? && g.tracked.None?
    requires forall k :: 0 <= k < |g.calls| ==> !CanLand(g.calls[k])
    ensures G.Apply(g, u).hooks == g.hooks && G.Apply(g, u).tracked.None?
    ensures forall k :: 0 <= k < |G.Apply(g, u).calls| ==> !CanLand(G.Apply(g, u).calls[k])
  {
    if g.lock != [] {
      assert g.lock[0] in g.lock && G.Cancelled(g, g.lock[0]);
    }
    CallsOnlyEnd(g, u);
  }

  lemma UnregisteredStays(s: State, step: Step)
    requires Inv(s) && Down(s) && !CanRegister(s) && Enabled(s, step)
    ensures !CanRegister(Apply(s, step)) && Apply(s, step).requested == s.requested
  {
    match step
    case Replicates(t) =>
      DownJoinsNothing(s, t);
      CancellationFits(s.g, t);
    case Registers(u) => NobodyStarts(s.g, u);
    case _ =>
  }

  lemma CleanStays(s: State, step: Step)
    requires Inv(s) && Down(s) && !CanBeDirty(s.w) && Enabled(s, step)
    ensures !CanBeDirty(Apply(s, step).w) && Apply(s, step).requested == s.requested
  {
    match step
    case Replicates(t) =>
      DownJoinsNothing(s, t);
      CleanMoves(s.w, t);
    case Registers(u) => assert HookedWorld(s, u) == s.w;
    case _ =>
  }

  lemma CleanMoves(w: R.World, t: R.Step)
    requires w.phase == R.Down && !w.loop && !CanBeDirty(w) && R.Enabled(w, t) && OwnStep(t)
    ensures !CanBeDirty(R.Apply(w, t))
  {
    if w.Queue() != [] {
      assert w.Queue()[0].owner == Orphan;
    }
    if t.Unwinds? {
      forall k | 0 <= k < |R.Apply(w, t).Queue()|
        ensures R.Apply(w, t).Queue()[k].owner == Orphan
      {
        assert R.Apply(w, t).Queue()[k] == w.Queue()[if k < t.i then k else k + 1];
      }
    } else {
      assert R.Apply(w, t).Queue() == w.Queue();
    }
  }

  /** Down for good, with so many writes requested and no way to request another. */
  ghost predicate Done(s: State, requested: nat) {
    Inv(s) && Down(s) && s.requested == requested && (!CanRegister(s) || !CanBeDirty(s.w))
  }

  lemma DoneStays(s: State, requested: nat, step: Step)
    requires Done(s, requested) && Enabled(s, step)
    ensures Done(Apply(s, step), requested)
  {
    StepKeeps(s, step);
    DownStays(s, step);
    if !CanRegister(s) {
      UnregisteredStays(s, step);
    } else {
      CleanStays(s, step);
    }
  }

  lemma DoneRequestsNothing(s: State, z: State)
    requires Done(s, s.requested) && Leads(s, z)
    ensures z.requested == s.requested
  {
    forall x, step | Done(x, s.requested) && Next(x, step).Some?
      ensures Done(Next(x, step).value, s.requested)
    {
      DoneStays(x, s.requested, step);
    }
    Runs.ReachableKeeps(x => x == s, Next, x => Done(x, s.requested), z);
  }

  // ----- Where it can, a write does follow in some run -----

  /** On the way from a: the final clear is asked for, and no fewer writes than there. */
  ghost predicate On(a: State, s: State) {
    Leads(a, s) && Inv(s) && s.cleared && a.requested <= s.requested
  }

  /** A write was requested on the way. */
  predicate Late(a: State, s: State) {
    a.requested < s.requested
  }

  lemma Take(a: State, s: State, step: Step) returns (z: State)
    requires On(a, s) && Enabled(s, step)
    ensures On(a, z) && z == Apply(s, step) && s.requested <= z.requested
  {
    StepKeeps(s, step);
    z := Runs.Reach(x => x == a, Next, s, step);
  }

  // ----- The queue empties -----

  /** The writer's own steps leave the registrar and the lifespan alone. */
  lemma WriterMoves(a: State, s: State, t: R.Step) returns (z: State)
    requires On(a, s) && R.Enabled(s.w, t) && (t.Lands? || t.Fails? || t.Unwinds?)
    ensures On(a, z) && z == s.(w := R.Apply(s.w, t), requested := z.requested)
    ensures |R.Apply(s.w, t).Queue()| >= |s.w.Queue()| ==> Late(a, z)
  {
    z := Take(a, s, Replicates(t));
  }

  /** Nothing but the writer's side of the world has moved. */
  predicate SameConnection(w: R.World, z: R.World) {
    z.phase == w.phase && z.loop == w.loop && z.replica.connState == w.replica.connState
  }

  lemma HeadLeaves(w: R.World) returns (t: R.Step)
    requires w.Queue() != []
    ensures R.Enabled(w, t) && (t.Lands? || t.Unwinds?) && SameConnection(w, R.Apply(w, t))
    ensures R.Apply(w, t).Queue() == w.Queue()[1..] || |R.Apply(w, t).Queue()| == |w.Queue()|
  {
    t := if R.Doomed(w.phase, w.Queue()[0].owner) then R.Unwinds(0, false) else R.Lands;
  }

  /** One by one the pending writes leave the queue, unless a landing asks for another. */
  lemma {:induction false} ToEmptyQueue(a: State, s: State) returns (z: State)
    requires On(a, s)
    ensures On(a, z)
    ensures Late(a, z) ||
            (z.w.Queue() == [] && SameConnection(s.w, z.w) &&
             z.g == s.g && z.callers == s.callers && z.lifespan == s.lifespan)
    decreases |s.w.Queue()|
  {
    z := s;
    if s.w.Queue() != [] {
      var t := HeadLeaves(s.w);
      z := WriterMoves(a, s, t);
      if z.w.Queue() == s.w.Queue()[1..] {
        z := ToEmptyQueue(a, z);
      }
    }
  }

  // ----- Cancelled calls unwind -----

  function Busy(calls: seq<G.Call>, origin: G.Origin): nat {
    if calls == [] then 0
    else
      var last := calls[|calls| - 1];
      Busy(calls[..|calls| - 1], origin) + if last.origin == origin && !G.Idle(last) then 1 else 0
  }

  lemma {:induction false} BusyCall(calls: seq<G.Call>, origin: G.Origin) returns (k: nat)
    requires Busy(calls, origin) > 0
    ensures k < |calls| && calls[k].origin == origin && !G.Idle(calls[k])
  {
    k := |calls| - 1;
    if calls[k].origin != origin || G.Idle(calls[k]) {
      k := BusyCall(calls[..k], origin);
    }
  }

  lemma {:induction false} BusyLess(calls: seq<G.Call>, k: nat, c: G.Call, origin: G.Origin)
    requires k < |calls| && calls[k].origin == origin && !G.Idle(calls[k]) && G.Idle(c)
    ensures Busy(calls[k := c], origin) < Busy(calls, origin)
  {
    var n := |calls| - 1;
    if k < n {
      assert calls[k := c][..n] == calls[..n][k := c];
      BusyLess(calls[..n], k, c, origin);
    } else {
      assert calls[k := c][..n] == calls[..n];
    }
  }

  lemma {:induction false} NotBusy(calls: seq<G.Call>, k: nat, origin: G.Origin)
    requires Busy(calls, origin) == 0 && k < |calls| && calls[k].origin == origin
    ensures G.Idle(calls[k])
  {
    if k < |calls| - 1 { NotBusy(calls[..|calls| - 1], k, origin); }
  }

  lemma UnwindIs(g: G.State, k: nat)
    requires G.Enabled(g, G.CallUnwinds(k, false))
    ensures G.Apply(g, G.CallUnwinds(k, false)).hooks == g.hooks
    ensures G.Apply(g, G.CallUnwinds(k, false)).calls == g.calls[k := g.calls[k].(pc := G.Gone)]
  {
  }

  /** A step of the registrar that starts no hook leaves everything else alone. */
  lemma Aside(a: State, s: State, u: G.Step) returns (z: State)
    requires On(a, s) && Enabled(s, Registers(u)) && G.Apply(s.g, u).hooks == s.g.hooks
    ensures On(a, z) && z == s.(g := G.Apply(s.g, u))
  {
    z := Take(a, s, Registers(u));
  }

  lemma {:induction false} ToAwaited(a: State, s: State, origin: G.Origin) returns (z: State)
    requires On(a, s) && EndedOrLeft(s.g, origin)
    ensures On(a, z) && z == s.(g := z.g) && Awaited(z.g, origin)
    ensures |z.g.calls| == |s.g.calls|
    ensures forall o :: EndedOrLeft(s.g, o) ==> EndedOrLeft(z.g, o)
    decreases Busy(s.g.calls, origin)
  {
    z := s;
    if Busy(s.g.calls, origin) > 0 {
      var k := BusyCall(s.g.calls, origin);
      UnwindIs(s.g, k);
      z := Aside(a, s, G.CallUnwinds(k, false));
      BusyLess(s.g.calls, k, z.g.calls[k], origin);
      z := ToAwaited(a, z, origin);
    } else {
      forall k | 0 <= k < |s.g.calls| && s.g.calls[k].origin == origin
        ensures G.Idle(s.g.calls[k])
      {
        NotBusy(s.g.calls, k, origin);
      }
    }
  }

  // ----- A loop that lives reports its end -----

  lemma FailedAttemptWrites(a: State, s: State) returns (z: State)
    requires On(a, s) && s.w.phase == R.Down && s.w.loop
    ensures On(a, z) && Late(a, z)
  {
    z := ToEmptyQueue(a, s);
    if !Late(a, z) {
      z := Take(a, z, Replicates(R.AttemptFails(false)));
    }
  }

  lemma DropWrites(a: State, s: State) returns (z: State)
    requires On(a, s) && s.w.phase == R.Dropping
    ensures On(a, z) && Late(a, z)
  {
    z := ToEmptyQueue(a, s);
    if !Late(a, z) {
      z := ToAwaited(a, z, G.OnConnect);
      z := Take(a, z, Replicates(R.ReportsDrop));
    }
  }

  lemma ConnectionWrites(a: State, s: State) returns (z: State)
    requires On(a, s) && (s.w.phase == R.SetUp || s.w.phase == R.Live)
    ensures On(a, z) && Late(a, z)
  {
    z := ToEmptyQueue(a, s);
    if !Late(a, z) {
      assert z.w.reader == R.Idle;
      z := Take(a, z, Replicates(R.SocketCloses));
      z := DropWrites(a, z);
    }
  }

  /** Stopping the connection cancels its tasks' calls. */
  lemma TasksStop(a: State, s: State) returns (z: State)
    requires On(a, s)
    ensures On(a, z) && z == s.(g := z.g) && EndedOrLeft(z.g, G.OnConnect) && EndedOrLeft(z.g, G.OnRefresh)
  {
    var which := CallsOf(s.g, G.OnConnect) + CallsOf(s.g, G.OnRefresh);
    z := Aside(a, s, G.CancelsCalls(which));
    assert forall k :: 0 <= k < |s.g.calls| && k in which ==> !GoesOn(z.g.calls[k]);
  }

  /** A swap that has the lock starts a new loop. */
  lemma SwapWrites(a: State, s: State) returns (z: State)
    requires On(a, s) && s.w.phase == R.Stopping
    ensures On(a, z) && Late(a, z)
  {
    z := ToEmptyQueue(a, s);
    if !Late(a, z) {
      z := TasksStop(a, z);
      z := ToAwaited(a, z, G.OnConnect);
      z := Take(a, z, Replicates(R.StopEnds(true, false)));
      z := FailedAttemptWrites(a, z);
    }
  }

  /** A caller still queued gets the lock. */
  lemma QueuedCallerWrites(a: State, s: State) returns (z: State)
    requires On(a, s) && s.callers > 0 && s.w.phase != R.Stopping
    ensures On(a, z) && Late(a, z)
  {
    z := Take(a, s, SwapBegins);
    z := SwapWrites(a, z);
  }

  // ----- A hook finds the hash dirty -----

  predicate DownAndDirty(s: State) {
    s.w.phase == R.Down && s.w.replica.store.dirty
  }

  lemma OrphanLeaves(w: R.World)
    requires w.Queue() != [] && w.Queue()[0].owner == Orphan
    ensures R.Enabled(w, R.Unwinds(0, false))
    ensures var z := R.Apply(w, R.Unwinds(0, false)); z.phase == w.phase && z.Queue() == w.Queue()[1..]
  {
  }

  lemma HeadFails(w: R.World)
    requires w.phase == R.Down && w.Queue() != [] && w.Queue()[0].owner != Orphan
    ensures R.Enabled(w, R.Fails(false))
    ensures var z := R.Apply(w, R.Fails(false)); z.phase == R.Down && z.replica.store.dirty
  {
  }

  /** The head unwinds if it is an orphan, and fails otherwise. */
  lemma TowardsDirty(a: State, s: State) returns (z: State)
    requires On(a, s) && s.w.phase == R.Down && CanBeDirty(s.w) && !s.w.replica.store.dirty
    ensures On(a, z) && z == s.(w := z.w, requested := z.requested) && z.w.phase == R.Down
    ensures CanBeDirty(z.w) && (z.w.replica.store.dirty || |z.w.Queue()| < |s.w.Queue()|)
  {
    var q := s.w.Queue();
    var i :| 0 <= i < |q| && q[i].owner != Orphan;
    if q[0].owner == Orphan {
      OrphanLeaves(s.w);
      z := WriterMoves(a, s, R.Unwinds(0, false));
      assert z.w.Queue()[i - 1] == q[i];
    } else {
      HeadFails(s.w);
      z := WriterMoves(a, s, R.Fails(false));
    }
  }

  lemma {:induction false} ToDirty(a: State, s: State) returns (z: State)
    requires On(a, s) && s.w.phase == R.Down && CanBeDirty(s.w)
    ensures On(a, z) && DownAndDirty(z) && z == s.(w := z.w, requested := z.requested)
    decreases |s.w.Queue()|
  {
    z := s;
    if !s.w.replica.store.dirty {
      z := TowardsDirty(a, s);
      if !z.w.replica.store.dirty {
        z := ToDirty(a, z);
      }
    }
  }

  lemma HookWrites(a: State, s: State, u: G.Step) returns (z: State)
    requires On(a, s) && DownAndDirty(s) && Enabled(s, Registers(u)) && G.Apply(s.g, u).hooks > s.g.hooks
    ensures On(a, z) && Late(a, z)
  {
    assert |HookedWorld(s, u).Queue()| == |s.w.Queue()| + 1;
    z := Take(a, s, Registers(u));
  }

  lemma RetryUnwound(g: G.State, r: nat)
    requires G.Enabled(g, G.RetryUnwinds(r, false))
    ensures var z := G.Apply(g, G.RetryUnwinds(r, false));
            z.calls == g.calls && |z.retries| == |g.retries| && z.retries[r].pc == G.Ended && z.hooks == g.hooks
  {
  }

  /** A landed call waits for the retry it cancelled; then its hook starts. */
  lemma StoppingCallWrites(a: State, s: State, k: nat) returns (z: State)
    requires On(a, s) && DownAndDirty(s)
    requires k < |s.g.calls| && GoesOn(s.g.calls[k]) && s.g.calls[k].pc.StoppingRetry?
    ensures On(a, z) && Late(a, z)
  {
    var r := s.g.calls[k].pc.r;
    assert G.RetryStops(s.g.retries, r);
    z := RetryEnds(a, s, r);
    z := HookWrites(a, z, G.StopWaitOver(k));
  }

  lemma RetryEnds(a: State, s: State, r: nat) returns (z: State)
    requires On(a, s) && G.RetryStops(s.g.retries, r)
    ensures On(a, z) && z == s.(g := z.g) && z.g.calls == s.g.calls
    ensures |z.g.retries| == |s.g.retries| && z.g.retries[r].pc == G.Ended
  {
    z := s;
    if s.g.retries[r].pc != G.Ended {
      RetryUnwound(s.g, r);
      z := Aside(a, s, G.RetryUnwinds(r, false));
    }
  }

  lemma LandingHooksOrStops(g: G.State)
    requires G.Inv(g) && G.Enabled(g, G.Lands)
    ensures g.lock[0].ByCall? && g.tracked.Some? ==>
              var k, z := g.lock[0].k, G.Apply(g, G.Lands);
              z.hooks == g.hooks && k < |z.calls| && z.calls[k].pc.StoppingRetry? && GoesOn(z.calls[k])
    ensures !(g.lock[0].ByCall? && g.tracked.Some?) ==> G.Apply(g, G.Lands).hooks > g.hooks
  {
  }

  lemma SendingWrites(a: State, s: State) returns (z: State)
    requires On(a, s) && DownAndDirty(s) && G.Enabled(s.g, G.Lands)
    ensures On(a, z) && Late(a, z)
  {
    LandingHooksOrStops(s.g);
    if s.g.lock[0].ByCall? && s.g.tracked.Some? {
      z := Aside(a, s, G.Lands);
      z := StoppingCallWrites(a, z, s.g.lock[0].k);
    } else {
      z := HookWrites(a, s, G.Lands);
    }
  }

  /** The attempt at the head of the queue lands, and its hook starts. */
  lemma HeadWrites(a: State, s: State) returns (z: State)
    requires On(a, s) && DownAndDirty(s) && s.g.lock != [] && !G.Cancelled(s.g, s.g.lock[0])
    ensures On(a, z) && Late(a, z)
  {
    assert s.g.lock[0] in s.g.lock;
    z := s;
    if s.g.sending.None? {
      z := Aside(a, s, G.Begins);
      assert z.g == s.g.(sending := Some(s.g.manifest));
    }
    z := SendingWrites(a, z);
  }

  function Unwinding(w: G.Who): G.Step {
    match w
    case ByCall(k) => G.CallUnwinds(k, false)
    case ByRetry(r) => G.RetryUnwinds(r, false)
  }

  lemma HeadUnwinds(g: G.State, x: G.Who)
    requires G.Inv(g) && g.lock != [] && G.Cancelled(g, g.lock[0])
    requires x in g.lock && !G.Cancelled(g, x)
    ensures var u := Unwinding(g.lock[0]);
            && G.Enabled(g, u) && G.Apply(g, u).hooks == g.hooks && G.Apply(g, u).lock == g.lock[1..]
            && x in g.lock[1..] && !G.Cancelled(G.Apply(g, u), x)
  {
    assert g.lock[0] in g.lock;
  }

  /** Cancelled attempts leave the queue until one that can land heads it. */
  lemma {:induction false} QueuedAttemptWrites(a: State, s: State, x: G.Who) returns (z: State)
    requires On(a, s) && DownAndDirty(s) && x in s.g.lock && !G.Cancelled(s.g, x)
    ensures On(a, z) && Late(a, z)
    decreases |s.g.lock|
  {
    if G.Cancelled(s.g, s.g.lock[0]) {
      HeadUnwinds(s.g, x);
      z := Aside(a, s, Unwinding(s.g.lock[0]));
      z := QueuedAttemptWrites(a, z, x);
    } else {
      z := HeadWrites(a, s);
    }
  }

  lemma RefreshWrites(a: State, s: State) returns (z: State)
    requires On(a, s) && DownAndDirty(s) && s.refreshRuns
    ensures On(a, z) && Late(a, z)
  {
    z := Aside(a, s, G.Registers(G.OnRefresh));
    z := QueuedAttemptWrites(a, z, G.ByCall(|s.g.calls|));
  }

  lemma TrackedRetryWrites(a: State, s: State) returns (z: State)
    requires On(a, s) && DownAndDirty(s) && s.g.tracked.Some?
    ensures On(a, z) && Late(a, z)
  {
    var r := s.g.tracked.value;
    z := s;
    if s.g.retries[r].pc == G.Asleep {
      z := Aside(a, s, G.RetryWakes(r));
      assert z.g.lock == s.g.lock + [G.ByRetry(r)];
    }
    assert G.Joined(z.g, G.ByRetry(r));
    z := QueuedAttemptWrites(a, z, G.ByRetry(r));
  }

  lemma RegistrationWrites(a: State, s: State) returns (z: State)
    requires On(a, s) && DownAndDirty(s) && CanRegister(s)
    ensures On(a, z) && Late(a, z)
  {
    if s.refreshRuns {
      z := RefreshWrites(a, s);
    } else if s.g.tracked.Some? {
      z := TrackedRetryWrites(a, s);
    } else {
      var k :| 0 <= k < |s.g.calls| && CanLand(s.g.calls[k]);
      if s.g.calls[k].pc == G.Queued {
        assert G.Joined(s.g, G.ByCall(k));
        z := QueuedAttemptWrites(a, s, G.ByCall(k));
      } else {
        z := StoppingCallWrites(a, s, k);
      }
    }
  }

  lemma SomeRunWrites(a: State, s: State) returns (z: State)
    requires On(a, s) && CanStillWrite(s)
    ensures On(a, z) && Late(a, z)
  {
    match s.w.phase
    case Stopping => z := SwapWrites(a, s);
    case SetUp => z := ConnectionWrites(a, s);
    case Live => z := ConnectionWrites(a, s);
    case Dropping => z := DropWrites(a, s);
    case Down =>
      if s.callers > 0 {
        z := QueuedCallerWrites(a, s);
      } else if s.w.loop {
        z := FailedAttemptWrites(a, s);
      } else {
        z := ToDirty(a, s);
        z := RegistrationWrites(a, z);
      }
  }

  // ----- Main results -----

  /** After the final clear some run requests another write if and only if a caller
      is still queued for the lock, the connection is not down for good, or a hook
      can still find the hash dirty. */
  lemma LateWriteIff(s: State)
    requires Reachable(s) && s.cleared
    ensures (exists z :: Leads(s, z) && z.requested > s.requested) <==> CanStillWrite(s)
  {
    ReachableHolds(s);
    if CanStillWrite(s) {
      Runs.StartReachable(x => x == s, Next, s);
      var z := SomeRunWrites(s, s);
      assert Leads(s, z) && z.requested > s.requested;
    } else {
      assert Done(s, s.requested);
      forall z | Leads(s, z)
        ensures z.requested == s.requested
      {
        DoneRequestsNothing(s, z);
      }
    }
  }

  /** If conn.stop() got the lock and nobody was queued behind it, no live-state write
      is requested after the final clear, in any run: not by the connection, and not
      by a retry that let go of itself before its heal. */
  lemma NothingAfterFinalClear(s: State, z: State)
    requires Reachable(s) && s.cleared && s.lifespan == Stopped(0) && Leads(s, z)
    ensures z.requested == s.requested
  {
    ReachableHolds(s);
    assert !CanStillWrite(s);
    LateWriteIff(s);
    if z.requested != s.requested {
      Monotone(s, z);
    }
  }

  lemma Monotone(s: State, z: State)
    requires Leads(s, z)
    ensures s.requested <= z.requested
  {
    Runs.ReachableKeeps(x => x == s, Next, (x: State) => s.requested <= x.requested, z);
  }

  /** Once such a stop and the registrar's are over, no step starts the hook. */
  lemma NoHookOnceStopped(s: State, u: G.Step)
    requires Reachable(s) && s.lifespan == Stopped(0) && s.g.registrarStopped && Enabled(s, Registers(u))
    ensures Apply(s, Registers(u)).g.hooks == s.g.hooks
  {
    ReachableHolds(s);
    NobodyStarts(s.g, u);
  }

  /** Getting the lock is not enough: a caller left queued behind conn.stop() can
      take it next and write behind the final clear. */
  lemma QueuedCallerWritesLate()
    ensures exists s, z ::
              && Reachable(s) && s.cleared && s.lifespan == Stopped(1)
              && Leads(s, z) && z.requested > s.requested
  {
    var s := LeftBehind();
    assert CanStillWrite(s);
    LateWriteIff(s);
    var z :| Leads(s, z) && z.requested > s.requested;
    assert Leads(s, z);
  }

  lemma Reach(s: State, step: Step) returns (z: State)
    requires Reachable(s) && Enabled(s, step)
    ensures Reachable(z) && z == Apply(s, step)
  {
    z := Runs.Reach(Initial, Next, s, step);
  }

  /** Before anything has happened. */
  lemma Start() returns (s: State)
    ensures Reachable(s) && Initial(s) && s.g.calls == [] && s.w.Queue() == [Job(Clear, Owner.Lifespan)]
  {
    var store := Store(false, false, [Job(Clear, Owner.Lifespan)], map[]);
    var w := R.World(map[], [], false, R.NotAsked, R.Down, false, R.Idle,
                     R.Replica(map[], {}, map[], M.Disconnected, store), Some(0), R.Served({}, map[]));
    var g := G.State(0, 0, [], [], None, [], None, false, 0);
    assert R.Initial(w) && G.Initial(g);
    s := State(w, g, false, 0, Serving, false, 0);
    Runs.StartReachable(Initial, Next, s);
  }

  /** One caller is queued for the lock, and so is shutdown. */
  lemma BothQueued() returns (s: State)
    ensures Reachable(s) && s.lifespan == WaitsForLock && s.callers == 1 && s.w.phase == R.Down
    ensures s.g.calls == [] && !s.g.registrarStopped && !s.cleared && s.w.Queue() == [Job(Clear, Owner.Lifespan)]
  {
    s := Start();
    s := Reach(s, CallerComes);
    s := Reach(s, ShutdownBegins);
  }

  lemma StopBeginsAhead(s: State) returns (z: State)
    requires Reachable(s) && s.lifespan == WaitsForLock && s.w.phase == R.Down && s.g.calls == []
    ensures Reachable(z) && z.lifespan == HoldsLock && z.w.phase == R.Stopping && z.g.calls == []
    ensures z.callers == s.callers && z.w.Queue() == s.w.Queue()
    ensures z.g.registrarStopped == s.g.registrarStopped && z.cleared == s.cleared
  {
    z := Reach(s, StopBegins);
    assert z.w == s.w.(phase := R.Stopping, away := None);
  }

  lemma StopEndsAhead(s: State) returns (z: State)
    requires Reachable(s) && s.lifespan == HoldsLock && s.w.phase == R.Stopping && s.g.calls == []
    requires s.w.Queue() == [Job(Clear, Owner.Lifespan)]
    ensures Reachable(z) && z.lifespan == Stopped(s.callers) && z.callers == s.callers
    ensures z.g.registrarStopped == s.g.registrarStopped && z.cleared == s.cleared
  {
    assert R.DataAllows(s.w, R.StopEnds(false, false));
    z := Reach(s, StopEnds(false));
  }

  lemma ShutdownEnds(s: State) returns (z: State)
    requires Reachable(s) && s.lifespan.Stopped? && !s.g.registrarStopped && !s.cleared
    ensures Reachable(z) && z.cleared && z.lifespan == s.lifespan && z.callers == s.callers
  {
    z := Reach(s, Registers(G.RegistrarStops));
    z := Reach(z, FinalClears);
  }

  /** Shutdown stops the connection ahead of a caller. */
  lemma LeftBehind() returns (s: State)
    ensures Reachable(s) && s.cleared && s.lifespan == Stopped(1) && s.callers == 1
  {
    s := BothQueued();
    s := StopBeginsAhead(s);
    s := StopEndsAhead(s);
    s := ShutdownEnds(s);
  }
}
