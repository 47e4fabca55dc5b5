/** Replication and Registrar as one system: live-state heals happen exactly where
    the registrar starts its hook, and the connection's tasks take their register()
    calls with them when they are cancelled or awaited. The lifespan's shutdown and
    the callers of apply_credentials take their turns in it (app/server.py). */
module Coupled {
  import opened Basics
  import Runs
  import opened LiveState
  import R = Replication
  import G = Registrar

  // ----- State -----

  /** How far the lifespan is: serving, in conn.stop() waiting for the lifecycle
      lock, in it holding the lock, or past it, either cancelled before it got the
      lock or with the connection stopped and so many callers still queued for the
      lock behind it. */
  datatype Lifespan = Serving | WaitsForLock | HoldsLock | GaveUp | Stopped(queued: nat)
  {
    predicate PastStop() {
      GaveUp? || Stopped?
    }
  }

  /** refreshRuns: a registry refresh is alive and not cancelled. callers:
      apply_credentials calls queued for the lifecycle lock. cleared: the final
      clear is asked for. requested: history, how many live-state writes were ever
      requested. */
  datatype State = State(
    w: R.World, g: G.State, refreshRuns: bool, callers: nat, lifespan: Lifespan, cleared: bool, requested: nat)

  predicate Initial(s: State) {
    && R.Initial(s.w) && G.Initial(s.g)
    && !s.refreshRuns && s.callers == 0 && s.lifespan == Serving && !s.cleared && s.requested == 0
  }

  /** SwapBegins: a queued caller gets the lock and stops the connection. */
  datatype Step =
    | Replicates(t: R.Step)
    | Registers(u: G.Step)
    | RefreshStarts
    | RefreshEnds
    | CallerComes
    | CallerLeaves
    | SwapBegins
    | ShutdownBegins
    | StopGivesUp
    | StopBegins
    | StopEnds(early: bool)
    | FinalClears

  // ----- Which calls belong to which task -----

  function CallsOf(g: G.State, origin: G.Origin): set<nat> {
    set k | 0 <= k < |g.calls| && g.calls[k].origin == origin
  }

  /** Every task of this origin has been awaited: no call of it is still under way. */
  predicate Awaited(g: G.State, origin: G.Origin) {
    forall k :: 0 <= k < |g.calls| && g.calls[k].origin == origin ==> G.Idle(g.calls[k])
  }

  predicate GoesOn(c: G.Call) {
    !G.Idle(c) && !c.cancelled
  }

  /** A task of this origin has ended, or was cancelled and left unwinding. */
  predicate EndedOrLeft(g: G.State, origin: G.Origin) {
    forall k :: 0 <= k < |g.calls| && g.calls[k].origin == origin ==> !GoesOn(g.calls[k])
  }

  // ----- Steps -----

  /** What the replication step waits for on the registrar's side. */
  predicate TasksAllow(g: G.State, t: R.Step) {
    match t
    case ReportsDrop => Awaited(g, G.OnConnect)
    case StopEnds(_, _) => Awaited(g, G.OnConnect) && EndedOrLeft(g, G.OnRefresh)
    case _ => true
  }

  /** Whose register() can be called now: the lifespan's at startup, set-up's once
      connected, a refresh's while it runs. */
  predicate OriginAllows(s: State, origin: G.Origin) {
    match origin
    case Startup => s.lifespan == Serving
    case OnConnect => s.w.replica.IsConnected() && (s.w.phase == R.Live || s.w.phase == R.Stopping)
    case OnRefresh => s.refreshRuns
  }

  /** A step of the connection's own tasks or of a swap that has the lock. */
  predicate OwnStep(t: R.Step) {
    !t.Heals? && !t.FinalClear? && !t.StopBegins?
  }

  predicate Enabled(s: State, step: Step) {
    match step
    case Replicates(t) =>
      OwnStep(t) && R.Enabled(s.w, t) && TasksAllow(s.g, t) && (t.StopEnds? ==> s.lifespan != HoldsLock)
    case Registers(u) =>
      && G.Enabled(s.g, u)
      && (u.Registers? ==> OriginAllows(s, u.origin))
      && (u.RegistrarStops? ==> s.lifespan.PastStop())
    case RefreshStarts => (s.w.phase == R.SetUp || s.w.phase == R.Live) && !s.refreshRuns
    case RefreshEnds => s.refreshRuns && EndedOrLeft(s.g, G.OnRefresh)
    case CallerComes => s.lifespan == Serving
    case CallerLeaves => s.callers > 0
    case SwapBegins => s.callers > 0 && R.Enabled(s.w, R.StopBegins)
    case ShutdownBegins => s.lifespan == Serving && Awaited(s.g, G.Startup)
    case StopGivesUp => s.lifespan == WaitsForLock
    case StopBegins => s.lifespan == WaitsForLock && R.Enabled(s.w, R.StopBegins)
    case StopEnds(early) =>
      s.lifespan == HoldsLock && R.Enabled(s.w, R.StopEnds(false, early)) && TasksAllow(s.g, R.StopEnds(false, early))
    case FinalClears => s.g.registrarStopped && !s.cleared
  }

  /** A drop cancels the set-up task, a stop the refresh task. */
  function TasksCancelled(g: G.State, t: R.Step): G.State {
    match t
    case SocketCloses => G.Apply(g, G.CancelsCalls(CallsOf(g, G.OnConnect)))
    case StopBegins => G.Apply(g, G.CancelsCalls(CallsOf(g, G.OnRefresh)))
    case _ => g
  }

  function OwnerOfCall(g: G.State, k: nat): Owner {
    if k < |g.calls| then
      match g.calls[k].origin
      case Startup => Owner.Lifespan
      case OnConnect => Setup
      case OnRefresh => Refresh
    else Owner.Lifespan
  }

  /** Who awaits the heal that this step's hook asks for. */
  function HookOwner(g: G.State, u: G.Step): Owner {
    match u
    case StopWaitOver(k) => OwnerOfCall(g, k)
    case Lands => if g.lock != [] && g.lock[0].ByCall? then OwnerOfCall(g, g.lock[0].k) else Retry
    case _ => Retry
  }

  function Healed(w: R.World, o: Owner): R.World {
    w.(replica := w.replica.(store := Heal(w.replica.store, w.replica.IsConnected(), w.replica.Current(), o)))
  }

  /** The hook's heal, in the segment that starts the hook. */
  function HookedWorld(s: State, u: G.Step): R.World
    requires G.Enabled(s.g, u)
  {
    if G.Apply(s.g, u).hooks > s.g.hooks then Healed(s.w, HookOwner(s.g, u)) else s.w
  }

  function Removed(t: R.Step): nat {
    if t.Lands? || t.Fails? || t.Unwinds? then 1 else 0
  }

  /** The writes that joined the queue, given how many left it. */
  function Joined(was: R.World, now: R.World, removed: nat): nat {
    if |now.Queue()| + removed >= |was.Queue()| then |now.Queue()| + removed - |was.Queue()| else 0
  }

  /** The replication step t, with what it does to the registrar's callers. */
  function Moved(s: State, t: R.Step): State
    requires R.Enabled(s.w, t)
  {
    var w := R.Apply(s.w, t);
    s.(w := w, g := TasksCancelled(s.g, t), refreshRuns := s.refreshRuns && !t.StopBegins?,
       requested := s.requested + Joined(s.w, w, Removed(t)))
  }

  /** The final clear; with the connection down for good it is Replication's. */
  function LastClear(w: R.World): R.World {
    if R.Enabled(w, R.FinalClear) then R.Apply(w, R.FinalClear)
    else w.(replica := w.replica.(store := Request(w.replica.store, Clear, Owner.Lifespan)))
  }

  function Apply(s: State, step: Step): State
    requires Enabled(s, step)
  {
    match step
    case Replicates(t) => Moved(s, t)
    case Registers(u) =>
      var w := HookedWorld(s, u);
      s.(w := w, g := G.Apply(s.g, u), requested := s.requested + Joined(s.w, w, 0))
    case RefreshStarts => s.(refreshRuns := true)
    case RefreshEnds => s.(refreshRuns := false)
    case CallerComes => s.(callers := s.callers + 1)
    case CallerLeaves => s.(callers := s.callers - 1)
    case SwapBegins => Moved(s, R.StopBegins).(callers := s.callers - 1)
    case ShutdownBegins => s.(lifespan := WaitsForLock)
    case StopGivesUp => s.(lifespan := GaveUp)
    case StopBegins => Moved(s, R.StopBegins).(lifespan := HoldsLock)
    case StopEnds(early) => Moved(s, R.StopEnds(false, early)).(lifespan := Stopped(s.callers))
    case FinalClears =>
      var w := LastClear(s.w);
      s.(w := w, cleared := true, requested := s.requested + Joined(s.w, w, 0))
  }

  function Next(s: State, step: Step): Option<State> {
    if Enabled(s, step) then Some(Apply(s, step)) else None
  }

  ghost predicate Leads(s: State, z: State) {
    Runs.Reachable(x => x == s, Next, z)
  }

  ghost predicate Reachable(s: State) {
    Runs.Reachable(Initial, Next, s)
  }

  // ----- The invariant -----

  /** A set-up task's call still able to go on: the connection is announced. */
  predicate ConnectCallsFit(w: R.World, g: G.State) {
    forall k :: 0 <= k < |g.calls| && g.calls[k].origin == G.OnConnect && GoesOn(g.calls[k]) ==>
      w.replica.IsConnected() && (w.phase == R.Live || w.phase == R.Stopping)
  }

  /** What holds of the connection even when it is cleared while it runs. */
  predicate ConnectionFits(w: R.World) {
    && (w.phase == R.Down || w.phase == R.SetUp ==> !w.replica.IsConnected())
    && (w.reader != R.Idle && w.phase != R.Stopping ==> R.Waits(w.Queue(), Reader))
  }

  predicate ProgressFits(s: State) {
    && (s.w.phase == R.Stopping ==> !s.refreshRuns)
    && (s.lifespan == HoldsLock ==> s.w.phase == R.Stopping)
    && (s.g.registrarStopped ==> s.lifespan.PastStop())
    && (s.cleared ==> s.g.registrarStopped)
  }

  /** No call is left that could still go on. */
  predicate CallsEnded(calls: seq<G.Call>) {
    forall k :: 0 <= k < |calls| ==> !GoesOn(calls[k])
  }

  /** The connection stopped with nobody queued behind: it stays down, and no task is
      left that could register. */
  predicate StoppedFits(s: State) {
    s.lifespan == Stopped(0) ==>
      && s.callers == 0 && s.w.phase == R.Down && !s.w.loop && !s.refreshRuns && CallsEnded(s.g.calls)
      && (s.g.registrarStopped ==> s.g.tracked.None?)
  }

  predicate StartupFits(s: State) {
    s.lifespan != Serving ==> Awaited(s.g, G.Startup)
  }

  /** Replication's invariant, until a clear is asked for that may find the
      connection running. */
  ghost predicate Inv(s: State) {
    && G.Inv(s.g) && G.StopsFit(s.g.calls, s.g.retries)
    && ConnectCallsFit(s.w, s.g) && ConnectionFits(s.w)
    && ProgressFits(s) && StoppedFits(s) && StartupFits(s)
    && (!s.cleared ==> R.Inv(s.w))
  }

  // ----- Preservation: the connection -----

  lemma CancellationFits(g: G.State, t: R.Step)
    requires G.Inv(g) && G.StopsFit(g.calls, g.retries)
    ensures var z := TasksCancelled(g, t);
            && G.Inv(z) && G.StopsFit(z.calls, z.retries)
            && z.registrarStopped == g.registrarStopped && z.tracked == g.tracked && |z.calls| == |g.calls|
            && forall k :: 0 <= k < |g.calls| ==>
                 && z.calls[k].origin == g.calls[k].origin && z.calls[k].pc == g.calls[k].pc
                 && (GoesOn(z.calls[k]) ==> GoesOn(g.calls[k]))
  {
    G.CancellationKeeps(g, CallsOf(g, G.OnConnect));
    G.CancellationKeeps(g, CallsOf(g, G.OnRefresh));
  }

  lemma PhaseFollows(w: R.World, t: R.Step)
    requires R.Enabled(w, t)
    ensures R.Apply(w, t).phase == R.Stopping ==> w.phase == R.Stopping || t.StopBegins?
    ensures w.phase == R.Stopping && !t.StopEnds? ==> R.Apply(w, t).phase == R.Stopping
    ensures w.phase == R.Down && !w.loop && !t.StopBegins? ==> R.Apply(w, t).phase == R.Down && !R.Apply(w, t).loop
  {
  }

  /** Not connected while down or setting up. */
  lemma ConnStateFollows(w: R.World, t: R.Step)
    requires R.Enabled(w, t) && ConnectionFits(w)
    ensures var z := R.Apply(w, t); z.phase == R.Down || z.phase == R.SetUp ==> !z.replica.IsConnected()
  {
  }

  /** A busy reader's write is pending. */
  lemma ReaderFollows(w: R.World, t: R.Step)
    requires R.Enabled(w, t) && ConnectionFits(w)
    ensures var z := R.Apply(w, t); z.reader != R.Idle && z.phase != R.Stopping ==> R.Waits(z.Queue(), Reader)
  {
    var z := R.Apply(w, t);
    if w.reader != R.Idle && w.phase != R.Stopping && z.reader == w.reader {
      var i :| 0 <= i < |w.Queue()| && w.Queue()[i].owner == Reader;
      if t.Lands? || t.Fails? {
        ReaderBehindHead(w, t, i);
      } else if t.Unwinds? {
        assert z.Queue()[if i < t.i then i else i - 1] == w.Queue()[i];
      } else if !t.StopEnds? {
        R.RequestsOnlyGrow(w, t);
        assert z.Queue()[i] == w.Queue()[i];
      }
    } else if z.reader != R.Idle && z.phase != R.Stopping {
      ReaderAsks(w, t);
    }
  }

  lemma ReaderBehindHead(w: R.World, t: R.Step, i: nat)
    requires R.Enabled(w, t) && (t.Lands? || t.Fails?) && i < |w.Queue()| && w.Queue()[i].owner == Reader
    requires w.reader != R.Idle
    ensures var z := R.Apply(w, t); z.reader != R.Idle ==> R.Waits(z.Queue(), Reader)
  {
    var z := R.Apply(w, t);
    if z.reader != R.Idle {
      if w.Queue()[0].owner == Reader {
        assert z.Queue()[|z.Queue()| - 1].owner == Reader;
      } else {
        assert z.Queue()[i - 1] == w.Queue()[i];
      }
    }
  }

  /** The reader turns busy only by asking for a write. */
  lemma ReaderAsks(w: R.World, t: R.Step)
    requires R.Enabled(w, t) && R.Apply(w, t).reader != R.Idle && R.Apply(w, t).reader != w.reader
    ensures R.Waits(R.Apply(w, t).Queue(), Reader)
  {
    var z := R.Apply(w, t);
    assert z.Queue()[|z.Queue()| - 1].owner == Reader;
  }

  /** Connected and announced stays so, but for the steps that take set-up's calls along. */
  lemma AnnouncedStays(w: R.World, t: R.Step)
    requires R.Enabled(w, t) && w.replica.IsConnected() && (w.phase == R.Live || w.phase == R.Stopping)
    ensures t.SocketCloses? || t.StopEnds? ||
            (R.Apply(w, t).replica.IsConnected() &&
             (R.Apply(w, t).phase == R.Live || R.Apply(w, t).phase == R.Stopping))
  {
  }

  lemma ConnectCallsFollow(s: State, t: R.Step)
    requires ConnectCallsFit(s.w, s.g) && G.Inv(s.g) && G.StopsFit(s.g.calls, s.g.retries)
    requires R.Enabled(s.w, t) && TasksAllow(s.g, t)
    ensures ConnectCallsFit(R.Apply(s.w, t), TasksCancelled(s.g, t))
  {
    CancellationFits(s.g, t);
    if t.SocketCloses? {
      assert forall k :: 0 <= k < |s.g.calls| && s.g.calls[k].origin == G.OnConnect ==> k in CallsOf(s.g, G.OnConnect);
    } else if s.w.replica.IsConnected() && (s.w.phase == R.Live || s.w.phase == R.Stopping) {
      AnnouncedStays(s.w, t);
    }
  }

  lemma StartupFollows(g: G.State, t: R.Step)
    requires G.Inv(g) && G.StopsFit(g.calls, g.retries) && Awaited(g, G.Startup)
    ensures Awaited(TasksCancelled(g, t), G.Startup)
  {
    CancellationFits(g, t);
  }

  /** What any replication step keeps of the registrar. */
  lemma MoveKeepsCalls(s: State, t: R.Step)
    requires Inv(s) && R.Enabled(s.w, t) && TasksAllow(s.g, t)
    ensures var g := TasksCancelled(s.g, t);
            && G.Inv(g) && G.StopsFit(g.calls, g.retries) && ConnectCallsFit(R.Apply(s.w, t), g)
            && (s.lifespan != Serving ==> Awaited(g, G.Startup))
            && g.registrarStopped == s.g.registrarStopped && g.tracked == s.g.tracked
            && (CallsEnded(s.g.calls) ==> CallsEnded(g.calls))
  {
    CancellationFits(s.g, t);
    ConnectCallsFollow(s, t);
    if s.lifespan != Serving {
      StartupFollows(s.g, t);
    }
  }

  /** And of the connection. */
  lemma MoveKeepsWorld(s: State, t: R.Step)
    requires ConnectionFits(s.w) && (!s.cleared ==> R.Inv(s.w)) && R.Enabled(s.w, t)
    ensures ConnectionFits(R.Apply(s.w, t)) && (!s.cleared ==> R.Inv(R.Apply(s.w, t)))
  {
    ConnStateFollows(s.w, t);
    ReaderFollows(s.w, t);
    if !s.cleared {
      R.StepKeeps(s.w, t);
    }
  }

  lemma ReplicationKeeps(s: State, t: R.Step)
    requires Inv(s) && Enabled(s, Replicates(t))
    ensures Inv(Apply(s, Replicates(t)))
  {
    MoveKeepsCalls(s, t);
    MoveKeepsWorld(s, t);
    PhaseFollows(s.w, t);
  }

  lemma StopBeginKeeps(s: State, step: Step)
    requires Inv(s) && Enabled(s, step) && (step.SwapBegins? || step.StopBegins?)
    ensures Inv(Apply(s, step))
  {
    MoveKeepsCalls(s, R.StopBegins);
    MoveKeepsWorld(s, R.StopBegins);
    assert Moved(s, R.StopBegins).w.phase == R.Stopping;
  }

  lemma StopEndKeeps(s: State, early: bool)
    requires Inv(s) && Enabled(s, StopEnds(early))
    ensures Inv(Apply(s, StopEnds(early)))
  {
    var t := R.StopEnds(false, early);
    MoveKeepsCalls(s, t);
    MoveKeepsWorld(s, t);
    assert Moved(s, t).g == s.g && Moved(s, t).w.phase == R.Down && !Moved(s, t).w.loop;
    forall k | 0 <= k < |s.g.calls|
      ensures !GoesOn(s.g.calls[k])
    {
      match s.g.calls[k].origin
      case Startup =>
      case OnConnect =>
      case OnRefresh =>
    }
  }

  // ----- Preservation: registrations -----

  /** A call still able to go on was already able to, or has just been made. */
  lemma CallsOnlyEnd(g: G.State, u: G.Step)
    requires G.Inv(g) && G.Enabled(g, u) && !u.Registers?
    ensures |G.Apply(g, u).calls| == |g.calls|
    ensures forall k :: 0 <= k < |g.calls| ==>
              var was, now := g.calls[k], G.Apply(g, u).calls[k];
              now.origin == was.origin && (GoesOn(now) ==> GoesOn(was)) && (G.Idle(was) ==> G.Idle(now))
  {
    if u.Lands? || u.Fails? {
      assert g.lock[0] in g.lock;
      AttemptEndsCall(g, u);
    }
  }

  lemma AttemptEndsCall(g: G.State, u: G.Step)
    requires G.Enabled(g, u) && (u.Lands? || u.Fails?) && G.Joined(g, g.lock[0])
    ensures |G.Apply(g, u).calls| == |g.calls|
    ensures forall k :: 0 <= k < |g.calls| ==>
              var was, now := g.calls[k], G.Apply(g, u).calls[k];
              now.origin == was.origin && (GoesOn(now) ==> GoesOn(was)) && (G.Idle(was) ==> G.Idle(now))
  {
  }

  lemma HookIsHeal(s: State, u: G.Step)
    requires G.Inv(s.g) && ConnectCallsFit(s.w, s.g) && Enabled(s, Registers(u))
    requires G.Apply(s.g, u).hooks > s.g.hooks
    ensures R.Enabled(s.w, R.Heals(HookOwner(s.g, u)))
    ensures HookedWorld(s, u) == R.Apply(s.w, R.Heals(HookOwner(s.g, u)))
  {
    if u.Lands? {
      assert s.g.lock[0] in s.g.lock;
    }
  }

  lemma HookFits(s: State, u: G.Step)
    requires Inv(s) && Enabled(s, Registers(u))
    ensures ConnectionFits(HookedWorld(s, u)) && (!s.cleared ==> R.Inv(HookedWorld(s, u)))
    ensures HookedWorld(s, u).phase == s.w.phase && HookedWorld(s, u).loop == s.w.loop
    ensures HookedWorld(s, u).replica.connState == s.w.replica.connState
  {
    if G.Apply(s.g, u).hooks > s.g.hooks {
      HookIsHeal(s, u);
      ConnStateFollows(s.w, R.Heals(HookOwner(s.g, u)));
      ReaderFollows(s.w, R.Heals(HookOwner(s.g, u)));
      if !s.cleared {
        R.StepKeeps(s.w, R.Heals(HookOwner(s.g, u)));
      }
    }
  }

  lemma CallsFollow(s: State, u: G.Step)
    requires G.Inv(s.g) && ConnectCallsFit(s.w, s.g) && StartupFits(s) && Enabled(s, Registers(u))
    ensures ConnectCallsFit(HookedWorld(s, u), G.Apply(s.g, u))
    ensures s.lifespan != Serving ==> Awaited(G.Apply(s.g, u), G.Startup)
  {
    assert HookedWorld(s, u).phase == s.w.phase && HookedWorld(s, u).replica.connState == s.w.replica.connState;
    if u.Registers? {
      assert forall k :: 0 <= k < |s.g.calls| ==> G.Apply(s.g, u).calls[k] == s.g.calls[k];
    } else {
      CallsOnlyEnd(s.g, u);
    }
  }

  /** Nobody is left to register, and no attempt that could end is a call's. */
  lemma StoppedCallsStay(g: G.State, u: G.Step)
    requires G.Inv(g) && G.Enabled(g, u) && !u.Registers? && CallsEnded(g.calls)
    ensures CallsEnded(G.Apply(g, u).calls)
    ensures g.tracked.None? || u.RegistrarStops? ==> G.Apply(g, u).tracked.None?
  {
    CallsOnlyEnd(g, u);
    assert u.Fails? ==> g.lock[0] in g.lock;
  }

  lemma StoppedFlagFollows(g: G.State, u: G.Step)
    requires G.Enabled(g, u)
    ensures G.Apply(g, u).registrarStopped == (g.registrarStopped || u.RegistrarStops?)
  {
  }

  lemma RegistrationKeeps(s: State, u: G.Step)
    requires Inv(s) && Enabled(s, Registers(u))
    ensures Inv(Apply(s, Registers(u)))
  {
    G.StepKeeps(s.g, u);
    G.StopsStay(s.g, u);
    HookFits(s, u);
    CallsFollow(s, u);
    StoppedFlagFollows(s.g, u);
    if s.lifespan == Stopped(0) {
      StoppedCallsStay(s.g, u);
    }
  }

  // ----- Preservation: the lifespan and its callers -----

  lemma AsideKeeps(s: State, step: Step)
    requires Inv(s) && Enabled(s, step)
    requires step.RefreshStarts? || step.RefreshEnds? || step.CallerComes? || step.CallerLeaves? ||
             step.ShutdownBegins? || step.StopGivesUp?
    ensures Inv(Apply(s, step))
  {
  }

  lemma ClearKeeps(s: State)
    requires Inv(s) && Enabled(s, FinalClears)
    ensures Inv(Apply(s, FinalClears))
  {
    var w := LastClear(s.w);
    if R.Waits(s.w.Queue(), Reader) {
      var i :| 0 <= i < |s.w.Queue()| && s.w.Queue()[i].owner == Reader;
      assert w.Queue()[i] == s.w.Queue()[i];
    }
  }

  lemma StepKeeps(s: State, step: Step)
    requires Inv(s) && Enabled(s, step)
    ensures Inv(Apply(s, step))
  {
    match step
    case Replicates(t) => ReplicationKeeps(s, t);
    case Registers(u) => RegistrationKeeps(s, u);
    case SwapBegins => StopBeginKeeps(s, step);
    case StopBegins => StopBeginKeeps(s, step);
    case StopEnds(early) => StopEndKeeps(s, early);
    case FinalClears => ClearKeeps(s);
    case _ => AsideKeeps(s, step);
  }

  lemma InitialHolds(s: State)
    requires Initial(s)
    ensures Inv(s)
  {
    R.InitialHolds(s.w);
    assert G.Inv(s.g);
  }

  lemma ReachableHolds(s: State)
    requires Reachable(s)
    ensures Inv(s)
  {
    forall x | Initial(x)
      ensures Inv(x)
    {
      InitialHolds(x);
    }
    forall x, step | Inv(x) && Next(x, step).Some?
      ensures Inv(Next(x, step).value)
    {
      StepKeeps(x, step);
    }
    Runs.ReachableKeeps(Initial, Next, Inv, s);
  }
}
