/** HAConnection's lifecycle on objects: tasks, callers and events are references,
    as asyncio has them. Each method is the await-free stretch of code it names; an
    abstraction function reads the object graph as a state of Lifecycle, and the
    method is proved to take Lifecycle's step. */
module LifecycleInPlace {
  import opened Basics
  import opened Identity
  import opened Mirror
  import L = Lifecycle

  // ----- The objects -----

  /** asyncio.Event */
  class AsyncEvent {
    var isSet: bool

    constructor ()
      ensures !isSet
    {
      isSet := false;
    }
  }

  datatype Body = LoopBody(loop: L.Loop) | RefreshBody(refresh: L.Refresh)

  /** An asyncio task: a connection loop with its set-up child, or a refresh. */
  class Task {
    var body: Body

    constructor (body: Body)
      ensures this.body == body
    {
      this.body := body;
    }

    predicate Done()
      reads this
    {
      match body
      case LoopBody(l) => l.pc == L.Ended
      case RefreshBody(r) => r.ended
    }

    predicate CancelRequested()
      reads this
    {
      match body
      case LoopBody(l) => l.cancelled
      case RefreshBody(r) => r.cancelled
    }

    /** A loop that waits for its set-up child passes the cancellation on. */
    method Cancel()
      modifies this
      ensures CancelRequested() <==> old(CancelRequested()) || !old(Done())
      ensures old(Done()) ==> body == old(body)
      ensures !old(Done()) && old(body).RefreshBody? ==> body == RefreshBody(old(body).refresh.(cancelled := true))
      ensures !old(Done()) && old(body).LoopBody? ==>
                var l := old(body).loop;
                body == LoopBody(l.(cancelled := true,
                                    setupCancelled := l.setupCancelled || (l.pc == L.Leaving && l.SetupRuns())))
    {
      match body
      case LoopBody(l) =>
        if l.pc != L.Ended {
          body := LoopBody(l.(cancelled := true,
                              setupCancelled := l.setupCancelled || (l.pc == L.Leaving && l.SetupRuns())));
        }
      case RefreshBody(r) =>
        if !r.ended {
          body := RefreshBody(r.(cancelled := true));
        }
    }
  }

  /** A caller's place, with the tasks or the event it waits for in hand. */
  datatype CallerPc =
    | WantsLock
    | Awaiting(tasks: seq<Task>)
    | AwaitingAttempt(event: AsyncEvent)
    | Returned
    | Cancelled

  class Caller {
    const kind: L.Kind
    var pc: CallerPc
    var cancels: nat
    var atEntry: nat

    constructor (kind: L.Kind)
      ensures this.kind == kind && pc == WantsLock && cancels == 0 && atEntry == 0
    {
      this.kind, pc, cancels, atEntry := kind, WantsLock, 0, 0;
    }
  }

  // ----- The objects read as Lifecycle's values -----

  ghost function LoopOf(body: Body): L.Loop {
    if body.LoopBody? then body.loop else L.Loop(L.Ended, false, L.Unstarted, false)
  }

  ghost function RefreshOf(body: Body): L.Refresh {
    if body.RefreshBody? then body.refresh else L.Refresh(true, false)
  }

  ghost function LoopsOf(loops: seq<Task>): seq<L.Loop>
    reads loops
  {
    seq(|loops|, i requires 0 <= i < |loops| reads loops => LoopOf(loops[i].body))
  }

  ghost function RefreshesOf(refreshes: seq<Task>): seq<L.Refresh>
    reads refreshes
  {
    seq(|refreshes|, i requires 0 <= i < |refreshes| reads refreshes => RefreshOf(refreshes[i].body))
  }

  ghost function EventsOf(events: seq<AsyncEvent>): seq<bool>
    reads events
  {
    seq(|events|, i requires 0 <= i < |events| reads events => events[i].isSet)
  }

  /** Everything ever created, in order. */
  datatype Created = Created(loops: seq<Task>, refreshes: seq<Task>, events: seq<AsyncEvent>)

  ghost function ChildOf(all: Created, t: Task): L.Child {
    if t in all.loops then L.LoopTask(IndexOf(all.loops, t))
    else if t in all.refreshes then L.RefreshTask(IndexOf(all.refreshes, t))
    else L.LoopTask(0)
  }

  ghost function ChildrenOf(all: Created, tasks: seq<Task>): seq<L.Child> {
    seq(|tasks|, k requires 0 <= k < |tasks| => ChildOf(all, tasks[k]))
  }

  ghost function PcOf(all: Created, pc: CallerPc): L.CallPc {
    match pc
    case WantsLock => L.WantsLock
    case Awaiting(tasks) => L.Awaiting(ChildrenOf(all, tasks))
    case AwaitingAttempt(event) => L.AwaitingAttempt(if event in all.events then IndexOf(all.events, event) else 0)
    case Returned => L.Returned
    case Cancelled => L.Cancelled
  }

  ghost function CallsOf(all: Created, calls: seq<Caller>): seq<L.Call>
    reads calls
  {
    seq(|calls|, i requires 0 <= i < |calls| reads calls =>
      L.Call(calls[i].kind, PcOf(all, calls[i].pc), calls[i].cancels, calls[i].atEntry))
  }

  ghost predicate Known(all: Created, pc: CallerPc) {
    match pc
    case Awaiting(tasks) => forall k :: 0 <= k < |tasks| ==> tasks[k] in all.loops || tasks[k] in all.refreshes
    case AwaitingAttempt(event) => event in all.events
    case _ => true
  }

  /** What is created later leaves the older objects their places. */
  ghost predicate Extends(was: Created, now: Created) {
    was.loops <= now.loops && was.refreshes <= now.refreshes && was.events <= now.events
  }

  lemma PcStays(was: Created, now: Created, pc: CallerPc)
    requires Extends(was, now) && Distinct(now.loops) && Distinct(now.refreshes) && Distinct(now.events)
    requires Known(was, pc) && forall t :: t in now.loops ==> t !in now.refreshes
    ensures Known(now, pc) && PcOf(now, pc) == PcOf(was, pc)
  {
    match pc
    case Awaiting(tasks) =>
      forall k | 0 <= k < |tasks|
        ensures ChildOf(now, tasks[k]) == ChildOf(was, tasks[k])
        ensures tasks[k] in now.loops || tasks[k] in now.refreshes
      {
        if tasks[k] in was.loops {
          PlaceStays(was.loops, now.loops, tasks[k]);
        } else {
          PlaceStays(was.refreshes, now.refreshes, tasks[k]);
        }
      }
      assert ChildrenOf(now, tasks) == ChildrenOf(was, tasks);
    case AwaitingAttempt(event) => PlaceStays(was.events, now.events, event);
    case _ =>
  }

  /** Cancelling each task of a list, in order. */
  function CancelEach(s: L.State, children: seq<L.Child>): L.State {
    if children == [] then s
    else L.CancelChild(CancelEach(s, children[..|children| - 1]), children[|children| - 1])
  }

  lemma CancelOne(s: L.State, child: L.Child)
    ensures CancelEach(s, [child]) == L.CancelChild(s, child)
  {
    assert [child][..0] == [];
  }

  lemma CancelTwo(s: L.State, first: L.Child, second: L.Child)
    ensures CancelEach(s, [first, second]) == L.CancelChild(L.CancelChild(s, first), second)
  {
    assert [first, second][..1] == [first];
    CancelOne(s, first);
  }

  lemma CancelEachIsCancelTasks(s: L.State)
    ensures CancelEach(s, L.ToStop(s)) == L.CancelTasks(s)
  {
    var loop := if s.task.Some? then L.LoopTask(s.task.value) else L.LoopTask(0);
    var refresh := if s.refreshTask.Some? then L.RefreshTask(s.refreshTask.value) else L.RefreshTask(0);
    if L.LoopAlive(s, s.task) && L.RefreshAlive(s, s.refreshTask) {
      assert L.ToStop(s) == [loop, refresh];
      CancelTwo(s, loop, refresh);
    } else if L.LoopAlive(s, s.task) {
      assert L.ToStop(s) == [loop];
      CancelOne(s, loop);
    } else if L.RefreshAlive(s, s.refreshTask) {
      assert L.ToStop(s) == [refresh];
      CancelOne(s, refresh);
    }
  }

  /** What getting the lock does, in the order of the code. */
  lemma AcquireCases(s: L.State, i: nat)
    requires L.Enabled(s, L.Acquires(i))
    ensures var next, entered := L.Apply(s, L.Acquires(i)), L.Entered(s, i);
            if L.AlreadyConnected(s, i) then next == L.WithPc(s, i, L.Returned)
            else next == StopBegun(entered, i, L.ToStop(entered))
  {
    assert L.ToStop(L.Entered(s, i)) == L.ToStop(s);
    CancelEachIsCancelTasks(L.Entered(s, i));
  }

  /** The tasks are cancelled and, with the lock held, awaited. */
  function Stopping(s: L.State, i: nat, children: seq<L.Child>): L.State
    requires i < |s.calls|
  {
    CancelEachLeavesCalls(s, children);
    L.WithPc(CancelEach(s, children), i, L.Awaiting(children)).(holder := Some(i))
  }

  /** _stop_locked up to its first await, with these tasks to stop. */
  function StopBegun(s: L.State, i: nat, children: seq<L.Child>): L.State
    requires i < |s.calls|
  {
    if children == [] then L.Finish(s, i, false) else Stopping(s, i, children)
  }

  lemma {:induction false} CancelEachLeavesCalls(s: L.State, children: seq<L.Child>)
    ensures CancelEach(s, children).calls == s.calls
  {
    if children != [] { CancelEachLeavesCalls(s, children[..|children| - 1]); }
  }

  /** A fresh event and a fresh loop, started by this caller. */
  function Started(s: L.State, i: nat): L.State {
    s.(events := s.events + [false], attemptDone := |s.events|,
       loops := s.loops + [L.Loop(L.Connecting, false, L.Unstarted, false)], task := Some(|s.loops|),
       starters := s.starters + [i])
  }

  function Swapped(s: L.State, i: nat, url: string, token: string): L.State
    requires i < |s.calls|
  {
    L.WithPc(Started(s, i), i, L.AwaitingAttempt(|s.events|)).(url := url, token := token)
  }

  lemma FinishedSwap(s: L.State, i: nat)
    requires i < |s.calls| && s.calls[i].kind.ApplyCredentials?
    ensures L.Settled(s).calls == s.calls
    ensures var kind := s.calls[i].kind;
            L.Finish(s, i, false) == Swapped(L.Settled(s).(holder := None), i, kind.url, kind.token)
  {
  }

  lemma CancelCases(s: L.State, i: nat)
    requires L.Enabled(s, L.CancelsCaller(i))
    ensures var counted := s.(calls := s.calls[i := s.calls[i].(cancels := s.calls[i].cancels + 1)]);
            var next, pc := L.Apply(s, L.CancelsCaller(i)), s.calls[i].pc;
            if pc.Awaiting? then next == (if pc.children == [] then counted else L.CancelChild(counted, pc.children[0]))
            else next == L.WithPc(counted, i, L.Cancelled)
  {
  }

  ghost predicate AllAlive(tasks: seq<Task>)
    reads tasks
  {
    forall t :: t in tasks ==> !t.Done()
  }

  ghost predicate AllAsked(tasks: seq<Task>)
    reads tasks
  {
    forall t :: t in tasks ==> t.CancelRequested()
  }

  // ----- The connection -----

  class HAConnection {
    var task: Task?
    var refreshTask: Task?
    var attemptDone: AsyncEvent
    var connState: ConnState
    var url: string
    var token: string
    var holder: Caller?
    ghost var calls: seq<Caller>
    ghost var all: Created
    ghost var starters: seq<nat>

    /** Everything ever created is told apart by identity; the connection and its
        callers hold nothing else, and the current event is the newest. */
    ghost predicate Valid()
      reads this, calls, all.loops, all.refreshes
    {
      && Distinct(calls) && Distinct(all.loops) && Distinct(all.refreshes) && Distinct(all.events)
      && (forall t :: t in all.loops ==> t.body.LoopBody?)
      && (forall t :: t in all.refreshes ==> t.body.RefreshBody?)
      && (task != null ==> task in all.loops)
      && (refreshTask != null ==> refreshTask in all.refreshes)
      && (holder != null ==> holder in calls)
      && all.events != [] && attemptDone == all.events[|all.events| - 1]
      && (forall c :: c in calls ==> Known(all, c.pc))
    }

    ghost function Model(): L.State
      requires all.events != []
      reads this, calls, all.loops, all.refreshes, all.events
    {
      L.State(CallsOf(all, calls), PlaceOf(calls, holder), LoopsOf(all.loops), PlaceOf(all.loops, task),
              RefreshesOf(all.refreshes), PlaceOf(all.refreshes, refreshTask),
              EventsOf(all.events), |all.events| - 1, connState, url, token, starters)
    }

    constructor ()
      ensures Valid() && L.Initial(Model())
    {
      var done := new AsyncEvent();
      task, refreshTask, holder, attemptDone := null, null, null, done;
      connState, url, token := Disconnected, "", "";
      calls, all, starters := [], Created([], [], [done]), [];
    }

    // ----- Callers -----

    lemma CallAt(c: Caller)
      requires Valid() && c in calls
      ensures |Model().calls| == |calls|
      ensures Model().calls[IndexOf(calls, c)] == L.Call(c.kind, PcOf(all, c.pc), c.cancels, c.atEntry)
    {
    }

    /** apply_credentials or stop is called. */
    method Call(kind: L.Kind) returns (c: Caller)
      requires Valid()
      modifies this`calls
      ensures Valid() && fresh(c) && calls == old(calls) + [c]
      ensures Model() == L.Apply(old(Model()), L.Calls(kind))
    {
      c := new Caller(kind);
      calls := calls + [c];
      assert holder != null ==> PlaceOf(calls, holder) == old(PlaceOf(calls, holder));
    }

    method SetAttemptDone()
      requires Valid()
      modifies attemptDone
      ensures Valid() && attemptDone.isSet && Model() == L.EventSet(old(Model()))
    {
      attemptDone.isSet := true;
      assert EventsOf(all.events) == old(EventsOf(all.events))[|all.events| - 1 := true];
    }

    method CancelTask(t: Task)
      requires Valid() && (t in all.loops || t in all.refreshes)
      modifies t
      ensures Valid() && Model() == L.CancelChild(old(Model()), ChildOf(all, t))
      ensures t.Done() == old(t.Done()) && (t.CancelRequested() <==> old(t.CancelRequested()) || !old(t.Done()))
    {
      t.Cancel();
      if t in all.loops {
        assert LoopsOf(all.loops) == old(LoopsOf(all.loops))[IndexOf(all.loops, t) := LoopOf(t.body)];
        assert RefreshesOf(all.refreshes) == old(RefreshesOf(all.refreshes));
      } else {
        var j := IndexOf(all.refreshes, t);
        assert RefreshesOf(all.refreshes) == old(RefreshesOf(all.refreshes))[j := RefreshOf(t.body)];
        assert LoopsOf(all.loops) == old(LoopsOf(all.loops));
      }
    }

    method SetPc(c: Caller, pc: CallerPc)
      requires Valid() && c in calls && Known(all, pc)
      modifies c`pc
      ensures Valid() && c.pc == pc && Model() == L.WithPc(old(Model()), IndexOf(calls, c), PcOf(all, pc))
    {
      c.pc := pc;
      var i := IndexOf(calls, c);
      assert CallsOf(all, calls) == old(CallsOf(all, calls))[i := old(CallsOf(all, calls))[i].(pc := PcOf(all, pc))];
    }

    // ----- Stopping and swapping -----

    /** _stop_locked's finally. */
    method SettleStop()
      requires Valid()
      modifies this`task, this`refreshTask, this`connState, attemptDone
      ensures Valid() && attemptDone.isSet && Model() == L.Settled(old(Model()))
      ensures task == null && refreshTask == null && connState == Disconnected
    {
      ghost var s := Model();
      task, refreshTask, connState := null, null, Disconnected;
      assert Model() == s.(task := None, refreshTask := None, connState := Disconnected);
      SetAttemptDone();
    }

    lemma CallsStay(now: Created)
      requires Valid() && Extends(all, now) && Distinct(now.loops) && Distinct(now.refreshes) && Distinct(now.events)
      requires forall t :: t in now.loops ==> t !in now.refreshes
      ensures CallsOf(now, calls) == CallsOf(all, calls) && forall c :: c in calls ==> Known(now, c.pc)
    {
      forall i | 0 <= i < |calls|
        ensures PcOf(now, calls[i].pc) == PcOf(all, calls[i].pc) && Known(now, calls[i].pc)
      {
        PcStays(all, now, calls[i].pc);
      }
    }

    /** self._attempt_done = asyncio.Event(): whoever waits on the old event still
        holds the old one. */
    method FreshEvent()
      requires Valid()
      modifies this`attemptDone, this`all
      ensures Valid() && fresh(attemptDone) && !attemptDone.isSet
      ensures all == old(all).(events := old(all).events + [attemptDone])
      ensures Model() == old(Model()).(events := old(Model()).events + [false], attemptDone := |old(Model()).events|)
    {
      var done := new AsyncEvent();
      ghost var now := all.(events := all.events + [done]);
      CallsStay(now);
      attemptDone, all := done, now;
      assert EventsOf(all.events) == old(EventsOf(all.events)) + [false];
    }

    /** self._task = asyncio.create_task(self._run()) */
    method StartLoop(ghost i: nat)
      requires Valid()
      modifies this`task, this`all, this`starters
      ensures Valid() && fresh(task) && all == old(all).(loops := old(all).loops + [task])
      ensures task.body == LoopBody(L.Loop(L.Connecting, false, L.Unstarted, false))
      ensures Model() == old(Model()).(
                loops := old(Model()).loops + [L.Loop(L.Connecting, false, L.Unstarted, false)],
                task := Some(|old(Model()).loops|), starters := old(Model()).starters + [i])
    {
      var loop := new Task(LoopBody(L.Loop(L.Connecting, false, L.Unstarted, false)));
      ghost var now := all.(loops := all.loops + [loop]);
      CallsStay(now);
      task, all, starters := loop, now, starters + [i];
      assert LoopsOf(all.loops) == old(LoopsOf(all.loops)) + [LoopOf(loop.body)];
    }

    method FreshAttempt(ghost i: nat)
      requires Valid()
      modifies this`attemptDone, this`task, this`all, this`starters
      ensures Valid() && fresh(attemptDone) && !attemptDone.isSet && attemptDone in all.events
      ensures fresh(task) && task.body == LoopBody(L.Loop(L.Connecting, false, L.Unstarted, false))
      ensures IndexOf(all.events, attemptDone) == |old(Model()).events|
      ensures Model() == Started(old(Model()), i)
    {
      FreshEvent();
      StartLoop(i);
    }

    method StoreCredentials(u: string, tok: string)
      requires Valid()
      modifies this`url, this`token
      ensures url == u && token == tok
      ensures Valid() && Model() == old(Model()).(url := u, token := tok)
    {
      url, token := u, tok;
    }

    /** This caller's credentials are the ones in use, on a loop yet to connect, and it
        waits for that loop's event, still unset. */
    ghost predicate SwappedFor(c: Caller)
      reads this, c, task, attemptDone
    {
      && c.kind == L.ApplyCredentials(url, token)
      && task != null && task.body == LoopBody(L.Loop(L.Connecting, false, L.Unstarted, false))
      && c.pc == AwaitingAttempt(attemptDone) && !attemptDone.isSet
    }

    /** This caller holds the lock and waits for these tasks, all cancelled. */
    ghost predicate StopsFor(c: Caller, tasks: seq<Task>)
      reads this, c, tasks
    {
      && holder == c && c.pc == Awaiting(tasks) && tasks != [] && c.atEntry == c.cancels
      && AllAsked(tasks)
    }

    /** Nothing is left to wait for: the swap is made, or the stop is over. */
    twostate predicate StopIsOver(c: Caller)
      reads this, c, task, attemptDone
    {
      && holder == null && refreshTask == null && connState == Disconnected
      && (c.kind.Stop? ==> c.pc == Returned && task == null && url == old(url) && token == old(token))
      && (c.kind.ApplyCredentials? ==> SwappedFor(c) && fresh(attemptDone) && fresh(task))
    }

    /** What is alive is cancelled and awaited with the lock held, under the old
        credentials; with nothing alive the call is done at once. */
    twostate predicate StopBegins(c: Caller, alive: seq<Task>)
      reads this, c, task, attemptDone, alive
    {
      if alive != [] then
        StopsFor(c, alive) && url == old(url) && token == old(token)
      else
        StopIsOver(c)
    }

    /** The tasks a stop finds alive, in its order. */
    ghost function LiveTasks(): seq<Task>
      reads this, task, refreshTask
    {
      (if task != null && !task.Done() then [task] else []) +
      (if refreshTask != null && !refreshTask.Done() then [refreshTask] else [])
    }

    /** The swap itself: credentials, a fresh event and a fresh loop to set it. */
    method Swap(c: Caller, u: string, tok: string)
      requires Valid() && c in calls
      modifies this`url, this`token, this`attemptDone, this`task, this`all, this`starters, c`pc
      ensures Valid() && fresh(attemptDone) && !attemptDone.isSet && c.pc == AwaitingAttempt(attemptDone)
      ensures url == u && token == tok
      ensures fresh(task) && task.body == LoopBody(L.Loop(L.Connecting, false, L.Unstarted, false))
      ensures var s, i := old(Model()), IndexOf(calls, c);
              |s.calls| == |calls| && Model() == Swapped(s, i, u, tok)
    {
      ghost var s, i := Model(), IndexOf(calls, c);
      FreshAttempt(i);
      assert Model() == Started(s, i);
      SetPc(c, AwaitingAttempt(attemptDone));
      assert Model() == L.WithPc(Started(s, i), i, L.AwaitingAttempt(|s.events|));
      StoreCredentials(u, tok);
    }

    method ReleaseLock()
      requires Valid()
      modifies this`holder
      ensures holder == null && Valid() && Model() == old(Model()).(holder := None)
    {
      holder := null;
    }

    /** What follows _stop_locked's wait: the lock is released, and a swap that was
        not cancelled stores its credentials and starts the loop; any other leaves
        the credentials as they were. The event that was current is set, for good. */
    method FinishStop(c: Caller, raised: bool)
      requires Valid() && c in calls
      modifies this`task, this`refreshTask, this`connState, this`holder, this`url, this`token, this`attemptDone
      modifies this`all, this`starters
      modifies c`pc, attemptDone
      ensures Valid() && Model() == L.Finish(old(Model()), IndexOf(calls, c), raised)
      ensures holder == null && refreshTask == null && connState == Disconnected && old(attemptDone).isSet
      ensures raised ==> c.pc == Cancelled
      ensures !raised && c.kind.Stop? ==> c.pc == Returned
      ensures raised || c.kind.Stop? ==> task == null && url == old(url) && token == old(token)
      ensures !raised && c.kind.ApplyCredentials? ==> SwappedFor(c) && fresh(attemptDone) && fresh(task)
    {
      ghost var s, i := Model(), IndexOf(calls, c);
      CallAt(c);
      SettleStop();
      ReleaseLock();
      if raised {
        SetPc(c, Cancelled);
      } else {
        match c.kind
        case Stop => SetPc(c, Returned);
        case ApplyCredentials(u, tok) =>
          Swap(c, u, tok);
          FinishedSwap(s, i);
      }
    }

    method TasksToStop() returns (tasks: seq<Task>)
      requires Valid()
      ensures tasks == LiveTasks() && AllAlive(tasks)
      ensures ChildrenOf(all, tasks) == L.ToStop(Model()) && Known(all, Awaiting(tasks))
    {
      tasks := [];
      if task != null && !task.Done() {
        tasks := tasks + [task];
      }
      if refreshTask != null && !refreshTask.Done() {
        tasks := tasks + [refreshTask];
      }
    }

    /** for task in tasks: task.cancel() */
    method CancelTasks(tasks: seq<Task>)
      requires Valid() && Known(all, Awaiting(tasks)) && AllAlive(tasks)
      modifies all.loops, all.refreshes
      ensures Valid() && Model() == CancelEach(old(Model()), ChildrenOf(all, tasks))
      ensures AllAsked(tasks)
    {
      for k := 0 to |tasks|
        invariant Valid() && Model() == CancelEach(old(Model()), ChildrenOf(all, tasks[..k]))
        invariant AllAlive(tasks) && AllAsked(tasks[..k])
      {
        assert ChildrenOf(all, tasks[..k + 1])[..k] == ChildrenOf(all, tasks[..k]);
        CancelTask(tasks[k]);
        assert tasks[..k + 1] == tasks[..k] + [tasks[k]];
      }
      assert tasks[..|tasks|] == tasks;
    }

    method AwaitTasks(c: Caller, tasks: seq<Task>)
      requires Valid() && c in calls && Known(all, Awaiting(tasks))
      requires AllAlive(tasks) && tasks != [] && c.atEntry == c.cancels
      modifies this`holder, c`pc, all.loops, all.refreshes
      ensures Valid() && |old(Model()).calls| == |calls|
      ensures Model() == Stopping(old(Model()), IndexOf(calls, c), ChildrenOf(all, tasks))
      ensures StopBegins(c, tasks)
    {
      ghost var s := Model();
      CancelTasks(tasks);
      CancelEachLeavesCalls(s, ChildrenOf(all, tasks));
      HoldLock(c, tasks);
    }

    method HoldLock(c: Caller, tasks: seq<Task>)
      requires Valid() && c in calls && Known(all, Awaiting(tasks))
      modifies this`holder, c`pc
      ensures holder == c && c.pc == Awaiting(tasks)
      ensures Valid() && |old(Model()).calls| == |calls|
      ensures Model() == L.WithPc(old(Model()), IndexOf(calls, c), L.Awaiting(ChildrenOf(all, tasks))).(
                           holder := Some(IndexOf(calls, c)))
    {
      SetPc(c, Awaiting(tasks));
      holder := c;
    }

    /** apply_credentials or stop, from getting the lock to its first await. A call
        with the credentials in use on an established connection returns and changes
        nothing; any other cancels and awaits what is alive, or is done at once. */
    method AcquireLock(c: Caller)
      requires Valid() && c in calls && L.Enabled(Model(), L.Acquires(IndexOf(calls, c)))
      modifies this, c, all.loops, all.refreshes, attemptDone
      ensures Valid() && calls == old(calls) && Model() == L.Apply(old(Model()), L.Acquires(IndexOf(calls, c)))
      ensures var kept := c.kind == L.ApplyCredentials(old(url), old(token)) && old(connState) == Connected;
              if kept then
                && c.pc == Returned && task == old(task) && refreshTask == old(refreshTask) && holder == old(holder)
                && url == old(url) && token == old(token) && connState == old(connState)
                && attemptDone == old(attemptDone) && all == old(all)
              else
                StopBegins(c, old(LiveTasks())) && (old(LiveTasks()) == [] ==> old(attemptDone).isSet)
    {
      ghost var s, i := Model(), IndexOf(calls, c);
      CallAt(c);
      AcquireCases(s, i);
      if c.kind.ApplyCredentials? && c.kind.url == url && c.kind.token == token && connState == Connected {
        SetPc(c, Returned);
        return;
      }
      assert !L.AlreadyConnected(s, i);
      EnterAndStop(c);
    }

    /** _stop_locked from its first line. */
    method EnterAndStop(c: Caller)
      requires Valid() && c in calls
      modifies this`task, this`refreshTask, this`connState, this`holder, this`url, this`token, this`attemptDone
      modifies this`all, this`starters
      modifies c`pc, c`atEntry, attemptDone, all.loops, all.refreshes
      ensures Valid() && |old(Model()).calls| == |calls|
      ensures var entered := L.Entered(old(Model()), IndexOf(calls, c));
              Model() == StopBegun(entered, IndexOf(calls, c), L.ToStop(entered))
      ensures StopBegins(c, old(LiveTasks())) && (old(LiveTasks()) == [] ==> old(attemptDone).isSet)
    {
      ghost var s, i, alive := Model(), IndexOf(calls, c), LiveTasks();
      CallAt(c);
      Enter(c);
      assert LiveTasks() == alive;
      StopTasks(c);
      assert Model() == StopBegun(L.Entered(s, i), i, L.ToStop(L.Entered(s, i)));
    }

    method StopGiven(c: Caller, tasks: seq<Task>, ghost children: seq<L.Child>)
      requires Valid() && c in calls && c.atEntry == c.cancels
      requires Known(all, Awaiting(tasks)) && AllAlive(tasks) && children == ChildrenOf(all, tasks)
      modifies this`task, this`refreshTask, this`connState, this`holder, this`url, this`token, this`attemptDone
      modifies this`all, this`starters
      modifies c`pc, attemptDone, all.loops, all.refreshes
      ensures Valid() && |old(Model()).calls| == |calls|
      ensures Model() == StopBegun(old(Model()), IndexOf(calls, c), children)
      ensures StopBegins(c, tasks) && (tasks == [] ==> old(attemptDone).isSet)
    {
      CallAt(c);
      assert |children| == |tasks|;
      if tasks == [] {
        FinishStop(c, false);
      } else {
        AwaitTasks(c, tasks);
      }
    }

    /** _stop_locked up to its first await. */
    method StopTasks(c: Caller)
      requires Valid() && c in calls && c.atEntry == c.cancels
      modifies this`task, this`refreshTask, this`connState, this`holder, this`url, this`token, this`attemptDone
      modifies this`all, this`starters
      modifies c`pc, attemptDone, all.loops, all.refreshes
      ensures Valid() && |old(Model()).calls| == |calls|
      ensures Model() == StopBegun(old(Model()), IndexOf(calls, c), L.ToStop(old(Model())))
      ensures StopBegins(c, old(LiveTasks())) && (old(LiveTasks()) == [] ==> old(attemptDone).isSet)
    {
      var tasks := TasksToStop();
      StopGiven(c, tasks, L.ToStop(Model()));
    }

    /** _stop_locked remembers how often its caller was cancelled before. */
    method Enter(c: Caller)
      requires Valid() && c in calls
      modifies c`atEntry
      ensures c.atEntry == c.cancels && LiveTasks() == old(LiveTasks())
      ensures Valid() && Model() == L.Entered(old(Model()), IndexOf(calls, c))
    {
      c.atEntry := c.cancels;
      var i := IndexOf(calls, c);
      assert CallsOf(all, calls) == old(CallsOf(all, calls))[i := old(CallsOf(all, calls))[i].(atEntry := c.cancels)];
    }

    /** _stop_locked, resumed by the end of its awaited child: a caller cancelled since
        it began gives up, any other waits for the next task or is done. */
    method AwaitedTaskEnded(c: Caller)
      requires Valid() && c in calls && L.Enabled(Model(), L.ChildEnds(IndexOf(calls, c)))
      modifies this, c, attemptDone
      ensures Valid() && calls == old(calls) && Model() == L.Apply(old(Model()), L.ChildEnds(IndexOf(calls, c)))
      ensures old(c.cancels) > old(c.atEntry) ==>
                c.pc == Cancelled && holder == null && task == null && url == old(url) && token == old(token)
      ensures old(c.cancels) <= old(c.atEntry) && |old(c.pc.tasks)| > 1 ==>
                && c.pc == Awaiting(old(c.pc.tasks)[1..]) && holder == old(holder)
                && url == old(url) && token == old(token)
      ensures old(c.cancels) <= old(c.atEntry) && |old(c.pc.tasks)| == 1 ==> StopIsOver(c) && old(attemptDone).isSet
    {
      if c.cancels > c.atEntry {
        FinishStop(c, true);
      } else if |c.pc.tasks| > 1 {
        assert ChildrenOf(all, c.pc.tasks[1..]) == ChildrenOf(all, c.pc.tasks)[1..];
        SetPc(c, Awaiting(c.pc.tasks[1..]));
      } else {
        FinishStop(c, false);
      }
    }

    method CountCancel(c: Caller)
      requires Valid() && c in calls
      modifies c`cancels
      ensures Valid() && |old(Model()).calls| == |calls|
      ensures var s, i := old(Model()), IndexOf(calls, c);
              Model() == s.(calls := s.calls[i := s.calls[i].(cancels := s.calls[i].cancels + 1)])
    {
      c.cancels := c.cancels + 1;
      var i := IndexOf(calls, c);
      assert CallsOf(all, calls) == old(CallsOf(all, calls))[i := old(CallsOf(all, calls))[i].(cancels := c.cancels)];
    }

    method PassOn(tasks: seq<Task>)
      requires Valid() && Known(all, Awaiting(tasks))
      modifies if tasks == [] then {} else {tasks[0]}
      ensures Valid()
      ensures Model() == if tasks == [] then old(Model()) else L.CancelChild(old(Model()), ChildrenOf(all, tasks)[0])
    {
      if tasks != [] {
        CancelTask(tasks[0]);
      }
    }

    /** A cancellation of a caller reaches what it awaits, or ends its wait. */
    method CancelCaller(c: Caller)
      requires Valid() && c in calls && L.Enabled(Model(), L.CancelsCaller(IndexOf(calls, c)))
      modifies c`cancels, c`pc, all.loops, all.refreshes
      ensures Valid() && Model() == L.Apply(old(Model()), L.CancelsCaller(IndexOf(calls, c)))
    {
      ghost var s, i := Model(), IndexOf(calls, c);
      CallAt(c);
      CancelCases(s, i);
      var pc := c.pc;
      CountCancel(c);
      ghost var counted := s.(calls := s.calls[i := s.calls[i].(cancels := s.calls[i].cancels + 1)]);
      assert Model() == counted && s.calls[i].pc == PcOf(all, pc);
      if pc.Awaiting? {
        PassOn(pc.tasks);
      } else {
        SetPc(c, Cancelled);
      }
    }

    // ----- The loop and its set-up child -----

    method SetLoop(t: Task, loop: L.Loop)
      requires Valid() && t in all.loops
      modifies t
      ensures Valid() && Model() == L.WithLoop(old(Model()), IndexOf(all.loops, t), loop)
    {
      t.body := LoopBody(loop);
      assert LoopsOf(all.loops) == old(LoopsOf(all.loops))[IndexOf(all.loops, t) := loop];
      assert RefreshesOf(all.refreshes) == old(RefreshesOf(all.refreshes));
    }

    /** _on_connected after get_services answered. */
    method SetupConnected(t: Task)
      requires Valid() && t in all.loops && L.Enabled(Model(), L.SetupConnects(IndexOf(all.loops, t)))
      modifies t, this`connState
      ensures Valid() && Model() == L.Apply(old(Model()), L.SetupConnects(IndexOf(all.loops, t)))
    {
      SetLoop(t, t.body.loop.(setup := L.Announcing));
      connState := Connected;
    }

    /** _on_connected after its connect listeners. */
    method SetupFinished(t: Task)
      requires Valid() && t in all.loops && L.Enabled(Model(), L.SetupFinishes(IndexOf(all.loops, t)))
      modifies t, attemptDone
      ensures Valid() && Model() == L.Apply(old(Model()), L.SetupFinishes(IndexOf(all.loops, t)))
    {
      SetLoop(t, t.body.loop.(setup := L.Over(true)));
      SetAttemptDone();
    }

    /** _run's inner finally: the socket is forgotten and the set-up child cancelled. */
    method LeaveReadLoop(t: Task)
      requires Valid() && t in all.loops && L.Enabled(Model(), L.ReaderLeaves(IndexOf(all.loops, t)))
      modifies t
      ensures Valid() && Model() == L.Apply(old(Model()), L.ReaderLeaves(IndexOf(all.loops, t)))
    {
      SetLoop(t, t.body.loop.(pc := L.Leaving, setupCancelled := t.body.loop.SetupRuns()));
    }

    /** cancel_and_wait(setup) is over: a cancelled loop unwinds, any other reports
        the drop to its listeners. */
    method SetupWaitOver(t: Task)
      requires Valid() && t in all.loops && L.Enabled(Model(), L.Leaves(IndexOf(all.loops, t)))
      modifies t, this`connState
      ensures Valid() && Model() == L.Apply(old(Model()), L.Leaves(IndexOf(all.loops, t)))
    {
      if t.body.loop.cancelled {
        SetLoop(t, t.body.loop.(pc := L.Ended));
      } else {
        SetLoop(t, t.body.loop.(pc := L.Notifying(false)));
        connState := Unreachable;
      }
    }

    /** The disconnect listeners are done: the attempt has an outcome, and a
        rejected token ends the loop. */
    method DisconnectNotified(t: Task)
      requires Valid() && t in all.loops && L.Enabled(Model(), L.Notified(IndexOf(all.loops, t)))
      modifies t, attemptDone
      ensures Valid() && Model() == L.Apply(old(Model()), L.Notified(IndexOf(all.loops, t)))
    {
      SetLoop(t, t.body.loop.(pc := if t.body.loop.pc.rejected then L.Ended else L.Sleeping));
      SetAttemptDone();
    }

    method StartRefresh()
      requires Valid()
      modifies this`refreshTask, this`all
      ensures Valid() && fresh(refreshTask) && all == old(all).(refreshes := old(all).refreshes + [refreshTask])
      ensures Model() == old(Model()).(
                refreshes := old(Model()).refreshes + [L.Refresh(false, false)],
                refreshTask := Some(|old(Model()).refreshes|))
    {
      var refresh := new Task(RefreshBody(L.Refresh(false, false)));
      ghost var now := all.(refreshes := all.refreshes + [refresh]);
      CallsStay(now);
      refreshTask, all := refresh, now;
      assert RefreshesOf(all.refreshes) == old(RefreshesOf(all.refreshes)) + [RefreshOf(refresh.body)];
    }

    /** _schedule_registry_refresh: a new task only if none is alive. */
    method ScheduleRefresh(t: Task)
      requires Valid() && t in all.loops
      requires t.body.loop.pc == L.Reading && !t.body.loop.cancelled
      modifies this`refreshTask, this`all
      ensures Valid()
      ensures var starts := L.RefreshStarts(IndexOf(old(all).loops, t));
              Model() == if L.Enabled(old(Model()), starts) then L.Apply(old(Model()), starts) else old(Model())
    {
      if refreshTask != null && !refreshTask.Done() {
        return;
      }
      StartRefresh();
    }
  }
}
