/** The connection's task tree (app/ha_connection.py: apply_credentials, stop,
    _stop_locked, _run, _on_connected): any number of overlapping callers behind
    one lock, connection loops each with a set-up child, registry refreshes, and
    the events that apply_credentials callers wait on. */
module Lifecycle {
  import opened Basics
  import Runs
  import opened Mirror
  import R = Replication

  // ----- State -----

  /** Where _run is. Leaving: past the read loop, waiting for the set-up child. */
  datatype LoopPc = Connecting | Reading | Leaving | Notifying(rejected: bool) | Sleeping | Ended

  /** Where _on_connected is. Closing: it failed and waits for ws.close(). */
  datatype SetupPc = Unstarted | Fetching | Announcing | Closing | Over(connected: bool)

  /** One connection loop; cancelled flags are cancellations requested of the loop
      and of its set-up child. */
  datatype Loop = Loop(pc: LoopPc, cancelled: bool, setup: SetupPc, setupCancelled: bool)
  {
    predicate SetupRuns() {
      setup.Fetching? || setup.Announcing? || setup.Closing?
    }
  }

  datatype Refresh = Refresh(ended: bool, cancelled: bool)

  datatype Child = LoopTask(i: nat) | RefreshTask(j: nat)

  datatype Kind = ApplyCredentials(url: string, token: string) | Stop

  datatype CallPc =
    | WantsLock
    | Awaiting(children: seq<Child>)
    | AwaitingAttempt(event: nat)
    | Returned
    | Cancelled

  /** A caller: cancels counts every cancellation ever requested of it, atEntry is
      that count when it began to stop the old tasks. */
  datatype Call = Call(kind: Kind, pc: CallPc, cancels: nat, atEntry: nat)

  /** starters: history. The caller that started each loop. */
  datatype State = State(
    calls: seq<Call>, holder: Option<nat>,
    loops: seq<Loop>, task: Option<nat>,
    refreshes: seq<Refresh>, refreshTask: Option<nat>,
    events: seq<bool>, attemptDone: nat,
    connState: ConnState, url: string, token: string, starters: seq<nat>)

  predicate Initial(s: State) {
    s == State([], None, [], None, [], None, [false], 0, Disconnected, "", "", [])
  }

  datatype Step =
    // callers
    | Calls(kind: Kind)
    | Acquires(c: nat)
    | ChildEnds(c: nat)
    | CancelsCaller(c: nat)
    | Resumes(c: nat)
    // the loop and its set-up child
    | Handshakes(i: nat)
    | AttemptFails(i: nat, rejected: bool)
    | SetupConnects(i: nat)
    | SetupFinishes(i: nat)
    | SetupFails(i: nat)
    | SetupCloses(i: nat)
    | ReaderLeaves(i: nat)
    | SetupUnwinds(i: nat)
    | Leaves(i: nat)
    | Notified(i: nat)
    | Wakes(i: nat)
    | CancelReaches(i: nat)
    // registry refreshes
    | RefreshStarts(i: nat)
    | RefreshEnds(j: nat)

  // ----- Steps -----

  predicate ChildEnded(s: State, child: Child) {
    match child
    case LoopTask(i) => i < |s.loops| && s.loops[i].pc == Ended
    case RefreshTask(j) => j < |s.refreshes| && s.refreshes[j].ended
  }

  predicate LoopAlive(s: State, i: Option<nat>) {
    i.Some? && i.value < |s.loops| && s.loops[i.value].pc != Ended
  }

  predicate RefreshAlive(s: State, j: Option<nat>) {
    j.Some? && j.value < |s.refreshes| && !s.refreshes[j.value].ended
  }

  predicate Enabled(s: State, step: Step) {
    match step
    case Calls(_) => true
    case Acquires(c) => c < |s.calls| && s.calls[c].pc == WantsLock && s.holder.None?
    case ChildEnds(c) =>
      && c < |s.calls| && s.calls[c].pc.Awaiting? && s.calls[c].pc.children != []
      && ChildEnded(s, s.calls[c].pc.children[0])
    case CancelsCaller(c) => c < |s.calls| && !s.calls[c].pc.Returned? && !s.calls[c].pc.Cancelled?
    case Resumes(c) =>
      c < |s.calls| && s.calls[c].pc.AwaitingAttempt? && s.calls[c].pc.event < |s.events| &&
      s.events[s.calls[c].pc.event]
    case Handshakes(i) => i < |s.loops| && s.loops[i].pc == Connecting && !s.loops[i].cancelled
    case AttemptFails(i, _) => i < |s.loops| && s.loops[i].pc == Connecting && !s.loops[i].cancelled
    case SetupConnects(i) =>
      i < |s.loops| && s.loops[i].pc == Reading && s.loops[i].setup == Fetching && !s.loops[i].setupCancelled
    case SetupFinishes(i) =>
      i < |s.loops| && s.loops[i].pc == Reading && s.loops[i].setup == Announcing && !s.loops[i].setupCancelled
    case SetupFails(i) =>
      i < |s.loops| && s.loops[i].pc == Reading && s.loops[i].setup == Fetching && !s.loops[i].setupCancelled
    case SetupCloses(i) =>
      i < |s.loops| && s.loops[i].pc == Reading && s.loops[i].setup == Closing && !s.loops[i].setupCancelled
    case ReaderLeaves(i) => i < |s.loops| && s.loops[i].pc == Reading
    case SetupUnwinds(i) => i < |s.loops| && s.loops[i].setupCancelled && s.loops[i].SetupRuns()
    case Leaves(i) => i < |s.loops| && s.loops[i].pc == Leaving && !s.loops[i].SetupRuns()
    case Notified(i) => i < |s.loops| && s.loops[i].pc.Notifying? && !s.loops[i].cancelled
    case Wakes(i) => i < |s.loops| && s.loops[i].pc == Sleeping && !s.loops[i].cancelled
    case CancelReaches(i) =>
      i < |s.loops| && s.loops[i].cancelled &&
      (s.loops[i].pc == Connecting || s.loops[i].pc.Notifying? || s.loops[i].pc == Sleeping)
    case RefreshStarts(i) =>
      i < |s.loops| && s.loops[i].pc == Reading && !s.loops[i].cancelled && !RefreshAlive(s, s.refreshTask)
    case RefreshEnds(j) => j < |s.refreshes| && !s.refreshes[j].ended
  }

  function WithLoop(s: State, i: nat, loop: Loop): State
    requires i < |s.loops|
  {
    s.(loops := s.loops[i := loop])
  }

  function WithPc(s: State, c: nat, pc: CallPc): State
    requires c < |s.calls|
  {
    s.(calls := s.calls[c := s.calls[c].(pc := pc)])
  }

  /** self._attempt_done.set() */
  function EventSet(s: State): State {
    if s.attemptDone < |s.events| then s.(events := s.events[s.attemptDone := true]) else s
  }

  /** Cancelling a task: a loop waiting for its set-up child passes it on. */
  function CancelChild(s: State, child: Child): State {
    match child
    case LoopTask(i) =>
      if i < |s.loops| && s.loops[i].pc != Ended then
        WithLoop(s, i, s.loops[i].(cancelled := true,
                                   setupCancelled := s.loops[i].setupCancelled ||
                                       (s.loops[i].pc == Leaving && s.loops[i].SetupRuns())))
      else s
    case RefreshTask(j) =>
      if j < |s.refreshes| && !s.refreshes[j].ended
      then s.(refreshes := s.refreshes[j := s.refreshes[j].(cancelled := true)])
      else s
  }

  /** The tasks _stop_locked stops, in its order. */
  function ToStop(s: State): seq<Child> {
    (if LoopAlive(s, s.task) then [LoopTask(s.task.value)] else []) +
    (if RefreshAlive(s, s.refreshTask) then [RefreshTask(s.refreshTask.value)] else [])
  }

  function CancelTasks(s: State): State {
    var loopCancelled := if LoopAlive(s, s.task) then CancelChild(s, LoopTask(s.task.value)) else s;
    if RefreshAlive(s, s.refreshTask)
    then CancelChild(loopCancelled, RefreshTask(s.refreshTask.value))
    else loopCancelled
  }

  /** _stop_locked's finally block. */
  function Settled(s: State): State {
    EventSet(s.(task := None, refreshTask := None, connState := Disconnected))
  }

  /** After _stop_locked: release the lock, and for a swap start the new loop. */
  function Finish(s: State, c: nat, raised: bool): State
    requires c < |s.calls|
  {
    var settled := Settled(s).(holder := None);
    if raised then WithPc(settled, c, Cancelled)
    else match s.calls[c].kind
      case Stop => WithPc(settled, c, Returned)
      case ApplyCredentials(url, token) =>
        WithPc(settled, c, AwaitingAttempt(|s.events|)).(
          url := url, token := token,
          events := settled.events + [false], attemptDone := |s.events|,
          loops := s.loops + [Loop(Connecting, false, Unstarted, false)], task := Some(|s.loops|),
          starters := s.starters + [c])
  }

  /** The same credentials, and connected with them: nothing to do. */
  predicate AlreadyConnected(s: State, c: nat)
    requires c < |s.calls|
  {
    var kind := s.calls[c].kind;
    kind.ApplyCredentials? && kind.url == s.url && kind.token == s.token && s.connState == Connected
  }

  /** _stop_locked remembers its caller's cancellation count. */
  function Entered(s: State, c: nat): State
    requires c < |s.calls|
  {
    s.(calls := s.calls[c := s.calls[c].(atEntry := s.calls[c].cancels)])
  }

  function AfterAcquires(s: State, c: nat): State
    requires c < |s.calls|
  {
    if AlreadyConnected(s, c) then WithPc(s, c, Returned)
    else if ToStop(s) == [] then Finish(Entered(s, c), c, false)
    else WithPc(CancelTasks(Entered(s, c)), c, Awaiting(ToStop(s))).(holder := Some(c))
  }

  /** The awaited child has ended (its cancellation raises): the caller gives up
      exactly if a cancellation was aimed at it since it began to stop. */
  function AfterChildEnds(s: State, c: nat): State
    requires Enabled(s, ChildEnds(c))
  {
    var call := s.calls[c];
    if call.cancels > call.atEntry then Finish(s, c, true)
    else if |call.pc.children| > 1 then WithPc(s, c, Awaiting(call.pc.children[1..]))
    else Finish(s, c, false)
  }

  /** A cancellation of a caller reaches the child it awaits, or ends its wait. */
  function AfterCancelsCaller(s: State, c: nat): State
    requires Enabled(s, CancelsCaller(c))
  {
    var call := s.calls[c].(cancels := s.calls[c].cancels + 1);
    var counted := s.(calls := s.calls[c := call]);
    if call.pc.Awaiting? then
      if call.pc.children == [] then counted else CancelChild(counted, call.pc.children[0])
    else WithPc(counted, c, Cancelled)
  }

  function Apply(s: State, step: Step): State
    requires Enabled(s, step)
  {
    match step
    case Calls(kind) => s.(calls := s.calls + [Call(kind, WantsLock, 0, 0)])
    case Acquires(c) => AfterAcquires(s, c)
    case ChildEnds(c) => AfterChildEnds(s, c)
    case CancelsCaller(c) => AfterCancelsCaller(s, c)
    case Resumes(c) => WithPc(s, c, Returned)
    case Handshakes(i) => WithLoop(s, i, s.loops[i].(pc := Reading, setup := Fetching, setupCancelled := false))
    case AttemptFails(i, rejected) =>
      WithLoop(s, i, s.loops[i].(pc := Notifying(rejected))).(connState := if rejected then AuthFailed else Unreachable)
    case SetupConnects(i) => WithLoop(s, i, s.loops[i].(setup := Announcing)).(connState := Connected)
    case SetupFinishes(i) => EventSet(WithLoop(s, i, s.loops[i].(setup := Over(true))))
    case SetupFails(i) => WithLoop(s, i, s.loops[i].(setup := Closing))
    case SetupCloses(i) => WithLoop(s, i, s.loops[i].(setup := Over(false)))
    case ReaderLeaves(i) => WithLoop(s, i, s.loops[i].(pc := Leaving, setupCancelled := s.loops[i].SetupRuns()))
    case SetupUnwinds(i) => WithLoop(s, i, s.loops[i].(setup := Over(false)))
    case Leaves(i) =>
      if s.loops[i].cancelled then WithLoop(s, i, s.loops[i].(pc := Ended))
      else WithLoop(s, i, s.loops[i].(pc := Notifying(false))).(connState := Unreachable)
    case Notified(i) =>
      EventSet(WithLoop(s, i, s.loops[i].(pc := if s.loops[i].pc.rejected then Ended else Sleeping)))
    case Wakes(i) => WithLoop(s, i, s.loops[i].(pc := Connecting))
    case CancelReaches(i) => WithLoop(s, i, s.loops[i].(pc := Ended))
    case RefreshStarts(_) =>
      s.(refreshes := s.refreshes + [Refresh(false, false)], refreshTask := Some(|s.refreshes|))
    case RefreshEnds(j) => s.(refreshes := s.refreshes[j := s.refreshes[j].(ended := true)])
  }

  function Next(s: State, step: Step): Option<State> {
    if Enabled(s, step) then Some(Apply(s, step)) else None
  }

  ghost predicate Reachable(s: State) {
    Runs.Reachable(Initial, Next, s)
  }

  // ----- The invariant -----

  function Last(s: State): int {
    |s.loops| - 1
  }

  predicate Alive(s: State) {
    s.loops != [] && s.loops[Last(s)].pc != Ended
  }

  predicate LoopFits(l: Loop) {
    match l.pc
    case Reading => !l.setup.Unstarted? && !l.setupCancelled
    case Leaving => !l.setup.Unstarted? && (l.SetupRuns() ==> l.setupCancelled)
    case _ => !l.SetupRuns()
  }

  /** Every loop but the last has ended; one still alive is self._task. */
  predicate OneLoop(s: State) {
    && (forall i :: 0 <= i < Last(s) ==> s.loops[i].pc == Ended)
    && (Alive(s) ==> s.task == Some(Last(s)))
    && (s.task.Some? ==> s.task.value == Last(s))
    && (forall i :: 0 <= i < |s.loops| ==> LoopFits(s.loops[i]))
  }

  /** What the lock holder waits for: the cancelled loop first, then a refresh. */
  predicate StopFits(s: State, children: seq<Child>) {
    && children != []
    && (Alive(s) ==> s.loops[Last(s)].cancelled && children[0] == LoopTask(Last(s)))
    && (forall k :: 0 <= k < |children| ==>
          match children[k]
          case LoopTask(i) => k == 0 && i == Last(s)
          case RefreshTask(j) => j < |s.refreshes| && s.refreshes[j].cancelled && k == |children| - 1)
  }

  predicate LockFits(s: State) {
    && (s.holder.Some? ==>
          s.holder.value < |s.calls| && s.calls[s.holder.value].pc.Awaiting? &&
          StopFits(s, s.calls[s.holder.value].pc.children))
    && (forall c :: 0 <= c < |s.calls| && s.calls[c].pc.Awaiting? ==> s.holder == Some(c))
    && (s.holder.None? && Alive(s) ==> !s.loops[Last(s)].cancelled)
  }

  predicate RefreshesFit(s: State) {
    && (s.refreshTask.Some? ==> s.refreshTask.value < |s.refreshes|)
    && (forall j :: 0 <= j < |s.refreshes| && !s.refreshes[j].ended && s.refreshTask != Some(j) ==>
          s.refreshes[j].cancelled)
    && (s.holder.Some? && RefreshAlive(s, s.refreshTask) ==> s.refreshes[s.refreshTask.value].cancelled)
  }

  /** The attempt the current event stands for has not ended yet. */
  predicate FirstAttempt(s: State) {
    Alive(s) && s.loops[Last(s)].pc != Sleeping && s.loops[Last(s)].setup != Over(true)
  }

  predicate EventsFit(s: State) {
    && |s.events| == |s.loops| + 1
    && s.attemptDone == |s.loops|
    && (forall e :: 0 <= e < s.attemptDone ==> s.events[e])
    && (!s.events[s.attemptDone] && s.attemptDone > 0 ==> s.holder.Some? || FirstAttempt(s))
    && (forall c :: 0 <= c < |s.calls| && s.calls[c].pc.AwaitingAttempt? ==>
          0 < s.calls[c].pc.event <= s.attemptDone)
  }

  predicate Announced(l: Loop) {
    l.pc == Reading && (l.setup == Announcing || l.setup == Over(true))
  }

  predicate SettingUp(l: Loop) {
    l.pc == Reading && (l.setup == Fetching || l.setup == Closing)
  }

  predicate ConnStateFits(s: State) {
    && (s.connState == Connected ==>
          s.holder.Some? || (Alive(s) && (Announced(s.loops[Last(s)]) || s.loops[Last(s)].pc == Leaving)))
    && (Alive(s) && Announced(s.loops[Last(s)]) ==> s.connState == Connected)
    && (Alive(s) && SettingUp(s.loops[Last(s)]) ==> s.connState != Connected)
  }

  predicate Inv(s: State) {
    OneLoop(s) && LockFits(s) && RefreshesFit(s) && EventsFit(s) && ConnStateFits(s)
  }

  // ----- Preservation -----

  lemma CallKeeps(s: State, step: Step)
    requires Inv(s) && Enabled(s, step) && (step.Calls? || step.Resumes?)
    ensures Inv(Apply(s, step))
  {
  }

  /** Callers come and go without touching the tasks. */
  lemma CallsAside(s: State, calls: seq<Call>)
    requires Inv(s) && |s.calls| <= |calls|
    requires forall c :: 0 <= c < |s.calls| && s.calls[c].pc.Awaiting? ==> calls[c].pc == s.calls[c].pc
    requires forall c :: 0 <= c < |calls| && calls[c].pc.Awaiting? ==> c < |s.calls| && s.calls[c].pc.Awaiting?
    requires forall c :: 0 <= c < |calls| && calls[c].pc.AwaitingAttempt? ==>
              c < |s.calls| && s.calls[c].pc == calls[c].pc
    ensures Inv(s.(calls := calls))
  {
  }

  lemma CancelTrackedKeeps(s: State, c: nat, children: seq<Child>)
    requires Inv(s) && s.holder == Some(c) && c < |s.calls| && s.calls[c].pc == Awaiting(children)
    ensures children != [] && Inv(CancelChild(s, children[0]))
  {
  }

  lemma CancelCallerKeeps(s: State, step: Step)
    requires Inv(s) && Enabled(s, step) && step.CancelsCaller?
    ensures Inv(Apply(s, step))
  {
    var c := step.c;
    var call := s.calls[c].(cancels := s.calls[c].cancels + 1);
    if call.pc.Awaiting? {
      CancelHolderKeeps(s, c);
    } else {
      CallsAside(s, s.calls[c := call.(pc := Cancelled)]);
    }
  }

  lemma CancelHolderKeeps(s: State, c: nat)
    requires Inv(s) && c < |s.calls| && s.calls[c].pc.Awaiting?
    ensures Inv(AfterCancelsCaller(s, c))
  {
    var call := s.calls[c].(cancels := s.calls[c].cancels + 1);
    var counted := s.(calls := s.calls[c := call]);
    CallsAside(s, counted.calls);
    assert counted.holder == Some(c) && counted.calls[c].pc == s.calls[c].pc;
    CancelTrackedKeeps(counted, c, s.calls[c].pc.children);
    assert AfterCancelsCaller(s, c) == CancelChild(counted, s.calls[c].pc.children[0]);
  }

  /** A stop is over and its caller is done. */
  lemma SettledKeeps(s: State, c: nat, pc: CallPc)
    requires OneLoop(s) && RefreshesFit(s) && EventsFit(s) && c < |s.calls| && !Alive(s)
    requires forall d :: 0 <= d < |s.calls| && s.calls[d].pc.Awaiting? ==> d == c
    requires RefreshAlive(s, s.refreshTask) ==> s.refreshes[s.refreshTask.value].cancelled
    requires pc == Returned || pc == Cancelled
    ensures Inv(WithPc(Settled(s).(holder := None), c, pc))
  {
  }

  /** A new loop starts, and its caller waits for a fresh event. */
  lemma LoopStarts(s: State, c: nat, url: string, token: string)
    requires Inv(s) && s.holder.None? && !Alive(s) && c < |s.calls| && s.events[s.attemptDone]
    ensures Inv(WithPc(s, c, AwaitingAttempt(|s.events|)).(
                url := url, token := token, events := s.events + [false], attemptDone := |s.events|,
                loops := s.loops + [Loop(Connecting, false, Unstarted, false)], task := Some(|s.loops|),
                starters := s.starters + [c]))
  {
  }

  lemma FinishKeeps(s: State, c: nat, raised: bool)
    requires OneLoop(s) && RefreshesFit(s) && EventsFit(s) && c < |s.calls| && !Alive(s)
    requires forall d :: 0 <= d < |s.calls| && s.calls[d].pc.Awaiting? ==> d == c
    requires RefreshAlive(s, s.refreshTask) ==> s.refreshes[s.refreshTask.value].cancelled
    ensures Inv(Finish(s, c, raised))
  {
    if raised {
      SettledKeeps(s, c, Cancelled);
    } else {
      SettledKeeps(s, c, Returned);
      var call := s.calls[c];
      if call.kind.ApplyCredentials? {
        var settled := WithPc(Settled(s).(holder := None), c, Returned);
        LoopStarts(settled, c, call.kind.url, call.kind.token);
        assert settled.calls[c := settled.calls[c].(pc := AwaitingAttempt(|s.events|))] ==
               s.calls[c := call.(pc := AwaitingAttempt(|s.events|))];
      }
    }
  }

  lemma CancelTasksFits(s: State)
    requires Inv(s) && s.holder.None? && ToStop(s) != []
    ensures var next := CancelTasks(s);
            && OneLoop(next) && EventsFit(next.(holder := Some(0))) && RefreshesFit(next.(holder := Some(0)))
            && ConnStateFits(next) && StopFits(next, ToStop(s)) && next.calls == s.calls && next.holder == s.holder
  {
    CancelLoopFits(s);
    CancelRefreshFits(s);
  }

  lemma CancelLoopFits(s: State)
    requires Inv(s) && s.holder.None?
    ensures var next := CancelTasks(s);
            && OneLoop(next) && ConnStateFits(next) && EventsFit(next.(holder := Some(0)))
            && next.calls == s.calls && next.holder == s.holder
  {
  }

  lemma CancelRefreshFits(s: State)
    requires Inv(s) && s.holder.None? && ToStop(s) != []
    ensures RefreshesFit(CancelTasks(s).(holder := Some(0))) && StopFits(CancelTasks(s), ToStop(s))
  {
  }

  lemma LockTaken(s: State, c: nat, children: seq<Child>)
    requires c < |s.calls| && s.holder.None? && forall d :: 0 <= d < |s.calls| ==> !s.calls[d].pc.Awaiting?
    requires OneLoop(s) && EventsFit(s.(holder := Some(0))) && RefreshesFit(s.(holder := Some(0)))
    requires ConnStateFits(s) && StopFits(s, children)
    ensures Inv(WithPc(s, c, Awaiting(children)).(holder := Some(c)))
  {
  }

  lemma AcquireKeeps(s: State, step: Step)
    requires Inv(s) && Enabled(s, step) && step.Acquires?
    ensures Inv(Apply(s, step))
  {
    var c := step.c;
    if AlreadyConnected(s, c) {
      CallsAside(s, s.calls[c := s.calls[c].(pc := Returned)]);
    } else {
      CallsAside(s, Entered(s, c).calls);
      if ToStop(s) == [] {
        FinishKeeps(Entered(s, c), c, false);
      } else {
        CancelTasksFits(Entered(s, c));
        LockTaken(CancelTasks(Entered(s, c)), c, ToStop(s));
      }
    }
  }

  lemma ChildEndKeeps(s: State, step: Step)
    requires Inv(s) && Enabled(s, step) && step.ChildEnds?
    ensures Inv(Apply(s, step))
  {
    var c, call := step.c, s.calls[step.c];
    assert !Alive(s);
    if call.cancels > call.atEntry {
      FinishKeeps(s, c, true);
    } else if |call.pc.children| == 1 {
      FinishKeeps(s, c, false);
    }
  }

  predicate LoopStep(step: Step) {
    step.Handshakes? || step.AttemptFails? || step.SetupConnects? || step.SetupFinishes? || step.SetupFails? ||
    step.SetupCloses? ||
    step.ReaderLeaves? || step.SetupUnwinds? || step.Leaves? || step.Notified? || step.Wakes? || step.CancelReaches?
  }

  lemma LoopReplaced(s: State, l: Loop, connState: ConnState)
    requires Inv(s) && Alive(s) && LoopFits(l) && l.cancelled == s.loops[Last(s)].cancelled
    requires !s.events[s.attemptDone] ==> s.holder.Some? || (l.pc != Ended && l.pc != Sleeping && l.setup != Over(true))
    requires connState == Connected ==> s.holder.Some? || Announced(l) || l.pc == Leaving
    requires Announced(l) ==> connState == Connected
    requires SettingUp(l) ==> connState != Connected
    ensures Inv(WithLoop(s, Last(s), l).(connState := connState))
  {
  }

  lemma EventSetKeeps(s: State)
    requires Inv(s)
    ensures Inv(EventSet(s)) && EventSet(s).events[s.attemptDone]
  {
  }

  /** What a loop step replaces, before it sets the event if it does. */
  lemma LoopStepIs(s: State, step: Step)
    requires Inv(s) && Enabled(s, step) && LoopStep(step)
    ensures step.i == Last(s)
    ensures var next := Apply(s, step);
            var before := if step.SetupFinishes? || step.Notified? then EventSet(s) else s;
            next == WithLoop(before, step.i, next.loops[step.i]).(connState := next.connState)
  {
    assert step.i == Last(s);
  }

  lemma LoopStepFits(s: State, step: Step)
    requires Inv(s) && Enabled(s, step) && LoopStep(step)
    ensures var next := Apply(s, step);
            var l := next.loops[Last(s)];
            && LoopFits(l) && l.cancelled == s.loops[Last(s)].cancelled
            && (!next.events[s.attemptDone] ==>
                  s.holder.Some? || (l.pc != Ended && l.pc != Sleeping && l.setup != Over(true)))
            && (next.connState == Connected ==> s.holder.Some? || Announced(l) || l.pc == Leaving)
            && (Announced(l) ==> next.connState == Connected)
            && (SettingUp(l) ==> next.connState != Connected)
  {
    assert step.i == Last(s);
  }

  lemma LoopKeeps(s: State, step: Step)
    requires Inv(s) && Enabled(s, step) && LoopStep(step)
    ensures Inv(Apply(s, step))
  {
    var next := Apply(s, step);
    LoopStepIs(s, step);
    LoopStepFits(s, step);
    if step.SetupFinishes? || step.Notified? {
      EventSetKeeps(s);
      LoopReplaced(EventSet(s), next.loops[step.i], next.connState);
    } else {
      LoopReplaced(s, next.loops[step.i], next.connState);
    }
  }

  lemma RefreshStartKeeps(s: State, step: Step)
    requires Inv(s) && Enabled(s, step) && step.RefreshStarts?
    ensures Inv(Apply(s, step))
  {
    assert step.i == Last(s) && s.holder.None?;
  }

  lemma RefreshEndKeeps(s: State, step: Step)
    requires Inv(s) && Enabled(s, step) && step.RefreshEnds?
    ensures Inv(Apply(s, step))
  {
  }

  lemma StepKeeps(s: State, step: Step)
    requires Inv(s) && Enabled(s, step)
    ensures Inv(Apply(s, step))
  {
    if step.Acquires? { AcquireKeeps(s, step); }
    else if step.ChildEnds? { ChildEndKeeps(s, step); }
    else if LoopStep(step) { LoopKeeps(s, step); }
    else if step.RefreshStarts? { RefreshStartKeeps(s, step); }
    else if step.RefreshEnds? { RefreshEndKeeps(s, step); }
    else if step.CancelsCaller? { CancelCallerKeeps(s, step); }
    else { CallKeeps(s, step); }
  }

  lemma ReachableHolds(s: State)
    requires Reachable(s)
    ensures Inv(s)
  {
    forall x, step | Inv(x) && Next(x, step).Some?
      ensures Inv(Next(x, step).value)
    {
      StepKeeps(x, step);
    }
    Runs.ReachableKeeps(Initial, Next, Inv, s);
  }

  // ----- Main results -----

  /** At most one connection loop is alive; it is self._task, and if the lock is
      held, its holder is waiting for it and has cancelled it. */
  lemma AtMostOneLoop(s: State, i: nat, k: nat)
    requires Reachable(s) && i < |s.loops| && k < |s.loops|
    requires s.loops[i].pc != Ended && s.loops[k].pc != Ended
    ensures i == k && s.task == Some(i)
    ensures s.holder.Some? ==>
              var h := s.holder.value;
              h < |s.calls| && s.calls[h].pc.Awaiting? && s.calls[h].pc.children != [] &&
              s.calls[h].pc.children[0] == LoopTask(i) && s.loops[i].cancelled
  {
    ReachableHolds(s);
  }

  /** The set-up child has always ended before the disconnect listeners run, before
      the next attempt and before its loop ends. */
  lemma SetupEndsFirst(s: State, i: nat)
    requires Reachable(s) && i < |s.loops| && s.loops[i].SetupRuns()
    ensures s.loops[i].pc == Reading || s.loops[i].pc == Leaving
    ensures s.loops[i].pc == Leaving ==> s.loops[i].setupCancelled
  {
    ReachableHolds(s);
  }

  /** When a stop has awaited its last task, or gives up because its own caller was
      cancelled, no loop is alive, and a refresh still running has been cancelled. */
  lemma StopLeavesNothing(s: State, c: nat)
    requires Reachable(s) && Enabled(s, ChildEnds(c))
    ensures forall i :: 0 <= i < |s.loops| ==> s.loops[i].pc == Ended
    ensures forall j :: 0 <= j < |s.refreshes| && !s.refreshes[j].ended ==> s.refreshes[j].cancelled
    ensures Apply(s, ChildEnds(c)).calls[c].pc == Cancelled <==> s.calls[c].cancels > s.calls[c].atEntry
  {
    ReachableHolds(s);
  }

  /** No stranded caller: whoever waits on an unset event waits on the current one,
      which a live loop is yet to set or the lock holder's stop will set. */
  lemma NoStrandedCaller(s: State, c: nat)
    requires Reachable(s) && c < |s.calls| && s.calls[c].pc.AwaitingAttempt?
    ensures s.calls[c].pc.event < |s.events|
    ensures !s.events[s.calls[c].pc.event] ==>
              s.calls[c].pc.event == s.attemptDone && (s.holder.Some? || FirstAttempt(s))
  {
    ReachableHolds(s);
  }

  /** How far a loop is from ending, or a first attempt from setting its event. */
  function Distance(l: Loop): nat {
    match l.pc
    case Connecting => 7
    case Reading => if l.setup == Fetching then 6 else if l.setup == Announcing || l.setup == Closing then 5 else 4
    case Leaving => if l.SetupRuns() then 3 else 2
    case Ended => 0
    case _ => 1
  }

  /** The step that carries a first attempt on when nothing else interferes. */
  function NextStep(s: State): Step
    requires s.loops != []
  {
    var i, l := |s.loops| - 1, s.loops[|s.loops| - 1];
    match l.pc
    case Connecting => Handshakes(i)
    case Reading => ReaderLeaves(i)
    case Leaving => if l.SetupRuns() then SetupUnwinds(i) else Leaves(i)
    case _ => Notified(i)
  }

  lemma NextStepEnabled(s: State)
    requires OneLoop(s) && FirstAttempt(s) && !s.loops[Last(s)].cancelled
    ensures Enabled(s, NextStep(s))
  {
  }

  lemma LoopStepNears(s: State, step: Step)
    requires OneLoop(s) && EventsFit(s) && FirstAttempt(s) && !s.loops[Last(s)].cancelled
    requires LoopStep(step) && Enabled(s, step)
    ensures var next := Apply(s, step);
            next.events[s.attemptDone] || Distance(next.loops[Last(s)]) < Distance(s.loops[Last(s)])
  {
    assert step.i == Last(s);
  }

  /** A waiting attempt always has a step to take, and every step of its loop sets
      the event or brings it closer; no loop step can strand it. */
  lemma AttemptMovesOn(s: State, step: Step)
    requires Reachable(s) && s.attemptDone > 0 && s.attemptDone < |s.events| && !s.events[s.attemptDone]
    requires s.holder.None?
    ensures s.loops != [] && Enabled(s, NextStep(s))
    ensures LoopStep(step) && Enabled(s, step) ==>
              var next := Apply(s, step);
              next.events[s.attemptDone] || Distance(next.loops[Last(s)]) < Distance(s.loops[Last(s)])
  {
    ReachableHolds(s);
    NextStepEnabled(s);
    if LoopStep(step) && Enabled(s, step) {
      LoopStepNears(s, step);
    }
  }

  /** How far a loop that lost its connection, or got none, is from the next attempt. */
  function Back(l: Loop): nat {
    match l.pc
    case Leaving => if l.SetupRuns() then 4 else 3
    case Notifying(_) => 2
    case Sleeping => 1
    case _ => 0
  }

  function BackStep(s: State): Step
    requires s.loops != []
  {
    if s.loops[|s.loops| - 1].pc == Sleeping then Wakes(|s.loops| - 1) else NextStep(s)
  }

  /** Unless its token was rejected or a stop is under way, a loop that lost its
      connection comes to its next attempt: it always has a step to take, and each of
      its steps brings the attempt nearer. */
  lemma TriesAgain(s: State, step: Step)
    requires Reachable(s) && s.holder.None? && Alive(s)
    requires Back(s.loops[Last(s)]) > 0 && s.loops[Last(s)].pc != Notifying(true)
    ensures LoopStep(BackStep(s)) && Enabled(s, BackStep(s))
    ensures LoopStep(step) && Enabled(s, step) ==>
              var l := Apply(s, step).loops[Last(s)];
              Back(l) < Back(s.loops[Last(s)]) && (Back(l) == 0 ==> l.pc == Connecting)
  {
    ReachableHolds(s);
    if LoopStep(step) && Enabled(s, step) {
      StepGoesBack(s, step);
    }
  }

  lemma StepGoesBack(s: State, step: Step)
    requires OneLoop(s) && Alive(s) && !s.loops[Last(s)].cancelled && LoopStep(step) && Enabled(s, step)
    requires Back(s.loops[Last(s)]) > 0 && s.loops[Last(s)].pc != Notifying(true)
    ensures var l := Apply(s, step).loops[Last(s)];
            Back(l) < Back(s.loops[Last(s)]) && (Back(l) == 0 ==> l.pc == Connecting)
  {
    assert step.i == Last(s);
  }

  /** With a server that answers, a caller's attempt gets through, and the caller
      returns to an established connection under the credentials it stored. */
  lemma CallerConnects(s: State, c: nat)
    requires Reachable(s) && s.holder.None? && Alive(s) && s.loops[Last(s)].pc == Connecting
    requires c < |s.calls| && s.calls[c].pc == AwaitingAttempt(s.attemptDone)
    ensures var i := |s.loops| - 1;
            var z := Runs.RunOf(Next, s, [Handshakes(i), SetupConnects(i), SetupFinishes(i), Resumes(c)]);
            && z.Some? && c < |z.value.calls|
            && z.value.connState == Connected && z.value.calls[c].pc == Returned
            && s.calls[c].kind == ApplyCredentials(z.value.url, z.value.token)
  {
    ReachableHolds(s);
    CredentialsInUse(s);
    assert s.starters[|s.loops| - 1] == c;
    AttemptRuns(s, c);
  }

  lemma AttemptRuns(s: State, c: nat)
    requires Inv(s) && s.holder.None? && Alive(s) && s.loops[Last(s)].pc == Connecting
    requires c < |s.calls| && s.calls[c].pc == AwaitingAttempt(s.attemptDone)
    ensures var i := |s.loops| - 1;
            var z := Runs.RunOf(Next, s, [Handshakes(i), SetupConnects(i), SetupFinishes(i), Resumes(c)]);
            && z.Some? && c < |z.value.calls|
            && z.value.connState == Connected && z.value.calls[c].pc == Returned
            && z.value.url == s.url && z.value.token == s.token
  {
    var i := |s.loops| - 1;
    var z := Apply(s, Handshakes(i));
    z := Apply(z, SetupConnects(i));
    z := Apply(z, SetupFinishes(i));
    z := Apply(z, Resumes(c));
    RunFour(s, Handshakes(i), SetupConnects(i), SetupFinishes(i), Resumes(c));
  }

  lemma RunFour(s: State, a: Step, b: Step, c: Step, d: Step)
    requires Enabled(s, a) && Enabled(Apply(s, a), b) && Enabled(Apply(Apply(s, a), b), c)
    requires Enabled(Apply(Apply(Apply(s, a), b), c), d)
    ensures Runs.RunOf(Next, s, [a, b, c, d]) == Some(Apply(Apply(Apply(Apply(s, a), b), c), d))
  {
    var x := Apply(s, a);
    var y := Apply(x, b);
    var z := Apply(y, c);
    var none: seq<Step> := [];
    assert [d][1..] == none && Runs.RunOf(Next, Apply(z, d), none) == Some(Apply(z, d));
    assert [c, d][1..] == [d] && Runs.RunOf(Next, z, [d]) == Some(Apply(z, d));
    assert [b, c, d][1..] == [c, d] && Runs.RunOf(Next, y, [c, d]) == Some(Apply(z, d));
    assert [a, b, c, d][1..] == [b, c, d] && Runs.RunOf(Next, x, [b, c, d]) == Some(Apply(z, d));
  }

  // ----- Whose credentials are in use -----

  /** The credentials in use are those of the last loop's starter, and whoever waits
      for a first attempt waits for the one it started. */
  predicate CredentialsFit(s: State) {
    && |s.starters| == |s.loops|
    && (forall i :: 0 <= i < |s.starters| ==>
          s.starters[i] < |s.calls| && s.calls[s.starters[i]].kind.ApplyCredentials?)
    && (if s.loops == [] then s.url == "" && s.token == ""
        else s.calls[s.starters[Last(s)]].kind == ApplyCredentials(s.url, s.token))
    && (forall c :: 0 <= c < |s.calls| && s.calls[c].pc.AwaitingAttempt? ==>
          0 < s.calls[c].pc.event <= |s.starters| && s.starters[s.calls[c].pc.event - 1] == c)
  }

  /** Nothing a step does beside starting a loop touches the credentials. */
  predicate SameLoops(s: State, next: State) {
    && |next.loops| == |s.loops| && next.starters == s.starters && next.url == s.url && next.token == s.token
    && |s.calls| <= |next.calls|
    && (forall c :: 0 <= c < |s.calls| ==> next.calls[c].kind == s.calls[c].kind)
    && (forall c :: 0 <= c < |next.calls| && next.calls[c].pc.AwaitingAttempt? ==>
          c < |s.calls| && next.calls[c].pc == s.calls[c].pc)
  }

  lemma SameLoopsKeeps(s: State, next: State)
    requires CredentialsFit(s) && SameLoops(s, next)
    ensures CredentialsFit(next)
  {
  }

  /** c starts a loop: its credentials are stored, and it waits for the loop's own event. */
  predicate LoopStarted(s: State, next: State, c: nat) {
    && c < |s.calls| == |next.calls| && |next.loops| == |s.loops| + 1 && next.starters == s.starters + [c]
    && next.loops == s.loops + [Loop(Connecting, false, Unstarted, false)] && next.task == Some(|s.loops|)
    && next.calls[c].kind == s.calls[c].kind == ApplyCredentials(next.url, next.token)
    && next.calls[c].pc == AwaitingAttempt(|s.events|) && next.attemptDone == |s.events|
    && next.connState == Disconnected && next.holder.None?
    && forall d :: 0 <= d < |s.calls| && d != c ==> next.calls[d] == s.calls[d]
  }

  lemma LoopStartedKeeps(s: State, next: State, c: nat)
    requires CredentialsFit(s) && LoopStarted(s, next, c) && |s.events| == |s.loops| + 1
    ensures CredentialsFit(next)
  {
  }

  lemma FinishStarts(s: State, c: nat, raised: bool)
    requires c < |s.calls|
    ensures if s.calls[c].kind.ApplyCredentials? && !raised then LoopStarted(s, Finish(s, c, raised), c)
            else SameLoops(s, Finish(s, c, raised))
  {
  }

  lemma CallerStepStarts(s: State, step: Step)
    requires Enabled(s, step) && (step.Acquires? || step.ChildEnds?)
    ensures SameLoops(s, Apply(s, step)) || LoopStarted(s, Apply(s, step), step.c)
  {
    match step
    case Acquires(c) =>
      FinishStarts(Entered(s, c), c, false);
    case ChildEnds(c) =>
      FinishStarts(s, c, true);
      FinishStarts(s, c, false);
  }

  lemma OtherStepsStartNone(s: State, step: Step)
    requires Enabled(s, step) && !step.Acquires? && !step.ChildEnds?
    ensures SameLoops(s, Apply(s, step))
  {
  }

  ghost predicate CredentialsInv(s: State) {
    Inv(s) && CredentialsFit(s)
  }

  lemma CredentialsKeep(s: State, step: Step)
    requires CredentialsInv(s) && Enabled(s, step)
    ensures CredentialsInv(Apply(s, step))
  {
    StepKeeps(s, step);
    if step.Acquires? || step.ChildEnds? {
      CallerStepStarts(s, step);
      if LoopStarted(s, Apply(s, step), step.c) {
        LoopStartedKeeps(s, Apply(s, step), step.c);
      } else {
        SameLoopsKeeps(s, Apply(s, step));
      }
    } else {
      OtherStepsStartNone(s, step);
      SameLoopsKeeps(s, Apply(s, step));
    }
  }

  lemma ReachableCredentials(s: State)
    requires Reachable(s)
    ensures CredentialsInv(s)
  {
    forall x, step | CredentialsInv(x) && Next(x, step).Some?
      ensures CredentialsInv(Next(x, step).value)
    {
      CredentialsKeep(x, step);
    }
    assert forall x :: Initial(x) ==> CredentialsInv(x);
    Runs.ReachableKeeps(Initial, Next, CredentialsInv, s);
  }

  /** The credentials in use are exactly those of the call that started the last loop,
      alive or not, and every waiting call waits for the event of its own loop. */
  lemma CredentialsInUse(s: State)
    requires Reachable(s)
    ensures |s.starters| == |s.loops|
    ensures s.loops != [] ==>
              var c := s.starters[|s.loops| - 1];
              c < |s.calls| && s.calls[c].kind == ApplyCredentials(s.url, s.token)
    ensures forall c :: 0 <= c < |s.calls| && s.calls[c].pc.AwaitingAttempt? ==>
              0 < s.calls[c].pc.event <= |s.starters| && s.starters[s.calls[c].pc.event - 1] == c
  {
    ReachableCredentials(s);
  }

  /** A caller that comes to wait for an attempt has just stored its own credentials
      and started a loop, and nothing else changes the credentials. */
  lemma SwapStores(s: State, step: Step, c: nat)
    requires Enabled(s, step) && c < |s.calls|
    ensures var next := Apply(s, step);
            next.calls[c].pc.AwaitingAttempt? && !s.calls[c].pc.AwaitingAttempt? ==>
              && s.calls[c].kind == ApplyCredentials(next.url, next.token)
              && next.loops == s.loops + [Loop(Connecting, false, Unstarted, false)]
              && next.task == Some(|s.loops|) && next.starters == s.starters + [c]
    ensures var next := Apply(s, step);
            next.url != s.url || next.token != s.token ==>
              && (step.Acquires? || step.ChildEnds?) && step.c < |s.calls|
              && s.calls[step.c].kind == ApplyCredentials(next.url, next.token)
              && next.calls[step.c].pc.AwaitingAttempt?
  {
    if step.Acquires? || step.ChildEnds? {
      CallerStepStarts(s, step);
    } else {
      OtherStepsStartNone(s, step);
    }
  }

  /** Nothing but the caller's own place is different. */
  predicate OnlyReturns(s: State, next: State, c: nat)
    requires c < |s.calls|
  {
    next == s.(calls := s.calls[c := s.calls[c].(pc := Returned)])
  }

  /** Every task that was alive is cancelled and awaited, the lock is held, and the
      credentials are still the old ones. */
  predicate StopsAll(s: State, next: State, c: nat)
    requires c < |s.calls| && Inv(s)
  {
    && |next.calls| == |s.calls| && next.holder == Some(c)
    && next.calls[c].pc.Awaiting? && next.calls[c].atEntry == next.calls[c].cancels == s.calls[c].cancels
    && |next.loops| == |s.loops| && next.url == s.url && next.token == s.token && next.connState == s.connState
    && (Alive(s) ==> next.loops[Last(s)].cancelled && LoopTask(Last(s)) in next.calls[c].pc.children)
    && (RefreshAlive(s, s.refreshTask) ==>
          && |next.refreshes| == |s.refreshes| && next.refreshes[s.refreshTask.value].cancelled
          && RefreshTask(s.refreshTask.value) in next.calls[c].pc.children)
    && (forall child :: child in next.calls[c].pc.children ==>
          (Alive(s) && child == LoopTask(Last(s))) ||
          (RefreshAlive(s, s.refreshTask) && child == RefreshTask(s.refreshTask.value)))
  }

  /** What a caller does with the lock. Credentials already in use on an established
      connection change nothing; any others stop what is alive, or at once replace
      the old ones and start a loop. */
  lemma AcquireDecides(s: State, c: nat, url: string, token: string)
    requires Reachable(s) && Enabled(s, Acquires(c)) && s.calls[c].kind == ApplyCredentials(url, token)
    ensures Inv(s)
    ensures var next := Apply(s, Acquires(c));
            && (next.calls[c].pc == Returned <==> url == s.url && token == s.token && s.connState == Connected)
            && (next.calls[c].pc == Returned ==> OnlyReturns(s, next, c))
            && (next.calls[c].pc != Returned ==>
                  if Alive(s) || RefreshAlive(s, s.refreshTask) then StopsAll(s, next, c)
                  else LoopStarted(s, next, c) && next.url == url && next.token == token)
  {
    ReachableHolds(s);
    FinishStarts(Entered(s, c), c, false);
  }

  /** stop() with the lock: the same stop, and nothing is started behind it. */
  lemma StopDecides(s: State, c: nat)
    requires Reachable(s) && Enabled(s, Acquires(c)) && s.calls[c].kind == Stop
    ensures Inv(s)
    ensures var next := Apply(s, Acquires(c));
            if Alive(s) || RefreshAlive(s, s.refreshTask) then StopsAll(s, next, c)
            else next.calls[c].pc == Returned && SameLoops(s, next) && next.connState == Disconnected &&
                 next.holder.None? && next.task.None? && next.refreshTask.None?
  {
    ReachableHolds(s);
    FinishStarts(Entered(s, c), c, false);
  }

  predicate CountsFit(s: State) {
    forall c :: 0 <= c < |s.calls| ==> s.calls[c].atEntry <= s.calls[c].cancels
  }

  lemma LockLeavesOthers(s: State, step: Step, c: nat)
    requires Enabled(s, step) && (step.Acquires? || step.ChildEnds?) && c < |s.calls| && c != step.c
    ensures c < |Apply(s, step).calls| && Apply(s, step).calls[c] == s.calls[c]
  {
  }

  lemma StepCounts(s: State, step: Step)
    requires CountsFit(s) && Enabled(s, step)
    ensures CountsFit(Apply(s, step))
  {
    if LoopStep(step) || step.RefreshStarts? || step.RefreshEnds? {
      assert Apply(s, step).calls == s.calls;
    } else if step.Acquires? || step.ChildEnds? {
      forall c | 0 <= c < |s.calls| && c != step.c
        ensures c < |Apply(s, step).calls| && Apply(s, step).calls[c] == s.calls[c]
      {
        LockLeavesOthers(s, step, c);
      }
    }
  }

  lemma ReachableCounts(s: State)
    requires Reachable(s)
    ensures CountsFit(s)
  {
    forall x, step | CountsFit(x) && Next(x, step).Some?
      ensures CountsFit(Next(x, step).value)
    {
      StepCounts(x, step);
    }
    Runs.ReachableKeeps(Initial, Next, CountsFit, s);
  }

  /** Only its own steps move a caller. */
  lemma OthersLeaveCall(s: State, step: Step, c: nat)
    requires Enabled(s, step) && c < |s.calls| && s.calls[c].pc.Awaiting?
    requires step != CancelsCaller(c) && step != ChildEnds(c)
    ensures c < |Apply(s, step).calls| && Apply(s, step).calls[c] == s.calls[c]
  {
    if step.Acquires? || step.ChildEnds? {
      LockLeavesOthers(s, step, c);
    } else if LoopStep(step) {
      assert Apply(s, step).calls == s.calls;
    }
  }

  /** A cancellation aimed at a caller during its stop is never lost: it stays counted
      until the awaited task has ended, and the caller then gives up without starting
      a loop or storing its credentials. */
  lemma CancelledCallerGivesUp(s: State, step: Step, c: nat)
    requires Reachable(s) && Enabled(s, step) && c < |s.calls| && s.calls[c].pc.Awaiting?
    ensures var call, next := s.calls[c], Apply(s, step);
            && c < |next.calls|
            && (step == CancelsCaller(c) ==>
                  next.calls[c] == call.(cancels := call.cancels + 1) && next.calls[c].cancels > call.atEntry)
            && (call.cancels > call.atEntry && step != ChildEnds(c) ==>
                  next.calls[c].pc == call.pc && next.calls[c].cancels > next.calls[c].atEntry)
            && (call.cancels > call.atEntry && step == ChildEnds(c) ==>
                  next.calls[c].pc == Cancelled && SameLoops(s, next) && next.holder.None?)
  {
    ReachableCounts(s);
    if step == ChildEnds(c) {
      FinishStarts(s, c, true);
    } else if step != CancelsCaller(c) {
      OthersLeaveCall(s, step, c);
    }
  }

  // ----- What conn_state says -----

  /** With no stop in progress: conn_state by where the loop is. */
  predicate ConnStateTells(s: State) {
    s.holder.None? ==>
      if !Alive(s) then s.connState == Disconnected || s.connState == AuthFailed
      else match s.loops[Last(s)].pc
        case Notifying(rejected) => s.connState == if rejected then AuthFailed else Unreachable
        case Sleeping => s.connState == Unreachable
        case _ => s.connState != AuthFailed
  }

  ghost predicate TellingInv(s: State) {
    Inv(s) && ConnStateTells(s)
  }

  lemma LoopStepTells(s: State, step: Step)
    requires Inv(s) && ConnStateTells(s) && Enabled(s, step) && LoopStep(step)
    ensures ConnStateTells(Apply(s, step))
  {
    assert step.i == Last(s);
  }

  /** A caller's step leaves everything alone, holds the lock or leaves it behind with
      conn_state reset. */
  lemma CallerStepTells(s: State, step: Step)
    requires Inv(s) && ConnStateTells(s) && Enabled(s, step) && !LoopStep(step)
    ensures ConnStateTells(Apply(s, step))
  {
    if step.ChildEnds? {
      assert !Alive(s);
    }
  }

  lemma StepTells(s: State, step: Step)
    requires Inv(s) && ConnStateTells(s) && Enabled(s, step)
    ensures ConnStateTells(Apply(s, step))
  {
    if LoopStep(step) {
      LoopStepTells(s, step);
    } else {
      CallerStepTells(s, step);
    }
  }

  lemma ReachableTells(s: State)
    requires Reachable(s)
    ensures Inv(s) && ConnStateTells(s)
  {
    forall x, step | TellingInv(x) && Next(x, step).Some?
      ensures TellingInv(Next(x, step).value)
    {
      StepTells(x, step);
      StepKeeps(x, step);
    }
    Runs.ReachableKeeps(Initial, Next, TellingInv, s);
  }

  /** With no stop in progress: auth_failed reads exactly from the rejection of a token
      until new credentials come, and no attempt is made meanwhile; unreachable is
      read only while a loop is alive to try again; connected only while a set-up has
      got through and its loop has not reported the drop. */
  lemma ConnStateSays(s: State)
    requires Reachable(s) && s.holder.None?
    ensures s.connState == AuthFailed ==>
              && forall i :: 0 <= i < |s.loops| ==> s.loops[i].pc == Ended || s.loops[i].pc == Notifying(true)
    ensures forall i :: 0 <= i < |s.loops| && s.loops[i].pc == Notifying(true) ==> s.connState == AuthFailed
    ensures s.connState == Unreachable ==> Alive(s)
    ensures s.connState == Connected ==>
              Alive(s) && (Announced(s.loops[Last(s)]) || s.loops[Last(s)].pc == Leaving)
    ensures forall i :: 0 <= i < |s.loops| && Announced(s.loops[i]) ==> s.connState == Connected
  {
    ReachableTells(s);
  }

  // ----- A stop comes to its end -----

  function ChildLeft(s: State, child: Child): nat {
    match child
    case LoopTask(i) => if i < |s.loops| then Distance(s.loops[i]) else 0
    case RefreshTask(j) => if j < |s.refreshes| && !s.refreshes[j].ended then 1 else 0
  }

  function ChildrenLeft(s: State, children: seq<Child>): nat {
    if children == [] then 0 else 1 + ChildLeft(s, children[0]) + ChildrenLeft(s, children[1..])
  }

  /** How far the lock holder's stop is from its end. */
  function StopLeft(s: State): nat {
    if s.holder.Some? && s.holder.value < |s.calls| && s.calls[s.holder.value].pc.Awaiting?
    then ChildrenLeft(s, s.calls[s.holder.value].pc.children)
    else 0
  }

  lemma {:induction false} ChildrenFollow(s: State, next: State, children: seq<Child>)
    requires forall k :: 0 <= k < |children| ==> ChildLeft(next, children[k]) <= ChildLeft(s, children[k])
    ensures ChildrenLeft(next, children) <= ChildrenLeft(s, children)
    ensures (exists k :: 0 <= k < |children| && ChildLeft(next, children[k]) < ChildLeft(s, children[k])) ==>
              ChildrenLeft(next, children) < ChildrenLeft(s, children)
    decreases |children|
  {
    if children != [] {
      forall k | 0 <= k < |children[1..]|
        ensures children[1..][k] == children[k + 1]
        ensures ChildLeft(next, children[1..][k]) <= ChildLeft(s, children[1..][k])
      {
      }
      ChildrenFollow(s, next, children[1..]);
      if k :| 0 <= k < |children| && ChildLeft(next, children[k]) < ChildLeft(s, children[k]) {
        assert k > 0 ==> children[1..][k - 1] == children[k];
      }
    }
  }

  /** The step that carries the holder's stop on. */
  function NextStopStep(s: State): Step
    requires OneLoop(s) && LockFits(s) && s.holder.Some?
  {
    var h := s.holder.value;
    match s.calls[h].pc.children[0]
    case LoopTask(i) =>
      if !Alive(s) then ChildEnds(h)
      else (match s.loops[Last(s)].pc
            case Reading => ReaderLeaves(i)
            case Leaving => if s.loops[Last(s)].SetupRuns() then SetupUnwinds(i) else Leaves(i)
            case _ => CancelReaches(i))
    case RefreshTask(j) => if ChildEnded(s, RefreshTask(j)) then ChildEnds(h) else RefreshEnds(j)
  }

  /** A step of the holder or of a task it awaits. */
  predicate StopStep(s: State, step: Step) {
    s.holder.Some? && s.holder.value < |s.calls| && s.calls[s.holder.value].pc.Awaiting? &&
    (step == ChildEnds(s.holder.value) || LoopStep(step) ||
     (step.RefreshEnds? && RefreshTask(step.j) in s.calls[s.holder.value].pc.children))
  }

  lemma NextStopStepEnabled(s: State)
    requires OneLoop(s) && LockFits(s) && s.holder.Some?
    ensures Enabled(s, NextStopStep(s)) && StopStep(s, NextStopStep(s))
  {
  }

  /** A cancelled loop only comes nearer its end. */
  lemma LoopStepEnds(s: State, step: Step)
    requires OneLoop(s) && LockFits(s) && s.holder.Some? && LoopStep(step) && Enabled(s, step)
    ensures var next := Apply(s, step);
            && next.holder == s.holder && next.calls == s.calls && next.refreshes == s.refreshes
            && Distance(next.loops[Last(s)]) < Distance(s.loops[Last(s)])
            && (forall child :: ChildLeft(next, child) <= ChildLeft(s, child))
    ensures s.calls[s.holder.value].pc.children[0] == LoopTask(Last(s))
  {
    assert step.i == Last(s);
  }

  lemma HolderEnds(s: State, c: nat)
    requires LockFits(s) && Enabled(s, ChildEnds(c))
    ensures var next := Apply(s, ChildEnds(c));
            next.holder.None? || (next.holder == s.holder && StopLeft(next) < StopLeft(s))
  {
    var children, next := s.calls[c].pc.children, Apply(s, ChildEnds(c));
    if next.holder.Some? {
      ChildrenFollow(s, next, children[1..]);
    }
  }

  lemma RefreshEndsNears(s: State, j: nat)
    requires LockFits(s) && Enabled(s, RefreshEnds(j)) && s.holder.Some?
    ensures var next := Apply(s, RefreshEnds(j));
            && next.holder == s.holder && StopLeft(next) <= StopLeft(s)
            && (StopStep(s, RefreshEnds(j)) ==> StopLeft(next) < StopLeft(s))
  {
    var children := s.calls[s.holder.value].pc.children;
    ChildrenFollow(s, Apply(s, RefreshEnds(j)), children);
    if k :| 0 <= k < |children| && children[k] == RefreshTask(j) {
      assert ChildLeft(Apply(s, RefreshEnds(j)), children[k]) < ChildLeft(s, children[k]);
    }
  }

  lemma OthersLeaveStop(s: State, step: Step)
    requires OneLoop(s) && LockFits(s) && s.holder.Some? && Enabled(s, step)
    requires step.Calls? || step.Resumes? || step.CancelsCaller?
    ensures Apply(s, step).holder == s.holder && StopLeft(Apply(s, step)) == StopLeft(s)
  {
    var h, next := s.holder.value, Apply(s, step);
    var children := s.calls[h].pc.children;
    assert next.calls[h].pc == s.calls[h].pc;
    assert forall child :: ChildLeft(next, child) == ChildLeft(s, child);
    ChildrenFollow(s, next, children);
    ChildrenFollow(next, s, children);
  }

  /** Whoever holds the lock gets on: its stop always has a step to take, every step
      of the holder or of a task it awaits ends the stop or brings it nearer, and
      no other step puts it off. */
  lemma StopMovesOn(s: State, step: Step)
    requires Reachable(s) && s.holder.Some?
    ensures OneLoop(s) && LockFits(s) && Enabled(s, NextStopStep(s)) && StopStep(s, NextStopStep(s))
    ensures Enabled(s, step) ==>
              var next := Apply(s, step);
              && (next.holder.None? || (next.holder == s.holder && StopLeft(next) <= StopLeft(s)))
              && (StopStep(s, step) ==> next.holder.None? || StopLeft(next) < StopLeft(s))
  {
    ReachableHolds(s);
    NextStopStepEnabled(s);
    if Enabled(s, step) {
      StopFollows(s, step);
    }
  }

  lemma NoRefreshStarts(s: State)
    requires OneLoop(s) && LockFits(s) && s.holder.Some?
    ensures forall i :: !Enabled(s, RefreshStarts(i))
  {
  }

  lemma StopFollows(s: State, step: Step)
    requires OneLoop(s) && LockFits(s) && s.holder.Some? && Enabled(s, step)
    ensures var next := Apply(s, step);
            && (next.holder.None? || (next.holder == s.holder && StopLeft(next) <= StopLeft(s)))
            && (StopStep(s, step) ==> next.holder.None? || StopLeft(next) < StopLeft(s))
  {
    NoRefreshStarts(s);
    if LoopStep(step) {
      LoopStepEnds(s, step);
      ChildrenFollow(s, Apply(s, step), s.calls[s.holder.value].pc.children);
    } else if step.ChildEnds? {
      HolderEnds(s, step.c);
    } else if step.RefreshEnds? {
      RefreshEndsNears(s, step.j);
    } else {
      OthersLeaveStop(s, step);
    }
  }

  // ----- The tree of tasks moves through Replication's phases -----

  predicate WillReconnect(s: State) {
    Alive(s) && s.loops[Last(s)].pc != Notifying(true)
  }

  function PhaseOf(s: State): R.Phase {
    if s.holder.Some? then R.Stopping
    else if !Alive(s) then R.Down
    else match s.loops[Last(s)].pc
      case Reading => if Announced(s.loops[Last(s)]) then R.Live else R.SetUp
      case Leaving => R.Dropping
      case _ => R.Down
  }

  predicate Matches(s: State, w: R.World) {
    && w.phase == PhaseOf(s)
    && w.replica.connState == s.connState
    && (w.phase != R.Stopping ==> w.loop == WillReconnect(s))
  }

  predicate Restarts(s: State, c: nat, raised: bool) {
    c < |s.calls| && s.calls[c].kind.ApplyCredentials? && !raised
  }

  /** The replication steps that a step of the tree of tasks is. */
  function StepsOf(s: State, step: Step, live: R.Step): seq<R.Step>
    requires Enabled(s, step)
  {
    match step
    case Acquires(c) =>
      if AlreadyConnected(s, c) then []
      else if ToStop(s) == [] then [R.StopBegins, R.StopEnds(Restarts(s, c, false), false)]
      else [R.StopBegins]
    case ChildEnds(c) =>
      var raised := s.calls[c].cancels > s.calls[c].atEntry;
      if !raised && |s.calls[c].pc.children| > 1 then [] else [R.StopEnds(Restarts(s, c, raised), raised)]
    case Handshakes(_) => [R.Connects]
    case AttemptFails(_, rejected) => [R.AttemptFails(rejected)]
    case SetupConnects(_) => [live]
    case ReaderLeaves(_) => if s.holder.Some? then [] else [R.SocketCloses]
    case Leaves(i) => if s.loops[i].cancelled then [] else [R.ReportsDrop]
    case _ => []
  }

  /** What the mapped replication steps do to phase, loop and conn_state. */
  lemma ReplicationMove(w: R.World, t: R.Step)
    requires R.Enabled(w, t)
    ensures var z := R.Apply(w, t);
            match t
            case Connects => z.phase == R.SetUp && z.loop == w.loop && z.replica.connState == w.replica.connState
            case AttemptFails(rejected) =>
              z.phase == w.phase == R.Down && z.loop == !rejected &&
              z.replica.connState == if rejected then AuthFailed else Unreachable
            case GoesLive(_, _) =>
              z.phase == (if w.phase == R.SetUp then R.Live else w.phase) && z.loop == w.loop &&
              z.replica.connState == Connected
            case SocketCloses => z.phase == R.Dropping && z.loop == w.loop && z.replica.connState == w.replica.connState
            case ReportsDrop => z.phase == R.Down && z.loop == w.loop && z.replica.connState == Unreachable
            case StopBegins => z.phase == R.Stopping && z.loop == w.loop && z.replica.connState == w.replica.connState
            case StopEnds(restarts, _) => z.phase == R.Down && z.loop == restarts && z.replica.connState == Disconnected
            case _ => true
  {
  }

  /** What a replication step still waits for when the tree of tasks takes it:
      replies and the writes of awaited tasks. */
  predicate Ready(w: R.World, t: R.Step) {
    if t.GoesLive? then w.fetch == R.Received else R.DataAllows(w, t)
  }

  /** Likewise for none, one or two of them. */
  predicate AllReady(w: R.World, steps: seq<R.Step>) {
    && (|steps| == 1 ==> Ready(w, steps[0]))
    && (|steps| == 2 ==> Ready(w.(phase := R.Stopping, away := None), steps[1]))
  }

  /** What a step of the loop that moves Replication does to phase and loop. */
  lemma PhaseAfterMove(s: State, step: Step)
    requires OneLoop(s) && LockFits(s) && Enabled(s, step) && LoopStep(step)
    ensures var next := Apply(s, step);
            match step
            case Handshakes(_) => s.holder.None? ==> PhaseOf(next) == R.SetUp && WillReconnect(next) == WillReconnect(s)
            case AttemptFails(_, rejected) => s.holder.None? ==>
                PhaseOf(next) == R.Down && WillReconnect(next) == !rejected
            case SetupConnects(_) => s.holder.None? ==>
                PhaseOf(s) == R.SetUp && PhaseOf(next) == R.Live && WillReconnect(next) == WillReconnect(s)
            case ReaderLeaves(_) => s.holder.None? ==>
                PhaseOf(next) == R.Dropping && WillReconnect(next) == WillReconnect(s)
            case Leaves(_) => !s.loops[step.i].cancelled ==>
                PhaseOf(next) == R.Down && WillReconnect(next) == WillReconnect(s)
            case _ => s.holder.None? ==> PhaseOf(next) == PhaseOf(s) && WillReconnect(next) == WillReconnect(s)
  {
    assert step.i == Last(s);
  }

  /** The phase lets the loop take its step. */
  lemma LoopStepAllowed(s: State, step: Step, w: R.World, live: R.Step)
    requires Inv(s) && Enabled(s, step) && Matches(s, w) && live.GoesLive? && LoopStep(step)
    ensures var steps := StepsOf(s, step, live);
            |steps| <= 1 && (|steps| == 1 ==> R.PhaseAllows(w.phase, w.loop, steps[0]))
    ensures step.SetupConnects? ==> w.replica.connState != Connected
  {
    assert step.i == Last(s);
  }

  lemma LoopStepMatches(s: State, step: Step, w: R.World, live: R.Step)
    requires Inv(s) && Enabled(s, step) && Matches(s, w) && live.GoesLive? && LoopStep(step)
    requires AllReady(w, StepsOf(s, step, live))
    ensures var z := R.Run(w, StepsOf(s, step, live)); z.Some? && Matches(Apply(s, step), z.value)
  {
    LoopStepAllowed(s, step, w, live);
    PhaseAfterMove(s, step);
    var steps := StepsOf(s, step, live);
    if steps != [] {
      assert steps == [steps[0]];
      R.RunOne(w, steps[0]);
      ReplicationMove(w, steps[0]);
    }
  }

  lemma FinishMatches(s: State, c: nat, raised: bool, w: R.World)
    requires c < |s.calls| && !Alive(s)
    requires w.phase == R.Down && w.loop == Restarts(s, c, raised) && w.replica.connState == Disconnected
    ensures Matches(Finish(s, c, raised), w)
  {
  }

  lemma ChildEndMatches(s: State, step: Step, w: R.World, live: R.Step)
    requires Inv(s) && Enabled(s, step) && Matches(s, w) && step.ChildEnds?
    requires AllReady(w, StepsOf(s, step, live))
    ensures var z := R.Run(w, StepsOf(s, step, live)); z.Some? && Matches(Apply(s, step), z.value)
  {
    var steps, call := StepsOf(s, step, live), s.calls[step.c];
    if steps != [] {
      assert steps == [steps[0]];
      R.RunOne(w, steps[0]);
      ReplicationMove(w, steps[0]);
      FinishMatches(s, step.c, call.cancels > call.atEntry, R.Apply(w, steps[0]));
    }
  }

  lemma CancelTasksMatches(s: State, c: nat, w: R.World)
    requires c < |s.calls| && w.phase == R.Stopping && w.replica.connState == s.connState
    ensures Matches(WithPc(CancelTasks(s), c, Awaiting(ToStop(s))).(holder := Some(c)), w)
  {
  }

  /** A stop with nothing to wait for. */
  lemma StopAtOnceMatches(s: State, c: nat, w: R.World)
    requires c < |s.calls| && !Alive(s) && w.phase != R.Stopping
    requires AllReady(w, [R.StopBegins, R.StopEnds(Restarts(s, c, false), false)])
    ensures var z := R.Run(w, [R.StopBegins, R.StopEnds(Restarts(s, c, false), false)]);
            z.Some? && Matches(Finish(s, c, false), z.value)
  {
    var t, u := R.StopBegins, R.StopEnds(Restarts(s, c, false), false);
    assert R.Enabled(w, t) && R.Apply(w, t) == w.(phase := R.Stopping, away := None);
    R.RunTwo(w, t, u);
    ReplicationMove(R.Apply(w, t), u);
    FinishMatches(s, c, false, R.Apply(R.Apply(w, t), u));
  }

  lemma StopAwaitsMatches(s: State, c: nat, w: R.World)
    requires c < |s.calls| && w.replica.connState == s.connState && w.phase != R.Stopping
    ensures var z := R.Run(w, [R.StopBegins]);
            z.Some? && Matches(WithPc(CancelTasks(s), c, Awaiting(ToStop(s))).(holder := Some(c)), z.value)
  {
    R.RunOne(w, R.StopBegins);
    ReplicationMove(w, R.StopBegins);
    CancelTasksMatches(s, c, R.Apply(w, R.StopBegins));
  }

  lemma AcquireMatches(s: State, step: Step, w: R.World, live: R.Step)
    requires OneLoop(s) && Enabled(s, step) && Matches(s, w) && step.Acquires?
    requires AllReady(w, StepsOf(s, step, live))
    ensures var z := R.Run(w, StepsOf(s, step, live)); z.Some? && Matches(Apply(s, step), z.value)
  {
    var c := step.c;
    if AlreadyConnected(s, c) {
      CallerAsideMatches(s, c, w);
    } else if ToStop(s) == [] {
      StopAtOnceMatches(Entered(s, c), c, w);
    } else {
      assert ToStop(Entered(s, c)) == ToStop(s);
      StopAwaitsMatches(Entered(s, c), c, w);
    }
  }

  lemma CallerAsideMatches(s: State, c: nat, w: R.World)
    requires c < |s.calls| && Matches(s, w)
    ensures Matches(WithPc(s, c, Returned), w) && R.Run(w, []) == Some(w)
  {
  }

  lemma OtherStepMatches(s: State, step: Step, w: R.World)
    requires Inv(s) && Enabled(s, step) && Matches(s, w)
    requires step.Calls? || step.Resumes? || step.CancelsCaller? || step.RefreshStarts? || step.RefreshEnds?
    ensures Matches(Apply(s, step), w)
  {
  }

  /** Every step of the tree of tasks is none, one or two steps of Replication: once
      the replies and writes they wait for are in, they are enabled, and they end
      in the same phase with the same conn_state. The phases assumed there are
      those of the tree of tasks. */
  lemma TaskTreeIsReplicationsPhases(s: State, step: Step, w: R.World, live: R.Step)
    requires Reachable(s) && Enabled(s, step) && Matches(s, w) && live.GoesLive?
    requires AllReady(w, StepsOf(s, step, live))
    ensures var z := R.Run(w, StepsOf(s, step, live)); z.Some? && Matches(Apply(s, step), z.value)
  {
    ReachableHolds(s);
    if LoopStep(step) {
      LoopStepMatches(s, step, w, live);
    } else if step.Acquires? {
      AcquireMatches(s, step, w, live);
    } else if step.ChildEnds? {
      ChildEndMatches(s, step, w, live);
    } else {
      OtherStepMatches(s, step, w);
    }
  }
}
