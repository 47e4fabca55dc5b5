/** Lifecycle's runs as Replication's: the tree of tasks and the data move side by
    side, and every run of the tree is the phase history of a run of Replication. */
module Simulation {
  import opened Basics
  import Runs
  import M = Mirror
  import V = LiveState
  import L = Lifecycle
  import R = Replication

  datatype Pair = Pair(s: L.State, w: R.World)

  predicate Initial(p: Pair) {
    L.Initial(p.s) && R.Initial(p.w)
  }

  /** A step of the tree of tasks, with what set-up fetched where it goes live, or a
      step of the data: frames, registrations, writes. */
  datatype Move = Tree(step: L.Step, live: R.Step) | Data(t: R.Step)

  predicate DataStep(t: R.Step) {
    t.HaChanges? || t.HaAnswers? || t.Subscribes? || t.AsksStates? || t.Abandons? || t.Delivers? ||
    t.Heals? || t.RebuildsRooms? || t.Lands? || t.Fails? || t.Unwinds?
  }

  /** The tree may step once the replies and awaited writes it waits for are in. */
  predicate MayMove(p: Pair, step: L.Step, live: R.Step) {
    L.Enabled(p.s, step) && live.GoesLive? && L.AllReady(p.w, L.StepsOf(p.s, step, live))
  }

  function Next(p: Pair, move: Move): Option<Pair> {
    match move
    case Tree(step, live) =>
      if MayMove(p, step, live) then
        var z := R.Run(p.w, L.StepsOf(p.s, step, live));
        if z.Some? then Some(Pair(L.Apply(p.s, step), z.value)) else None
      else None
    case Data(t) => if DataStep(t) && R.Enabled(p.w, t) then Some(Pair(p.s, R.Apply(p.w, t))) else None
  }

  ghost predicate Reachable(p: Pair) {
    Runs.Reachable(Initial, Next, p)
  }

  // ----- Side by side they stay matched -----

  ghost predicate Inv(p: Pair) {
    L.Reachable(p.s) && R.Reachable(p.w) && L.Matches(p.s, p.w)
  }

  /** The data leave phase, loop and conn_state alone. */
  lemma DataStays(w: R.World, t: R.Step)
    requires R.Enabled(w, t) && DataStep(t)
    ensures var z := R.Apply(w, t);
            z.phase == w.phase && z.loop == w.loop && z.replica.connState == w.replica.connState
  {
  }

  lemma DataKeeps(p: Pair, t: R.Step)
    requires Inv(p) && Next(p, Data(t)).Some?
    ensures Inv(Next(p, Data(t)).value)
  {
    DataStays(p.w, t);
    var _ := Runs.Reach(R.Initial, R.Next, p.w, t);
  }

  lemma TreeKeeps(p: Pair, step: L.Step, live: R.Step)
    requires Inv(p) && MayMove(p, step, live)
    ensures Next(p, Tree(step, live)).Some? && Inv(Next(p, Tree(step, live)).value)
  {
    L.TaskTreeIsReplicationsPhases(p.s, step, p.w, live);
    var _ := Runs.Reach(L.Initial, L.Next, p.s, step);
    Runs.RunsOn(R.Initial, R.Next, p.w, L.StepsOf(p.s, step, live));
  }

  lemma InitialHolds(p: Pair)
    requires Initial(p)
    ensures Inv(p)
  {
    Runs.StartReachable(L.Initial, L.Next, p.s);
    Runs.StartReachable(R.Initial, R.Next, p.w);
  }

  lemma ReachableHolds(p: Pair)
    requires Reachable(p)
    ensures Inv(p)
  {
    forall x | Initial(x)
      ensures Inv(x)
    {
      InitialHolds(x);
    }
    forall x, move | Inv(x) && Next(x, move).Some?
      ensures Inv(Next(x, move).value)
    {
      match move
      case Tree(step, live) => TreeKeeps(x, step, live);
      case Data(t) => DataKeeps(x, t);
    }
    Runs.ReachableKeeps(Initial, Next, Inv, p);
  }

  // ----- Every run of the tree can be accompanied -----

  predicate SettingUp(s: L.State) {
    L.Alive(s) && s.loops[L.Last(s)].pc == L.Reading && s.loops[L.Last(s)].setup == L.Fetching
  }

  /** The data have caught up: nothing is pending or undelivered, and a set-up in its
      fetch already has its states. */
  predicate CaughtUp(p: Pair) {
    && p.w.Queue() == [] && p.w.reader == R.Idle && p.w.frames == []
    && (SettingUp(p.s) ==> p.w.fetch == R.Received)
  }

  ghost predicate On(p: Pair) {
    Reachable(p) && Inv(p)
  }

  lemma Moves(p: Pair, move: Move) returns (z: Pair)
    requires On(p) && Next(p, move).Some?
    ensures On(z) && z == Next(p, move).value
  {
    z := Runs.Reach(Initial, Next, p, move);
    ReachableHolds(z);
  }

  lemma DataMoves(p: Pair, t: R.Step) returns (z: Pair)
    requires On(p) && DataStep(t) && R.Enabled(p.w, t)
    ensures On(z) && z == Pair(p.s, R.Apply(p.w, t))
  {
    z := Moves(p, Data(t));
  }

  /** A connection just made subscribes, asks and is answered. */
  lemma Fetches(p: Pair) returns (z: Pair)
    requires On(p) && p.w.phase == R.SetUp && p.w.reader == R.Idle && p.w.Queue() == [] && p.w.frames == []
    requires !p.w.subscribed && p.w.fetch == R.NotAsked
    ensures On(z) && z.s == p.s && z.w.fetch == R.Received
    ensures z.w.Queue() == [] && z.w.reader == R.Idle && z.w.frames == []
  {
    z := DataMoves(p, R.Subscribes);
    z := DataMoves(z, R.AsksStates);
    assert z.w == p.w.(subscribed := true, fetch := R.Asked);
    z := Answered(z);
  }

  lemma Answered(p: Pair) returns (z: Pair)
    requires On(p) && p.w.phase == R.SetUp && p.w.reader == R.Idle && p.w.Queue() == [] && p.w.frames == []
    requires p.w.fetch == R.Asked
    ensures On(z) && z.s == p.s && z.w.fetch == R.Received
    ensures z.w.Queue() == [] && z.w.reader == R.Idle && z.w.frames == []
  {
    var rows := M.ReplyExists(p.w.server);
    z := DataMoves(p, R.HaAnswers(rows));
    assert z.w == p.w.(frames := [R.Reply(rows)], fetch := R.Answered);
    z := DataMoves(z, R.Delivers);
  }

  /** The one write a step of the tree asks for leaves the queue. */
  lemma Drains(p: Pair) returns (z: Pair)
    requires On(p) && |p.w.Queue()| <= 1 && p.w.reader == R.Idle
    requires p.w.Queue() != [] ==> p.w.Queue()[0].owner != V.Reader
    ensures On(z) && z.s == p.s && z.w.Queue() == [] && z.w.reader == R.Idle
    ensures z.w.frames == p.w.frames && z.w.fetch == p.w.fetch
  {
    z := p;
    if p.w.Queue() != [] {
      z := DataMoves(p, if R.Doomed(p.w.phase, p.w.Queue()[0].owner) then R.Unwinds(0, false) else R.Lands);
    }
  }

  lemma NobodyWaits(w: R.World, t: R.Step)
    requires w.Queue() == [] && (t.GoesLive? ==> w.fetch == R.Received)
    requires !DataStep(t) && !t.FinalClear? && w.reader == R.Idle
    ensures L.Ready(w, t)
  {
  }

  /** With the data caught up, no step of the tree has anything left to wait for. */
  lemma NothingToWaitFor(p: Pair, step: L.Step, live: R.Step)
    requires On(p) && CaughtUp(p) && L.Enabled(p.s, step) && live.GoesLive?
    ensures MayMove(p, step, live)
  {
    var steps := L.StepsOf(p.s, step, live);
    L.ReachableHolds(p.s);
    StepsAreOwn(p.s, step, live);
    if |steps| == 1 {
      NobodyWaits(p.w, steps[0]);
    } else if |steps| == 2 {
      NobodyWaits(p.w.(phase := R.Stopping, away := None), steps[1]);
    }
  }

  lemma StepsAreOwn(s: L.State, step: L.Step, live: R.Step)
    requires L.OneLoop(s) && L.Enabled(s, step) && live.GoesLive?
    ensures var steps := L.StepsOf(s, step, live);
            && (forall i :: 0 <= i < |steps| ==> !DataStep(steps[i]) && !steps[i].FinalClear?)
            && (|steps| <= 1 || (|steps| == 2 && steps[0] == R.StopBegins && steps[1].StopEnds?))
            && (forall i :: 0 <= i < |steps| && steps[i].GoesLive? ==>
                  |steps| == 1 && step.SetupConnects? && SettingUp(s))
            && (step.Handshakes? ==> |steps| == 1 && steps[0].Connects?)
            && (step.Acquires? && L.ToStop(s) != [] ==> |steps| == 0 || (|steps| == 1 && steps[0].StopBegins?))
            && (step.Acquires? && L.AlreadyConnected(s, step.c) ==> |steps| == 0)
            && (!step.Acquires? && !step.ChildEnds? && !step.ReaderLeaves? && !step.Leaves? && |steps| == 1 ==>
                  steps[0].Connects? || steps[0].GoesLive? || steps[0].AttemptFails?)
  {
  }

  /** What the connection's steps leave of the data that had caught up. */
  lemma StepLeaves(w: R.World, t: R.Step)
    requires R.Enabled(w, t) && !DataStep(t) && !t.FinalClear? && w.reader == R.Idle && w.frames == []
    ensures var z := R.Apply(w, t);
            && z.reader == R.Idle && z.frames == []
            && |z.Queue()| <= |w.Queue()| + 1
            && (forall i :: |w.Queue()| <= i < |z.Queue()| ==> z.Queue()[i].owner != V.Reader)
            && (t.StopBegins? || t.StopEnds? || t.Connects? ==> |z.Queue()| == |w.Queue()|)
            && (t.Connects? ==> z.phase == R.SetUp && !z.subscribed && z.fetch == R.NotAsked)
            && (t.StopBegins? || t.GoesLive? || t.AttemptFails? ==> z.fetch == w.fetch)
  {
  }

  /** The data after a step of the tree, before they catch up again. */
  predicate Behind(was: Pair, p: Pair, step: L.Step) {
    && |p.w.Queue()| <= 1 && p.w.reader == R.Idle && p.w.frames == []
    && (p.w.Queue() != [] ==> p.w.Queue()[0].owner != V.Reader)
    && (step.Handshakes? ==> p.w.Queue() == [] && p.w.phase == R.SetUp && !p.w.subscribed && p.w.fetch == R.NotAsked)
    && (SettingUp(p.s) && !step.Handshakes? ==> p.w.fetch == R.Received)
  }

  /** Every step of the loop but the handshake leaves no set-up in its fetch. */
  lemma LoopLeavesSetUp(s: L.State, step: L.Step)
    requires L.OneLoop(s) && L.Enabled(s, step) && L.LoopStep(step)
    ensures SettingUp(L.Apply(s, step)) ==> step.Handshakes?
  {
    assert step.i == L.Last(s);
  }

  /** Any other step that leaves one found it there. */
  lemma SettingUpStays(s: L.State, step: L.Step)
    requires L.Inv(s) && L.Enabled(s, step) && !L.LoopStep(step)
    ensures SettingUp(L.Apply(s, step)) ==> SettingUp(s) && !step.ChildEnds?
    ensures SettingUp(L.Apply(s, step)) && step.Acquires? ==> L.ToStop(s) != [] || L.AlreadyConnected(s, step.c)
  {
  }

  lemma MovedIsBehind(p: Pair, step: L.Step, live: R.Step)
    requires On(p) && CaughtUp(p) && MayMove(p, step, live) && Next(p, Tree(step, live)).Some?
    ensures Behind(p, Next(p, Tree(step, live)).value, step)
  {
    L.ReachableHolds(p.s);
    var steps := L.StepsOf(p.s, step, live);
    StepsAreOwn(p.s, step, live);
    if L.LoopStep(step) {
      LoopLeavesSetUp(p.s, step);
    } else {
      SettingUpStays(p.s, step);
    }
    RunLeaves(p.w, steps);
  }

  /** Likewise for the none, one or two steps that a step of the tree is. */
  lemma RunLeaves(w: R.World, steps: seq<R.Step>)
    requires R.Run(w, steps).Some? && w.reader == R.Idle && w.frames == [] && w.Queue() == []
    requires |steps| <= 1 || (|steps| == 2 && steps[0] == R.StopBegins && steps[1].StopEnds?)
    requires forall i :: 0 <= i < |steps| ==> !DataStep(steps[i]) && !steps[i].FinalClear?
    ensures var z := R.Run(w, steps).value;
            && |z.Queue()| <= 1 && z.reader == R.Idle && z.frames == []
            && (z.Queue() != [] ==> z.Queue()[0].owner != V.Reader)
            && (|steps| == 1 && steps[0].Connects? ==>
                  z.Queue() == [] && z.phase == R.SetUp && !z.subscribed && z.fetch == R.NotAsked)
            && (|steps| == 0 ||
                (|steps| == 1 && (steps[0].StopBegins? || steps[0].GoesLive? || steps[0].AttemptFails?)) ==>
                  z.fetch == w.fetch)
  {
    if |steps| == 1 {
      assert steps == [steps[0]] && R.Enabled(w, steps[0]);
      R.RunOne(w, steps[0]);
      StepLeaves(w, steps[0]);
    } else if |steps| == 2 {
      var t, u := steps[0], steps[1];
      assert steps == [t, u] && steps[1..] == [u];
      assert R.Enabled(w, t) && R.Run(R.Apply(w, t), [u]).Some?;
      assert R.Enabled(R.Apply(w, t), u);
      R.RunTwo(w, t, u);
      StepLeaves(w, steps[0]);
      StepLeaves(R.Apply(w, steps[0]), steps[1]);
    }
  }

  lemma CatchesUp(was: Pair, p: Pair, step: L.Step) returns (z: Pair)
    requires On(p) && Behind(was, p, step)
    ensures On(z) && CaughtUp(z) && z.s == p.s
  {
    if step.Handshakes? {
      z := Fetches(p);
    } else {
      z := Drains(p);
    }
  }

  lemma Accompanies(p: Pair, step: L.Step) returns (z: Pair)
    requires On(p) && CaughtUp(p) && L.Enabled(p.s, step)
    ensures On(z) && CaughtUp(z) && z.s == L.Apply(p.s, step)
  {
    var live := R.GoesLive({}, None);
    NothingToWaitFor(p, step, live);
    TreeKeeps(p, step, live);
    MovedIsBehind(p, step, live);
    z := Moves(p, Tree(step, live));
    z := CatchesUp(p, z, step);
  }

  ghost predicate Accompanied(s: L.State) {
    exists p :: On(p) && CaughtUp(p) && p.s == s
  }

  lemma StartAccompanied(s: L.State)
    requires L.Initial(s)
    ensures Accompanied(s)
  {
    var store := V.Store(false, false, [V.Job(V.Clear, V.Lifespan)], map[]);
    var w := R.World(map[], [], false, R.NotAsked, R.Down, false, R.Idle,
                     R.Replica(map[], {}, map[], M.Disconnected, store), Some(0), R.Served({}, map[]));
    var p := Pair(s, w);
    assert R.Initial(w);
    Runs.StartReachable(Initial, Next, p);
    ReachableHolds(p);
    var z := Drains(p);
    assert On(z) && CaughtUp(z);
  }

  // ----- Main results -----

  /** Whatever run the tree of tasks makes, some run of Replication, with frames and
      writes interleaved, goes through the same phases with the same conn_state. */
  lemma EveryTreeRunIsReplications(s: L.State)
    requires L.Reachable(s)
    ensures exists p :: Reachable(p) && p.s == s && R.Reachable(p.w) && L.Matches(s, p.w)
  {
    forall x | L.Initial(x)
      ensures Accompanied(x)
    {
      StartAccompanied(x);
    }
    forall x, step | Accompanied(x) && L.Next(x, step).Some?
      ensures Accompanied(L.Next(x, step).value)
    {
      var p :| On(p) && CaughtUp(p) && p.s == x;
      var z := Accompanies(p, step);
    }
    Runs.ReachableKeeps(L.Initial, L.Next, Accompanied, s);
    var p :| On(p) && CaughtUp(p) && p.s == s;
    assert Reachable(p);
  }

  /** However tree and data interleave, they stay matched, and the tree is never held
      up but by the replies and awaited writes that its step waits for. */
  lemma SideBySideTheyMatch(p: Pair, step: L.Step, live: R.Step)
    requires Reachable(p)
    ensures L.Reachable(p.s) && R.Reachable(p.w) && L.Matches(p.s, p.w)
    ensures Next(p, Tree(step, live)).Some? <==> MayMove(p, step, live)
  {
    ReachableHolds(p);
    if MayMove(p, step, live) {
      TreeKeeps(p, step, live);
    }
  }
}
