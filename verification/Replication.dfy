/** Live-state replication as one transition system: Home Assistant's states,
    the frames on their way, the mirror, the publisher's flags, the pending
    writes and the hash. A step is one await-free segment of the service, one
    event of Home Assistant or one outcome of a pending write; any enabled step
    may come next. The phases are those of Lifecycle's task tree. */
module Replication {
  import opened Basics
  import Runs
  import opened Mirror
  import opened EntityIndex
  import opened LiveState

  // ----- State -----

  /** Down: no set-up or established connection. Dropping: the socket is gone but
      conn_state may still read connected. Stopping: stop() or a credential swap
      waits for the tasks it cancelled. */
  datatype Phase = Down | SetUp | Live | Dropping | Stopping

  predicate PhaseMove(p: Phase, q: Phase) {
    || p == q
    || (p == Down && q == SetUp)
    || (p == SetUp && (q == Live || q == Dropping))
    || (p == Live && q == Dropping)
    || (p == Dropping && q == Down)
    || q == Stopping
    || (p == Stopping && q == Down)
  }

  datatype Frame = Event(id: string, now: Option<ServerState>) | Reply(rows: seq<Row>)

  /** This connection's get_states: Abandoned once set-up gave up on it. */
  datatype Fetch = NotAsked | Asked | Answered | Received | Abandoned

  datatype ReaderPc = Idle | OwnWriting | Republishing

  /** What the service holds: the connection's fields, the rooms and the store. */
  datatype Replica = Replica(states: States, catalog: set<string>, areas: Areas, connState: ConnState, store: Store)
  {
    function Current(): Hash {
      View(states, catalog, areas)
    }
    predicate IsConnected() {
      connState == Connected
    }
  }

  /** History: the catalog of the last get_services reply, and the rooms of the last
      rebuild that did not raise. */
  datatype Served = Served(catalog: set<string>, areas: Areas)

  /** away: history. Some(k) while no state event, connect or stop has come since
      a clear was requested for an absent Home Assistant; it sits at place k, or
      has left the queue. */
  datatype World = World(
    server: Server, frames: seq<Frame>, subscribed: bool, fetch: Fetch,
    phase: Phase, loop: bool, reader: ReaderPc, replica: Replica, away: Option<nat>, served: Served)
  {
    function Queue(): seq<Job> {
      replica.store.queue
    }
  }

  datatype Step =
    // Home Assistant
    | HaChanges(id: string, now: Option<ServerState>)
    | HaAnswers(rows: seq<Row>)
    // the connection
    | Connects
    | Subscribes
    | AsksStates
    | Abandons
    | Delivers
    | GoesLive(catalog: set<string>, rebuilt: Option<Areas>)
    | SocketCloses
    | ReportsDrop
    | AttemptFails(rejected: bool)
    | StopBegins
    | StopEnds(restarts: bool, early: bool)
    | FinalClear
    // registrations and registry refreshes
    | Heals(owner: Owner)
    | RebuildsRooms(areas: Areas)
    // the writer
    | Lands
    | Fails(tookEffect: bool)
    | Unwinds(i: nat, lands: bool)

  // ----- The service's segments on the replica -----

  /** The connect segment: catalog stored, conn_state set, index rebuilt (unless
      that raised), snapshot requested. */
  function WentLive(r: Replica, catalog: set<string>, rebuilt: Option<Areas>): Replica {
    var areas := if rebuilt.Some? then rebuilt.value else r.areas;
    r.(catalog := catalog, areas := areas, connState := Connected,
       store := Publish(r.store, View(r.states, catalog, areas), Setup))
  }

  function EventArrived(r: Replica, id: string, now: Option<ServerState>): Replica {
    var states := Applied(r.states, id, now);
    r.(states := states, store := Request(r.store, OwnWrite(states, r.catalog, r.areas, id), Reader))
  }

  /** on_registries_updated: a room move only marks the hash stale. */
  function RoomsRebuilt(r: Replica, areas: Areas): Replica {
    r.(areas := areas, store := r.store.(stale := r.store.stale || areas != r.areas))
  }

  function Reported(r: Replica, how: ConnState): Replica {
    r.(connState := how, store := Request(r.store, Clear, Runner))
  }

  // ----- Which pending writes a cancellation has reached -----

  /** The write's task must unwind: it cannot resume normally any more. */
  predicate Doomed(phase: Phase, o: Owner) {
    || o == Orphan
    || (phase == Dropping && o == Setup)
    || (phase == Stopping && (o == Reader || o == Runner || o == Refresh))
  }

  predicate MayUnwind(phase: Phase, o: Owner) {
    Doomed(phase, o) || (phase == Stopping && o == Setup)
  }

  /** A write of this owner is pending. */
  predicate Waits(q: seq<Job>, o: Owner) {
    exists i :: 0 <= i < |q| && q[i].owner == o
  }

  function Orphaned(q: seq<Job>): seq<Job> {
    seq(|q|, i requires 0 <= i < |q| => if q[i].owner == Refresh then q[i].(owner := Orphan) else q[i])
  }

  // ----- Steps -----

  /** The phases in which the connection's tasks can take a step. */
  predicate PhaseAllows(phase: Phase, loop: bool, s: Step) {
    match s
    case Connects => phase == Down && loop
    case Subscribes => phase == SetUp
    case AsksStates => phase == SetUp
    case Abandons => phase == SetUp
    case Delivers => phase == SetUp || phase == Live
    case GoesLive(_, _) => phase == SetUp || phase == Stopping
    case SocketCloses => phase == SetUp || phase == Live
    case ReportsDrop => phase == Dropping
    case AttemptFails(_) => phase == Down && loop
    case StopBegins => phase != Stopping
    case StopEnds(restarts, early) => phase == Stopping && (early ==> !restarts)
    case FinalClear => phase == Down && !loop
    case _ => true
  }

  /** What else the step waits for: frames, replies, and the tasks awaited before
      it, whose writes are then no longer pending. */
  predicate DataAllows(w: World, s: Step) {
    match s
    case HaChanges(id, now) => id != ""
    case HaAnswers(rows) => w.fetch == Asked && Lists(rows, w.server)
    case Connects => !Waits(w.Queue(), Runner)
    case AsksStates => w.subscribed && w.fetch == NotAsked
    case Delivers => w.reader == Idle && w.frames != []
    case GoesLive(_, _) => w.fetch == Received && w.replica.connState != Connected
    case SocketCloses => w.reader == Idle
    case ReportsDrop => !Waits(w.Queue(), Setup)
    case AttemptFails(_) => !Waits(w.Queue(), Runner)
    case StopEnds(_, early) =>
      && !Waits(w.Queue(), Reader) && !Waits(w.Queue(), Setup) && !Waits(w.Queue(), Runner)
      && (!early ==> !Waits(w.Queue(), Refresh))
    case Heals(o) => o == Refresh || o == Retry || o == Lifespan || (o == Setup && w.replica.IsConnected())
    case Lands => w.Queue() != [] && !Doomed(w.phase, w.Queue()[0].owner)
    case Fails(_) => w.Queue() != [] && !Doomed(w.phase, w.Queue()[0].owner)
    case Unwinds(i, lands) =>
      i < |w.Queue()| && MayUnwind(w.phase, w.Queue()[i].owner) && (lands ==> i == 0)
    case _ => true
  }

  predicate Enabled(w: World, s: Step) {
    PhaseAllows(w.phase, w.loop, s) && DataAllows(w, s)
  }

  /** Home Assistant's changes reach a subscribed socket as events, in order. */
  function AfterHaChanges(w: World, id: string, now: Option<ServerState>): World {
    w.(server := Changed(w.server, id, now),
       frames := if w.subscribed then w.frames + [Event(id, now)] else w.frames)
  }

  /** The reader handles one frame; the get_states reply is installed right here. */
  function AfterDelivers(w: World): World
    requires w.frames != []
  {
    var rest := w.(frames := w.frames[1..]);
    match w.frames[0]
    case Event(id, now) =>
      if id == "" then rest
      else rest.(replica := EventArrived(w.replica, id, now), reader := OwnWriting, away := None)
    case Reply(rows) =>
      if w.fetch == Answered
      then rest.(replica := w.replica.(states := Installed(rows)), fetch := Received)
      else rest
  }

  /** One place nearer the head. */
  function Nearer(away: Option<nat>): Option<nat> {
    if away.Some? && away.value > 0 then Some(away.value - 1) else away
  }

  function AfterLands(w: World): World
    requires w.Queue() != []
  {
    var r := w.replica;
    var head := r.store.queue[0];
    var ahead := Nearer(w.away);
    if head.owner == Reader && !IsFull(head.write) then
      var store := OwnLanded(r.store, r.IsConnected(), r.Current());
      var republishes := (r.store.dirty || r.store.stale) && r.IsConnected();
      w.(replica := r.(store := store), reader := if republishes then Republishing else Idle, away := ahead)
    else
      w.(replica := r.(store := Landed(r.store)), reader := if head.owner == Reader then Idle else w.reader,
         away := ahead)
  }

  function AfterFails(w: World, tookEffect: bool): World
    requires w.Queue() != []
  {
    w.(replica := w.replica.(store := Failed(w.replica.store, tookEffect)),
       reader := if w.Queue()[0].owner == Reader then Idle else w.reader,
       away := Nearer(w.away))
  }

  function AfterUnwinds(w: World, i: nat, lands: bool): World
    requires i < |w.Queue()|
  {
    w.(replica := w.replica.(store := Unwound(w.replica.store, i, lands)),
       away := if w.away.Some? && w.away.value > i then Some(w.away.value - 1) else w.away)
  }

  /** stop() or a swap has awaited the tasks it cancelled. When its caller was
      cancelled meanwhile it gives up early, leaving a refresh unwinding unawaited. */
  function AfterStopEnds(w: World, restarts: bool, early: bool): World {
    var r := w.replica;
    var store := if early then r.store.(queue := Orphaned(r.store.queue)) else r.store;
    w.(phase := Down, loop := restarts, reader := Idle, frames := [], subscribed := false, fetch := NotAsked,
       replica := r.(connState := Disconnected, store := store))
  }

  function Apply(w: World, s: Step): World
    requires Enabled(w, s)
  {
    match s
    case HaChanges(id, now) => AfterHaChanges(w, id, now)
    case HaAnswers(rows) => w.(frames := w.frames + [Reply(rows)], fetch := Answered)
    case Connects => w.(phase := SetUp, frames := [], subscribed := false, fetch := NotAsked)
    case Subscribes => w.(subscribed := true)
    case AsksStates => w.(fetch := Asked)
    case Abandons => w.(fetch := Abandoned)
    case Delivers => AfterDelivers(w)
    case GoesLive(catalog, rebuilt) =>
      w.(phase := if w.phase == SetUp then Live else w.phase,
         replica := WentLive(w.replica, catalog, rebuilt), away := None,
         served := Served(catalog, if rebuilt.Some? then rebuilt.value else w.served.areas))
    case SocketCloses => w.(phase := Dropping, frames := [], subscribed := false, fetch := NotAsked)
    case ReportsDrop => w.(phase := Down, replica := Reported(w.replica, Unreachable), away := Some(|w.Queue()|))
    case AttemptFails(rejected) =>
      w.(loop := !rejected, replica := Reported(w.replica, if rejected then AuthFailed else Unreachable),
         away := Some(|w.Queue()|))
    case StopBegins => w.(phase := Stopping, away := None)
    case StopEnds(restarts, early) => AfterStopEnds(w, restarts, early)
    case FinalClear =>
      w.(replica := w.replica.(store := Request(w.replica.store, Clear, Lifespan)), away := Some(|w.Queue()|))
    case Heals(o) =>
      w.(replica := w.replica.(store := Heal(w.replica.store, w.replica.IsConnected(), w.replica.Current(), o)))
    case RebuildsRooms(areas) =>
      w.(replica := RoomsRebuilt(w.replica, areas), served := w.served.(areas := areas))
    case Lands => AfterLands(w)
    case Fails(tookEffect) => AfterFails(w, tookEffect)
    case Unwinds(i, lands) => AfterUnwinds(w, i, lands)
  }

  /** A starting process: the hash is whatever an earlier one left, and the
      startup clear is already requested. */
  predicate Initial(w: World) {
    && w.frames == [] && !w.subscribed && w.fetch == NotAsked
    && w.phase == Down && !w.loop && w.reader == Idle
    && w.replica.states == map[] && w.replica.connState == Disconnected
    && w.replica.catalog == {} && w.replica.areas == map[]
    && w.replica.store == Store(false, false, [Job(Clear, Lifespan)], w.replica.store.hash)
    && w.away == Some(0) && w.served == Served({}, map[])
  }

  function Next(w: World, step: Step): Option<World> {
    if Enabled(w, step) then Some(Apply(w, step)) else None
  }

  /** The world after these steps, if each was enabled in its turn. */
  function Run(w: World, steps: seq<Step>): Option<World> {
    Runs.RunOf(Next, w, steps)
  }

  ghost predicate Reachable(w: World) {
    Runs.Reachable(Initial, Next, w)
  }

  lemma RunOne(w: World, s: Step)
    requires Enabled(w, s)
    ensures Run(w, [s]) == Some(Apply(w, s))
  {
    var none: seq<Step> := [];
    assert [s][1..] == none && Run(Apply(w, s), none) == Some(Apply(w, s));
  }

  lemma RunTwo(w: World, s: Step, t: Step)
    requires Enabled(w, s) && Enabled(Apply(w, s), t)
    ensures Run(w, [s, t]) == Some(Apply(Apply(w, s), t))
  {
    RunOne(Apply(w, s), t);
    assert [s, t][1..] == [t];
  }

  // ----- Queues -----

  lemma {:induction false} DrainAppend(q: seq<Job>, j: Job, hash: Hash)
    ensures Drain(q + [j], hash) == Effect(j.write, Drain(q, hash))
    decreases |q|
  {
    if q == [] {
      assert ([j])[1..] == [];
    } else {
      assert (q + [j])[1..] == q[1..] + [j];
      DrainAppend(q[1..], j, Effect(q[0].write, hash));
    }
  }

  /** Nothing before a full write matters. */
  lemma {:induction false} DrainFromFull(q: seq<Job>, i: nat, hash: Hash, other: Hash)
    requires i < |q| && IsFull(q[i].write)
    ensures Drain(q, hash) == Drain(q[i..], other)
    decreases i
  {
    if i == 0 {
      assert q[0..] == q;
    } else {
      assert q[1..][i - 1..] == q[i..];
      DrainFromFull(q[1..], i - 1, Effect(q[0].write, hash), other);
    }
  }

  /** If the full write at place i lands, the writes behind it bring the hash to target. */
  predicate SettledFrom(q: seq<Job>, i: nat, target: Hash)
    requires i < |q|
  {
    IsFull(q[i].write) ==> Drain(q[i..], map[]) == target
  }

  /** Whichever full write lands. */
  ghost predicate Settled(q: seq<Job>, target: Hash) {
    forall i :: 0 <= i < |q| ==> SettledFrom(q, i, target)
  }

  /** Every orphan is followed by a full write that no cancellation can reach. */
  ghost predicate Covered(q: seq<Job>) {
    forall i :: 0 <= i < |q| && q[i].owner == Orphan ==>
      exists j :: i < j < |q| && IsFull(q[j].write) && q[j].owner != Orphan
  }

  ghost predicate InStep(s: Store, target: Hash) {
    && Settled(s.queue, target)
    && Covered(s.queue)
    && (s.dirty || Drain(s.queue, s.hash) == target)
  }

  lemma SettledGrows(q: seq<Job>, j: Job, target: Hash)
    requires IsFull(j.write) || Settled(q, target)
    ensures Settled(q + [j], Effect(j.write, target))
  {
    var r := q + [j];
    forall i | 0 <= i < |r|
      ensures SettledFrom(r, i, Effect(j.write, target))
    {
      assert r[i..] == q[i..] + [j];
      assert i < |q| && Settled(q, target) ==> SettledFrom(q, i, target);
      DrainAppend(q[i..], j, map[]);
    }
  }

  lemma CoveredByFull(q: seq<Job>, j: Job)
    requires IsFull(j.write) && j.owner != Orphan
    ensures Covered(q + [j])
  {
    var r := q + [j];
    forall i | 0 <= i < |r| && r[i].owner == Orphan
      ensures exists k :: i < k < |r| && IsFull(r[k].write) && r[k].owner != Orphan
    {
      assert r[|q|] == j;
    }
  }

  lemma FullSettles(s: Store, w: Write, o: Owner, target: Hash)
    requires IsFull(w) && Effect(w, map[]) == target && o != Orphan
    ensures InStep(Request(s, w, o), target)
    ensures Drain(Request(s, w, o).queue, s.hash) == target
  {
    DrainAppend(s.queue, Job(w, o), s.hash);
    SettledGrows(s.queue, Job(w, o), target);
    CoveredByFull(s.queue, Job(w, o));
  }

  lemma PartialKeeps(s: Store, w: Write, o: Owner, target: Hash)
    requires InStep(s, target) && !IsFull(w) && o != Orphan
    ensures InStep(Request(s, w, o), Effect(w, target))
  {
    DrainAppend(s.queue, Job(w, o), s.hash);
    SettledGrows(s.queue, Job(w, o), target);
    CoveredGrows(s.queue, Job(w, o));
  }

  lemma CoveredGrows(q: seq<Job>, j: Job)
    requires Covered(q) && j.owner != Orphan
    ensures Covered(q + [j])
  {
    forall i | 0 <= i < |q + [j]| && (q + [j])[i].owner == Orphan
      ensures exists k :: i < k < |q + [j]| && IsFull((q + [j])[k].write) && (q + [j])[k].owner != Orphan
    {
      var k :| i < k < |q| && IsFull(q[k].write) && q[k].owner != Orphan;
      assert (q + [j])[k] == q[k];
    }
  }

  lemma CoveredTail(q: seq<Job>)
    requires q != [] && Covered(q)
    ensures Covered(q[1..])
  {
    forall i | 0 <= i < |q[1..]| && q[1..][i].owner == Orphan
      ensures exists j :: i < j < |q[1..]| && IsFull(q[1..][j].write) && q[1..][j].owner != Orphan
    {
      assert q[i + 1].owner == Orphan;
      var j :| i + 1 < j < |q| && IsFull(q[j].write) && q[j].owner != Orphan;
      assert q[1..][j - 1] == q[j];
    }
  }

  lemma TailKeeps(q: seq<Job>, target: Hash)
    requires q != [] && Settled(q, target) && Covered(q)
    ensures Settled(q[1..], target) && Covered(q[1..])
    ensures IsFull(q[0].write) ==> Drain(q[1..], Effect(q[0].write, map[])) == target
  {
    assert q[0..] == q && SettledFrom(q, 0, target);
    CoveredTail(q);
    forall i | 0 <= i < |q[1..]|
      ensures SettledFrom(q[1..], i, target)
    {
      assert q[1..][i..] == q[i + 1..] && SettledFrom(q, i + 1, target);
    }
  }

  lemma LandedKeeps(s: Store, target: Hash)
    requires s.queue != [] && InStep(s, target)
    ensures InStep(Landed(s), target)
  {
    TailKeeps(s.queue, target);
  }

  lemma FailedKeeps(s: Store, tookEffect: bool, target: Hash)
    requires s.queue != [] && InStep(s, target)
    ensures InStep(Failed(s, tookEffect), target)
  {
    TailKeeps(s.queue, target);
  }

  /** Taking out a write ahead of a full one changes nothing that drains through it. */
  lemma DrainWithout(q: seq<Job>, i: nat, j: nat, hash: Hash, other: Hash)
    requires i < j < |q| && IsFull(q[j].write)
    ensures Drain(q[..i] + q[i + 1..], hash) == Drain(q, other)
  {
    var r := q[..i] + q[i + 1..];
    assert r[j - 1] == q[j] && r[j - 1..] == q[j..];
    DrainFromFull(q, j, other, map[]);
    DrainFromFull(r, j - 1, hash, map[]);
  }

  lemma OrphanSettled(q: seq<Job>, i: nat, j: nat, target: Hash)
    requires i < j < |q| && IsFull(q[j].write) && Settled(q, target)
    ensures Settled(q[..i] + q[i + 1..], target)
  {
    var r := q[..i] + q[i + 1..];
    forall k | 0 <= k < |r|
      ensures SettledFrom(r, k, target)
    {
      if k < i {
        assert r[k..] == q[k..][..i - k] + q[k..][i - k + 1..] && SettledFrom(q, k, target);
        DrainWithout(q[k..], i - k, j - k, map[], map[]);
      } else {
        assert r[k] == q[k + 1] && r[k..] == q[k + 1..] && SettledFrom(q, k + 1, target);
      }
    }
  }

  lemma OrphanCoverStays(q: seq<Job>, i: nat)
    requires Covered(q) && i < |q| && q[i].owner == Orphan
    ensures Covered(q[..i] + q[i + 1..])
  {
    var r := q[..i] + q[i + 1..];
    forall k | 0 <= k < |r| && r[k].owner == Orphan
      ensures exists m :: k < m < |r| && IsFull(r[m].write) && r[m].owner != Orphan
    {
      var k' := if k < i then k else k + 1;
      assert q[k'] == r[k];
      var m :| k' < m < |q| && IsFull(q[m].write) && q[m].owner != Orphan;
      assert r[if m < i then m else m - 1] == q[m];
    }
  }

  /** An orphan's write may land or vanish: a full write behind it settles both. */
  lemma OrphanUnwinds(s: Store, i: nat, lands: bool, target: Hash)
    requires i < |s.queue| && s.queue[i].owner == Orphan
    requires InStep(s, target)
    ensures InStep(Unwound(s, i, lands), target)
  {
    var q, next := s.queue, Unwound(s, i, lands);
    var j :| i < j < |q| && IsFull(q[j].write) && q[j].owner != Orphan;
    OrphanSettled(q, i, j, target);
    OrphanCoverStays(q, i);
    DrainWithout(q, i, j, next.hash, s.hash);
  }

  // ----- The invariant -----

  /** What the hash should come to, where that is settled. */
  function Target(w: World): Option<Hash> {
    if w.away.Some? then Some(map[])
    else if w.phase == Live then Some(w.replica.Current())
    else None
  }

  /** A room move excuses a live hash until the next event republishes. */
  predicate Excused(w: World) {
    w.phase == Live && w.replica.store.stale
  }

  ghost predicate StoreFits(store: Store, target: Option<Hash>, excused: bool) {
    target.Some? ==> Covered(store.queue) && (!excused ==> InStep(store, target.value))
  }

  /** Every write behind the absent Home Assistant's clear is itself a clear. */
  ghost predicate OnlyClearsBehind(q: seq<Job>, away: Option<nat>) {
    away.Some? ==>
      && away.value <= |q|
      && forall i :: away.value <= i < |q| ==> q[i].write == Clear
  }

  predicate PhasesFit(phase: Phase, connState: ConnState, fetch: Fetch, reader: ReaderPc, away: Option<nat>) {
    && (connState == Connected ==> phase == Live || phase == Dropping || phase == Stopping)
    && (phase == Live ==> connState == Connected && fetch == Received)
    && (away.Some? ==> phase != Live && phase != Stopping && connState != Connected)
    && (reader != Idle ==> phase == SetUp || phase == Live || phase == Stopping)
    && (reader != Idle ==> away.None?)
  }

  /** The set-up task writes only once connected, and is gone before that ends. */
  predicate SetupFits(q: seq<Job>, connState: ConnState) {
    Waits(q, Setup) ==> connState == Connected
  }

  ghost predicate Pending(q: seq<Job>, i: int) {
    0 <= i < |q| && q[i].owner == Reader
  }

  /** The reader awaits at most one write, of the kind its place in the code says. */
  ghost predicate ReaderFits(q: seq<Job>, reader: ReaderPc, phase: Phase) {
    && (forall i :: Pending(q, i) ==> reader != Idle && (IsFull(q[i].write) <==> reader == Republishing))
    && (forall i, j :: Pending(q, i) && Pending(q, j) ==> i == j)
    && (reader != Idle && phase != Stopping ==> exists i :: Pending(q, i))
  }

  function IsReply(f: Frame): bool {
    f.Reply?
  }

  function Replies(frames: seq<Frame>): nat {
    if frames == [] then 0 else Replies(frames[..|frames| - 1]) + if IsReply(frames[|frames| - 1]) then 1 else 0
  }

  /** The mirror once the frames on their way have been handled. */
  function Folded(frames: seq<Frame>, states: States): States {
    if frames == [] then states
    else
      var before := Folded(frames[..|frames| - 1], states);
      match frames[|frames| - 1]
      case Event(id, now) => Applied(before, id, now)
      case Reply(rows) => Installed(rows)
  }

  ghost predicate MirrorFits(server: Server, frames: seq<Frame>, subscribed: bool, fetch: Fetch, states: States) {
    && Keyed(states)
    && (fetch == Asked || fetch == Answered || fetch == Received ==> subscribed)
    && (fetch == NotAsked || fetch == Asked || fetch == Received ==> Replies(frames) == 0)
    && (fetch == Answered ==> Replies(frames) == 1)
    && (fetch == Answered || fetch == Received ==> Agrees(Folded(frames, states), server))
  }

  ghost predicate Inv(w: World) {
    && StoreFits(w.replica.store, Target(w), Excused(w))
    && OnlyClearsBehind(w.Queue(), w.away)
    && PhasesFit(w.phase, w.replica.connState, w.fetch, w.reader, w.away)
    && SetupFits(w.Queue(), w.replica.connState)
    && ReaderFits(w.Queue(), w.reader, w.phase)
    && MirrorFits(w.server, w.frames, w.subscribed, w.fetch, w.replica.states)
  }

  // ----- Preservation, one group of steps at a time -----

  lemma {:induction false} FoldedFront(frames: seq<Frame>, states: States)
    requires frames != []
    ensures Folded(frames, states) ==
            Folded(frames[1..],
                   match frames[0] case Event(id, now) => Applied(states, id, now) case Reply(rows) => Installed(rows))
    ensures Replies(frames) == Replies(frames[1..]) + if IsReply(frames[0]) then 1 else 0
  {
    if |frames| > 1 {
      FoldedFront(frames[..|frames| - 1], states);
      assert frames[1..][..|frames| - 2] == frames[..|frames| - 1][1..];
    }
  }

  lemma HaKeeps(w: World, s: Step)
    requires Inv(w) && Enabled(w, s) && (s.HaChanges? || s.HaAnswers?)
    ensures Inv(Apply(w, s))
  {
    var next := Apply(w, s);
    assert Target(next) == Target(w) && Excused(next) == Excused(w);
    FramesGrow(w, s);
  }

  lemma FramesGrow(w: World, s: Step)
    requires MirrorFits(w.server, w.frames, w.subscribed, w.fetch, w.replica.states)
    requires Enabled(w, s) && (s.HaChanges? || s.HaAnswers?)
    ensures var n := Apply(w, s); MirrorFits(n.server, n.frames, n.subscribed, n.fetch, n.replica.states)
  {
    var next := Apply(w, s);
    if next.frames != w.frames {
      assert next.frames[..|next.frames| - 1] == w.frames;
    }
    if s.HaAnswers? {
      InstalledIsFaithful(s.rows, w.server);
    } else if w.fetch == Answered || w.fetch == Received {
      AppliedAgrees(Folded(w.frames, w.replica.states), w.server, s.id, s.now);
    }
  }

  lemma FrameHandled(w: World)
    requires MirrorFits(w.server, w.frames, w.subscribed, w.fetch, w.replica.states)
    requires Enabled(w, Delivers)
    ensures var n := AfterDelivers(w); MirrorFits(n.server, n.frames, n.subscribed, n.fetch, n.replica.states)
  {
    FoldedFront(w.frames, w.replica.states);
    if w.frames[0].Reply? {
      InstalledKeyed(w.frames[0].rows);
    }
  }

  lemma PartialFits(q: seq<Job>, j: Job, connState: ConnState)
    requires SetupFits(q, connState) && (j.owner == Setup ==> connState == Connected)
    ensures SetupFits(q + [j], connState)
  {
    if Waits(q + [j], Setup) && j.owner != Setup {
      var i :| 0 <= i < |q + [j]| && (q + [j])[i].owner == Setup;
      assert q[i].owner == Setup;
    }
  }

  lemma EventStoreFits(w: World, id: string, now: Option<ServerState>)
    requires Inv(w) && id != "" && w.phase == Live
    ensures var r := EventArrived(w.replica, id, now);
            StoreFits(r.store, Some(r.Current()), w.replica.store.stale)
  {
    var r := w.replica;
    var states := Applied(r.states, id, now);
    var own := OwnWrite(states, r.catalog, r.areas, id);
    ViewOfApplied(r.states, r.catalog, r.areas, id, now);
    CoveredGrows(r.store.queue, Job(own, Reader));
    if !r.store.stale {
      PartialKeeps(r.store, own, Reader, r.Current());
    }
  }

  lemma DeliveryKeeps(w: World)
    requires Inv(w) && Enabled(w, Delivers)
    ensures Inv(Apply(w, Delivers))
  {
    FrameHandled(w);
    if w.frames[0].Event? && w.frames[0].id != "" {
      EventKeeps(w, w.frames[0].id, w.frames[0].now);
    } else {
      ReplyKeeps(w);
    }
  }

  lemma EventKeeps(w: World, id: string, now: Option<ServerState>)
    requires Inv(w) && Enabled(w, Delivers) && id != "" && w.frames[0] == Event(id, now)
    requires var n := AfterDelivers(w); MirrorFits(n.server, n.frames, n.subscribed, n.fetch, n.replica.states)
    ensures Inv(AfterDelivers(w))
  {
    var r, next := w.replica, AfterDelivers(w);
    var j := Job(OwnWrite(next.replica.states, r.catalog, r.areas, id), Reader);
    assert next.Queue() == w.Queue() + [j];
    OneRequestFits(w.Queue(), j, w.phase);
    PartialFits(w.Queue(), j, r.connState);
    if w.phase == Live {
      EventStoreFits(w, id, now);
    }
  }

  /** A reply installed before the connection is live, or a frame that says nothing. */
  lemma ReplyKeeps(w: World)
    requires Inv(w) && Enabled(w, Delivers) && !(w.frames[0].Event? && w.frames[0].id != "")
    requires var n := AfterDelivers(w); MirrorFits(n.server, n.frames, n.subscribed, n.fetch, n.replica.states)
    ensures Inv(AfterDelivers(w))
  {
    var next := AfterDelivers(w);
    assert next.replica.store == w.replica.store && next.away == w.away && next.phase == w.phase;
    assert w.phase == Live ==> next.replica == w.replica;
  }

  lemma ConnectionKeeps(w: World, s: Step)
    requires Inv(w) && Enabled(w, s)
    requires s.Connects? || s.Subscribes? || s.AsksStates? || s.Abandons? || s.SocketCloses? || s.StopBegins?
    ensures Inv(Apply(w, s))
  {
    assert Apply(w, s).replica == w.replica;
  }

  lemma StopEndKeeps(w: World, s: Step)
    requires Inv(w) && Enabled(w, s) && s.StopEnds?
    ensures Inv(Apply(w, s))
  {
    var q, next := w.Queue(), Apply(w, s);
    assert |next.Queue()| == |q|;
    forall i | 0 <= i < |q|
      ensures next.Queue()[i].owner != Reader && next.Queue()[i].owner != Setup
    {
      assert q[i].owner != Reader && q[i].owner != Setup;
    }
  }

  lemma RequestFits(q: seq<Job>, j: Job, reader: ReaderPc, phase: Phase, next: Phase)
    requires ReaderFits(q, reader, phase) && j.owner != Reader && (phase == Stopping ==> next == Stopping)
    ensures ReaderFits(q + [j], reader, next)
  {
    assert forall i :: Pending(q + [j], i) <==> Pending(q, i);
  }

  lemma OneRequestFits(q: seq<Job>, j: Job, phase: Phase)
    requires ReaderFits(q, Idle, phase) && j.owner == Reader
    ensures ReaderFits(q + [j], if IsFull(j.write) then Republishing else OwnWriting, phase)
  {
    assert forall i :: Pending(q + [j], i) <==> i == |q| || Pending(q, i);
    assert Pending(q + [j], |q|);
  }

  lemma GoingLiveKeeps(w: World, s: Step)
    requires Inv(w) && Enabled(w, s) && s.GoesLive?
    ensures Inv(Apply(w, s))
  {
    var next := Apply(w, s);
    var view := next.replica.Current();
    FullSettles(w.replica.store.(stale := false), Replace(view), Setup, view);
    RequestFits(w.Queue(), Job(Replace(view), Setup), w.reader, w.phase, next.phase);
    PartialFits(w.Queue(), Job(Replace(view), Setup), Connected);
  }

  lemma ClearKeeps(w: World, s: Step)
    requires Inv(w) && Enabled(w, s) && (s.ReportsDrop? || s.AttemptFails? || s.FinalClear?)
    ensures Inv(Apply(w, s))
  {
    var next, j := Apply(w, s), Job(Clear, if s.FinalClear? then Lifespan else Runner);
    FullSettles(w.replica.store, Clear, j.owner, map[]);
    RequestFits(w.Queue(), j, w.reader, w.phase, next.phase);
    PartialFits(w.Queue(), j, next.replica.connState);
    assert Target(next) == Some(map[]);
    assert next.Queue() == w.Queue() + [j];
  }

  lemma HealKeeps(w: World, s: Step)
    requires Inv(w) && Enabled(w, s) && s.Heals?
    ensures Inv(Apply(w, s))
  {
    if !w.replica.store.dirty {
      assert Apply(w, s) == w;
    } else if w.replica.IsConnected() {
      HealReplaces(w, s);
    } else {
      HealClears(w, s);
    }
  }

  lemma HealReplaces(w: World, s: Step)
    requires Inv(w) && Enabled(w, s) && s.Heals? && w.replica.store.dirty && w.replica.IsConnected()
    ensures Inv(Apply(w, s))
  {
    var store, view, next := w.replica.store, w.replica.Current(), Apply(w, s);
    FullSettles(store.(stale := false), Replace(view), s.owner, view);
    RequestFits(w.Queue(), Job(Replace(view), s.owner), w.reader, w.phase, w.phase);
    PartialFits(w.Queue(), Job(Replace(view), s.owner), Connected);
    assert next.replica.Current() == view && next.Queue() == w.Queue() + [Job(Replace(view), s.owner)];
  }

  lemma HealClears(w: World, s: Step)
    requires Inv(w) && Enabled(w, s) && s.Heals? && w.replica.store.dirty && !w.replica.IsConnected()
    ensures Inv(Apply(w, s))
  {
    var store, next := w.replica.store, Apply(w, s);
    FullSettles(store, Clear, s.owner, map[]);
    RequestFits(w.Queue(), Job(Clear, s.owner), w.reader, w.phase, w.phase);
    PartialFits(w.Queue(), Job(Clear, s.owner), w.replica.connState);
    assert next.Queue() == w.Queue() + [Job(Clear, s.owner)];
  }

  lemma RebuildKeeps(w: World, s: Step)
    requires Inv(w) && Enabled(w, s) && s.RebuildsRooms?
    ensures Inv(Apply(w, s))
  {
    var next := Apply(w, s);
    assert next.Queue() == w.Queue();
    assert next.replica.areas == w.replica.areas ==> Target(next) == Target(w) && next.replica == w.replica;
  }

  /** The queue without its head leaves the reader waiting for what it was. */
  lemma TailFits(q: seq<Job>, reader: ReaderPc, phase: Phase)
    requires q != [] && ReaderFits(q, reader, phase)
    ensures ReaderFits(q[1..], if q[0].owner == Reader then Idle else reader, phase)
  {
    forall i | 0 <= i
      ensures Pending(q[1..], i) <==> Pending(q, i + 1)
    {
    }
    if q[0].owner == Reader {
      assert Pending(q, 0);
    } else if reader != Idle && phase != Stopping {
      var i :| Pending(q, i);
      assert Pending(q[1..], i - 1);
    }
  }

  lemma TailBehind(q: seq<Job>, away: Option<nat>, connState: ConnState)
    requires q != [] && OnlyClearsBehind(q, away) && SetupFits(q, connState)
    ensures OnlyClearsBehind(q[1..], Nearer(away)) && SetupFits(q[1..], connState)
  {
    if Waits(q[1..], Setup) {
      var i :| 0 <= i < |q[1..]| && q[1..][i].owner == Setup;
      assert q[i + 1].owner == Setup;
    }
  }

  lemma LandedFits(store: Store, target: Option<Hash>, excused: bool)
    requires store.queue != [] && StoreFits(store, target, excused)
    ensures StoreFits(Landed(store), target, excused)
    ensures forall tookEffect :: StoreFits(Failed(store, tookEffect), target, excused)
  {
    if target.Some? {
      CoveredTail(store.queue);
      if !excused {
        LandedKeeps(store, target.value);
        FailedKeeps(store, true, target.value);
        FailedKeeps(store, false, target.value);
      }
    }
  }

  lemma FailureKeeps(w: World, s: Step)
    requires Inv(w) && Enabled(w, s) && s.Fails?
    ensures Inv(Apply(w, s))
  {
    var next := Apply(w, s);
    TailFits(w.Queue(), w.reader, w.phase);
    TailBehind(w.Queue(), w.away, w.replica.connState);
    LandedFits(w.replica.store, Target(w), Excused(w));
    assert Target(next) == Target(w) && Excused(next) == Excused(w);
  }

  /** The segment after a landing, before any republishing it leads to. */
  function JustLanded(w: World): World
    requires w.Queue() != []
  {
    w.(replica := w.replica.(store := Landed(w.replica.store)),
       reader := if w.Queue()[0].owner == Reader then Idle else w.reader,
       away := Nearer(w.away))
  }

  lemma JustLandedKeeps(w: World)
    requires Inv(w) && Enabled(w, Lands)
    ensures Inv(JustLanded(w))
  {
    var next := JustLanded(w);
    TailFits(w.Queue(), w.reader, w.phase);
    TailBehind(w.Queue(), w.away, w.replica.connState);
    LandedFits(w.replica.store, Target(w), Excused(w));
    assert Target(next) == Target(w) && Excused(next) == Excused(w);
  }

  function Republished(w: World): World {
    w.(replica := w.replica.(store := Publish(w.replica.store, w.replica.Current(), Reader)), reader := Republishing)
  }

  lemma LandingIs(w: World)
    requires Enabled(w, Lands)
    ensures Apply(w, Lands) == JustLanded(w) ||
            (Apply(w, Lands) == Republished(JustLanded(w)) && w.replica.IsConnected() && w.Queue()[0].owner == Reader)
  {
  }

  lemma LandingKeeps(w: World)
    requires Inv(w) && Enabled(w, Lands)
    ensures Inv(Apply(w, Lands))
  {
    JustLandedKeeps(w);
    LandingIs(w);
    if Apply(w, Lands) != JustLanded(w) {
      assert Pending(w.Queue(), 0);
      RepublishKeeps(JustLanded(w));
    }
  }

  lemma RepublishKeeps(w: World)
    requires Inv(w) && w.reader == Idle && w.replica.IsConnected() && (w.phase == Live || w.phase == Stopping)
    ensures Inv(Republished(w))
  {
    var view := w.replica.Current();
    FullSettles(w.replica.store.(stale := false), Replace(view), Reader, view);
    OneRequestFits(w.Queue(), Job(Replace(view), Reader), w.phase);
    PartialFits(w.Queue(), Job(Replace(view), Reader), Connected);
    assert Republished(w).replica.Current() == view;
  }

  lemma UnwoundFits(q: seq<Job>, i: nat, reader: ReaderPc, phase: Phase)
    requires i < |q| && ReaderFits(q, reader, phase) && (q[i].owner == Reader ==> phase == Stopping)
    ensures ReaderFits(q[..i] + q[i + 1..], reader, phase)
  {
    var r := q[..i] + q[i + 1..];
    forall k | 0 <= k < |r|
      ensures r[k] == q[if k < i then k else k + 1]
    {
    }
    forall k
      ensures Pending(r, k) <==> 0 <= k < |r| && Pending(q, if k < i then k else k + 1)
    {
    }
    if reader != Idle && phase != Stopping {
      var k :| Pending(q, k);
      assert Pending(r, if k < i then k else k - 1);
    }
  }

  lemma UnwoundBehind(q: seq<Job>, i: nat, away: Option<nat>, connState: ConnState)
    requires i < |q| && OnlyClearsBehind(q, away) && SetupFits(q, connState)
    ensures SetupFits(q[..i] + q[i + 1..], connState)
    ensures OnlyClearsBehind(q[..i] + q[i + 1..], if away.Some? && away.value > i then Some(away.value - 1) else away)
  {
    var r := q[..i] + q[i + 1..];
    forall k | 0 <= k < |r|
      ensures r[k] == q[if k < i then k else k + 1]
    {
    }
    if Waits(r, Setup) {
      var k :| 0 <= k < |r| && r[k].owner == Setup;
      assert q[if k < i then k else k + 1].owner == Setup;
    }
  }

  lemma StoreUnwinds(store: Store, i: nat, lands: bool, target: Option<Hash>, excused: bool)
    requires StoreFits(store, target, excused) && target.Some? && i < |store.queue| && store.queue[i].owner == Orphan
    ensures StoreFits(Unwound(store, i, lands), target, excused)
  {
    OrphanCoverStays(store.queue, i);
    if !excused {
      OrphanUnwinds(store, i, lands, target.value);
    }
  }

  lemma UnwindKeeps(w: World, s: Step)
    requires Inv(w) && Enabled(w, s) && s.Unwinds?
    ensures Inv(Apply(w, s))
  {
    var q, next := w.Queue(), AfterUnwinds(w, s.i, s.lands);
    UnwoundFits(q, s.i, w.reader, w.phase);
    UnwoundBehind(q, s.i, w.away, w.replica.connState);
    assert next.Queue() == q[..s.i] + q[s.i + 1..];
    assert Target(next) == Target(w) && Excused(next) == Excused(w);
    if Target(w).Some? {
      OnlyOrphansUnwind(w, s);
      StoreUnwinds(w.replica.store, s.i, s.lands, Target(w), Excused(w));
    }
  }

  /** Where the hash is settled a cancellation can only reach an orphan. */
  lemma OnlyOrphansUnwind(w: World, s: Step)
    requires PhasesFit(w.phase, w.replica.connState, w.fetch, w.reader, w.away)
    requires SetupFits(w.Queue(), w.replica.connState)
    requires Enabled(w, s) && s.Unwinds? && Target(w).Some?
    ensures w.Queue()[s.i].owner == Orphan
  {
    assert w.Queue()[s.i].owner == Setup ==> Waits(w.Queue(), Setup);
  }

  lemma StepKeeps(w: World, s: Step)
    requires Inv(w) && Enabled(w, s)
    ensures Inv(Apply(w, s))
  {
    match s
    case HaChanges(_, _) => HaKeeps(w, s);
    case HaAnswers(_) => HaKeeps(w, s);
    case Delivers => DeliveryKeeps(w);
    case GoesLive(_, _) => GoingLiveKeeps(w, s);
    case ReportsDrop => ClearKeeps(w, s);
    case AttemptFails(_) => ClearKeeps(w, s);
    case FinalClear => ClearKeeps(w, s);
    case StopEnds(_, _) => StopEndKeeps(w, s);
    case Heals(_) => HealKeeps(w, s);
    case RebuildsRooms(_) => RebuildKeeps(w, s);
    case Lands => LandingKeeps(w);
    case Fails(_) => FailureKeeps(w, s);
    case Unwinds(_, _) => UnwindKeeps(w, s);
    case _ => ConnectionKeeps(w, s);
  }

  lemma InitialHolds(w: World)
    requires Initial(w)
    ensures Inv(w)
  {
    assert w.Queue()[0..] == w.Queue();
    assert w.Queue()[1..] == [];
  }

  lemma ReachableHolds(w: World)
    requires Reachable(w)
    ensures Inv(w)
  {
    forall x | Initial(x)
      ensures Inv(x)
    {
      InitialHolds(x);
    }
    forall x, step | Inv(x) && Next(x, step).Some?
      ensures Inv(Next(x, step).value)
    {
      StepKeeps(x, step);
    }
    Runs.ReachableKeeps(Initial, Next, Inv, w);
  }

  lemma PhasesMove(w: World, s: Step)
    requires Enabled(w, s)
    ensures PhaseMove(w.phase, Apply(w, s).phase)
  {
  }

  // ----- Main results -----

  /** Live and neither dirty nor stale: once the pending writes land, the hash is
      the snapshot of the mirror, the catalog and the rooms. */
  lemma LiveIsInStep(w: World)
    requires Reachable(w) && w.phase == Live
    ensures w.replica.store.dirty || w.replica.store.stale ||
            Drain(w.Queue(), w.replica.store.hash) == w.replica.Current()
  {
    ReachableHolds(w);
  }

  /** Once the get_states reply is in place, the events still on their way bring
      the mirror to Home Assistant's current states, exactly so when no state
      string is empty. */
  lemma MirrorFollowsServer(w: World)
    requires Reachable(w) && w.fetch == Received
    ensures Agrees(Folded(w.frames, w.replica.states), w.server)
    ensures (forall id :: id in w.server ==> w.server[id].state != "") ==>
              Folded(w.frames, w.replica.states) == Faithful(w.server)
  {
    ReachableHolds(w);
    if forall id :: id in w.server ==> w.server[id].state != "" {
      AgreesExactly(Folded(w.frames, w.replica.states), w.server);
    }
  }

  predicate HoldsServed(w: World) {
    w.replica.catalog == w.served.catalog && w.replica.areas == w.served.areas
  }

  lemma StepHoldsServed(w: World, s: Step)
    requires HoldsServed(w) && Enabled(w, s)
    ensures HoldsServed(Apply(w, s))
  {
  }

  /** The catalog in use is the one get_services last answered, and the rooms in use
      are those of the last rebuild. */
  lemma ServedIsHeld(w: World)
    requires Reachable(w)
    ensures w.replica.catalog == w.served.catalog && w.replica.areas == w.served.areas
  {
    forall x, step | HoldsServed(x) && Next(x, step).Some?
      ensures HoldsServed(Next(x, step).value)
    {
      StepHoldsServed(x, step);
    }
    assert forall x :: Initial(x) ==> HoldsServed(x);
    Runs.ReachableKeeps(Initial, Next, HoldsServed, w);
  }

  /** What Alfred should read of an entity, in Home Assistant's own terms. */
  ghost predicate Shows(p: Placed, id: string, state: ServerState, served: Served) {
    && p.entry.entityId == id && p.entry.state == state.state
    && p.domain == Domain(id) && (p.kind == Controllable <==> Domain(id) in served.catalog)
    && (id in served.areas ==> "area" in p.entry.attributes && p.entry.attributes["area"] == Text(served.areas[id]))
    && (forall key :: key in p.entry.attributes && (key != "area" || id !in served.areas) ==>
          IsShown(key) && key in state.attributes && p.entry.attributes[key] == state.attributes[key])
    && (forall key :: key in state.attributes && IsShown(key) ==> key in p.entry.attributes)
  }

  lemma EntryShows(id: string, state: ServerState, served: Served)
    ensures Shows(BuildEntry(HAEntityState(id, state.state, state.attributes), served.catalog, served.areas), id, state,
                  served)
  {
    var s := HAEntityState(id, state.state, state.attributes);
    EntrySays(s, served.catalog, served.areas);
    forall key
      ensures var attributes := BuildEntry(s, served.catalog, served.areas).entry.attributes;
              var inRoom := key == "area" && id in served.areas;
              && (key in attributes <==> inRoom || (IsShown(key) && key in state.attributes))
              && (key in attributes && !inRoom ==> attributes[key] == state.attributes[key])
    {
      EntryAttributes(s, served.catalog, served.areas, key);
    }
  }

  /** Quiet, clean and live: the hash is Home Assistant itself. It holds every entity
      and no other, each with its state and shown attributes, controllable exactly if
      the catalog last served has its domain, in its room of the last rebuild. */
  lemma QuietHashIsHomeAssistant(w: World)
    requires Reachable(w) && w.phase == Live && w.frames == [] && w.Queue() == []
    requires !w.replica.store.dirty && !w.replica.store.stale
    requires forall id :: id in w.server ==> w.server[id].state != ""
    ensures w.replica.store.hash == View(Faithful(w.server), w.served.catalog, w.served.areas)
    ensures w.replica.store.hash.Keys == w.server.Keys
    ensures forall id :: id in w.server ==> Shows(w.replica.store.hash[id], id, w.server[id], w.served)
  {
    ReachableHolds(w);
    LiveIsInStep(w);
    MirrorFollowsServer(w);
    ServedIsHeld(w);
    forall id | id in w.server
      ensures Shows(w.replica.store.hash[id], id, w.server[id], w.served)
    {
      EntryShows(id, w.server[id], w.served);
    }
  }

  /** While Home Assistant is away nothing but clears is queued behind the
      disconnect's clear, so the hash is dirty or drains to empty. */
  lemma AwayIsCleared(w: World)
    requires Reachable(w) && w.away.Some?
    ensures w.away.value <= |w.Queue()|
    ensures forall i :: w.away.value <= i < |w.Queue()| ==> w.Queue()[i].write == Clear
    ensures w.replica.store.dirty || Drain(w.Queue(), w.replica.store.hash) == map[]
  {
    ReachableHolds(w);
  }

  /** Home Assistant counts as away from every drop, failed attempt or rejected
      token, at the clear it requests, until a state event, a connect or a stop. */
  lemma AwayLasts(w: World, s: Step)
    requires Enabled(w, s)
    ensures s.ReportsDrop? || s.AttemptFails? || s.FinalClear? ==>
              var next := Apply(w, s);
              next.away == Some(|w.Queue()|) && |w.Queue()| < |next.Queue()| && next.Queue()[|w.Queue()|].write == Clear
    ensures w.away.Some? && Apply(w, s).away.None? ==>
              s.GoesLive? || s.StopBegins? || (s.Delivers? && w.frames[0].Event? && w.frames[0].id != "")
  {
  }

  /** No write fails, the connection stays up and no room moves. */
  predicate Calm(w: World, s: Step) {
    && !s.Fails? && !s.SocketCloses? && !s.StopBegins?
    && (s.RebuildsRooms? ==> s.areas == w.replica.areas)
  }

  predicate AllCalm(w: World, steps: seq<Step>)
    decreases |steps|
  {
    steps == [] ||
    (Enabled(w, steps[0]) && Calm(w, steps[0]) && AllCalm(Apply(w, steps[0]), steps[1..]))
  }

  /** Live with an event being handled: clean by the time the reader is free. */
  ghost predicate Healing(w: World) {
    && Inv(w)
    && w.phase == Live
    && (w.reader == Idle ==> !w.replica.store.dirty && !w.replica.store.stale)
    && (w.reader == Republishing ==> !w.replica.store.stale)
  }

  function Due(w: World): nat {
    |w.Queue()| + if w.reader == OwnWriting then 1 else 0
  }

  lemma CalmLandingHeals(w: World)
    requires Healing(w) && Enabled(w, Lands)
    ensures Healing(Apply(w, Lands))
    ensures Apply(w, Lands).replica.Current() == w.replica.Current()
    ensures Due(Apply(w, Lands)) < Due(w)
  {
    StepKeeps(w, Lands);
    LandingIs(w);
    if w.Queue()[0].owner == Reader {
      assert Pending(w.Queue(), 0);
    }
  }

  /** The flags Healing speaks of, over a calm step that is not a landing. */
  lemma CalmFlags(w: World, s: Step)
    requires w.phase == Live && w.replica.connState == Connected && w.fetch == Received
    requires Enabled(w, s) && Calm(w, s) && !s.Lands?
    ensures var store, next := w.replica.store, Apply(w, s);
            && next.phase == Live && next.replica.store.dirty == store.dirty
            && (next.replica.store.stale ==> store.stale)
            && (next.reader == w.reader || next.reader == OwnWriting)
  {
  }

  lemma CalmHeals(w: World, s: Step)
    requires Healing(w) && Enabled(w, s) && Calm(w, s)
    ensures Healing(Apply(w, s))
  {
    if s.Lands? {
      CalmLandingHeals(w);
    } else {
      StepKeeps(w, s);
      CalmFlags(w, s);
    }
  }

  lemma {:induction false} CalmRunHeals(w: World, steps: seq<Step>)
    requires Healing(w) && AllCalm(w, steps)
    ensures Run(w, steps).Some? && Healing(Run(w, steps).value)
    decreases |steps|
  {
    if steps != [] {
      CalmHeals(w, steps[0]);
      CalmRunHeals(Apply(w, steps[0]), steps[1..]);
    }
  }

  /** One event heals: deliver a state event in any reachable live state; whatever
      calm steps follow, when the reader is free again the flags are down and the
      pending writes drain to the current view. */
  lemma OneEventHeals(w: World, steps: seq<Step>)
    requires Reachable(w) && w.phase == Live && Enabled(w, Delivers)
    requires w.frames[0].Event? && w.frames[0].id != ""
    requires AllCalm(Apply(w, Delivers), steps)
    ensures Run(w, [Delivers] + steps).Some?
    ensures var z := Run(w, [Delivers] + steps).value;
            z.reader == Idle ==>
              && !z.replica.store.dirty && !z.replica.store.stale
              && Drain(z.Queue(), z.replica.store.hash) == z.replica.Current()
  {
    ReachableHolds(w);
    StepKeeps(w, Delivers);
    CalmRunHeals(Apply(w, Delivers), steps);
    assert ([Delivers] + steps)[1..] == steps;
  }

  /** The head of the queue goes as it must: an orphan unwinds, its write landing
      or not; any other write lands. */
  predicate HeadGoes(w: World, s: Step) {
    w.Queue() != [] && if w.Queue()[0].owner == Orphan then s.Unwinds? && s.i == 0 else s == Lands
  }

  predicate HeadsGo(w: World, steps: seq<Step>)
    decreases |steps|
  {
    steps == [] ||
    (HeadGoes(w, steps[0]) && Enabled(w, steps[0]) && HeadsGo(Apply(w, steps[0]), steps[1..]))
  }

  lemma HeadCanGo(w: World, s: Step)
    requires w.phase == Live && HeadGoes(w, s)
    ensures Enabled(w, s)
  {
  }

  lemma HeadHeals(w: World, s: Step)
    requires Healing(w) && HeadGoes(w, s) && Enabled(w, s)
    ensures Healing(Apply(w, s)) && Due(Apply(w, s)) < Due(w)
    ensures Apply(w, s).replica.Current() == w.replica.Current()
  {
    if s == Lands {
      CalmLandingHeals(w);
    } else {
      StepKeeps(w, s);
    }
  }

  lemma EmptyHeals(w: World)
    requires Healing(w) && w.Queue() == []
    ensures w.reader == Idle && !w.replica.store.dirty && !w.replica.store.stale
    ensures w.replica.store.hash == w.replica.Current()
  {
    assert forall i :: !Pending(w.Queue(), i);
  }

  ghost predicate HealedTo(z: World, view: Hash) {
    && z.Queue() == [] && z.reader == Idle
    && !z.replica.store.dirty && !z.replica.store.stale
    && z.replica.store.hash == z.replica.Current() == view
  }

  /** As the heads go, the reader is done after at most one follow-up replace, and
      an empty queue leaves the hash equal to the current view. */
  lemma {:induction false} HeadsHeal(w: World, steps: seq<Step>)
    requires Healing(w) && HeadsGo(w, steps)
    ensures |steps| <= Due(w) && Run(w, steps).Some? && Run(w, steps).value.phase == Live
    ensures var z := Run(w, steps).value;
            z.Queue() == [] ==> HealedTo(z, w.replica.Current())
    decreases |steps|
  {
    if steps == [] {
      if w.Queue() == [] { EmptyHeals(w); }
    } else {
      HeadHeals(w, steps[0]);
      HeadsHeal(Apply(w, steps[0]), steps[1..]);
    }
  }

  /** One event, and from then on every write lands: in whatever order orphans
      unwind, at most its own write and one replace join what was pending; while
      anything is pending the head can go, and once nothing is, the hash is clean
      and equal to the view. */
  lemma EventAndLandingsHeal(w: World, steps: seq<Step>)
    requires Reachable(w) && w.phase == Live && Enabled(w, Delivers)
    requires w.frames[0].Event? && w.frames[0].id != ""
    requires HeadsGo(Apply(w, Delivers), steps)
    ensures |steps| <= |w.Queue()| + 2 && Run(Apply(w, Delivers), steps).Some?
    ensures var z := Run(Apply(w, Delivers), steps).value;
            && (z.Queue() == [] ==> HealedTo(z, Apply(w, Delivers).replica.Current()))
            && (forall s :: HeadGoes(z, s) ==> Enabled(z, s))
  {
    ReachableHolds(w);
    StepKeeps(w, Delivers);
    HeadsHeal(Apply(w, Delivers), steps);
    var z := Run(Apply(w, Delivers), steps).value;
    forall s | HeadGoes(z, s)
      ensures Enabled(z, s)
    {
      HeadCanGo(z, s);
    }
  }

  /** A write that clears the dirty flag and stays out of reach of an early stop,
      unless no stop ends early. */
  predicate HealsHash(j: Job, noneEarly: bool) {
    IsFull(j.write) && j.owner != Orphan && (j.owner == Refresh ==> noneEarly)
  }

  /** While dirty such a write is still to land. */
  ghost predicate HealDue(s: Store, noneEarly: bool) {
    s.dirty ==> exists i :: 0 <= i < |s.queue| && HealsHash(s.queue[i], noneEarly)
  }

  /** No write fails, and none that replaces or clears the hash is cancelled but
      those of refreshes that an early stop left unwinding. */
  predicate HealLands(w: World, s: Step, noneEarly: bool) {
    && !s.Fails?
    && (s.Unwinds? && s.i < |w.Queue()| ==> w.Queue()[s.i].owner == Orphan || !IsFull(w.Queue()[s.i].write))
    && (s.StopEnds? && s.early ==> !noneEarly)
  }

  predicate AllHealsLand(w: World, steps: seq<Step>, noneEarly: bool)
    decreases |steps|
  {
    steps == [] ||
    (Enabled(w, steps[0]) && HealLands(w, steps[0], noneEarly) &&
     AllHealsLand(Apply(w, steps[0]), steps[1..], noneEarly))
  }

  /** Only the writer takes writes off the queue. */
  lemma RequestsOnlyGrow(w: World, s: Step)
    requires Enabled(w, s) && !s.Lands? && !s.Fails? && !s.Unwinds?
    ensures Apply(w, s).replica.store.dirty == w.replica.store.dirty
    ensures if s.StopEnds? && s.early then Apply(w, s).Queue() == Orphaned(w.Queue())
            else w.Queue() <= Apply(w, s).Queue()
  {
    match s
    case Delivers => assert w.Queue() <= AfterDelivers(w).Queue();
    case GoesLive(c, r) => assert w.Queue() <= WentLive(w.replica, c, r).store.queue;
    case Heals(o) => assert w.Queue() <= Apply(w, s).Queue();
    case _ =>
  }

  lemma GrownStaysDue(s: Store, next: Store, noneEarly: bool)
    requires HealDue(s, noneEarly) && next.dirty == s.dirty
    requires s.queue <= next.queue || (!noneEarly && next.queue == Orphaned(s.queue))
    ensures HealDue(next, noneEarly)
  {
    if next.dirty {
      var i :| 0 <= i < |s.queue| && HealsHash(s.queue[i], noneEarly);
      assert next.queue[i] == s.queue[i];
    }
  }

  lemma UnwoundStaysDue(s: Store, i: nat, lands: bool, noneEarly: bool)
    requires HealDue(s, noneEarly) && i < |s.queue| && (s.queue[i].owner == Orphan || !IsFull(s.queue[i].write))
    ensures HealDue(Unwound(s, i, lands), noneEarly)
  {
    if s.dirty {
      var k :| 0 <= k < |s.queue| && HealsHash(s.queue[k], noneEarly);
      assert Unwound(s, i, lands).queue[if k < i then k else k - 1] == s.queue[k];
    }
  }

  lemma LandedStaysDue(s: Store, noneEarly: bool)
    requires s.queue != [] && HealDue(s, noneEarly)
    ensures HealDue(Landed(s), noneEarly)
  {
    if Landed(s).dirty {
      var i :| 0 <= i < |s.queue| && HealsHash(s.queue[i], noneEarly);
      assert s.queue[1..][i - 1] == s.queue[i];
    }
  }

  lemma OwnLandedStaysDue(s: Store, connected: bool, view: Hash, noneEarly: bool)
    requires s.queue != [] && HealDue(s, noneEarly)
    ensures HealDue(OwnLanded(s, connected, view), noneEarly)
  {
    LandedStaysDue(s, noneEarly);
    var next := OwnLanded(s, connected, view);
    if next != Landed(s) {
      assert HealsHash(next.queue[|s.queue| - 1], noneEarly);
    }
  }

  lemma LandingStaysDue(w: World, noneEarly: bool)
    requires Enabled(w, Lands) && HealDue(w.replica.store, noneEarly)
    ensures HealDue(Apply(w, Lands).replica.store, noneEarly)
  {
    LandedStaysDue(w.replica.store, noneEarly);
    OwnLandedStaysDue(w.replica.store, w.replica.IsConnected(), w.replica.Current(), noneEarly);
  }

  lemma StepStaysDue(w: World, s: Step, noneEarly: bool)
    requires Enabled(w, s) && HealLands(w, s, noneEarly) && HealDue(w.replica.store, noneEarly)
    ensures HealDue(Apply(w, s).replica.store, noneEarly)
  {
    if s.Lands? {
      LandingStaysDue(w, noneEarly);
    } else if s.Unwinds? {
      UnwoundStaysDue(w.replica.store, s.i, s.lands, noneEarly);
    } else {
      RequestsOnlyGrow(w, s);
      GrownStaysDue(w.replica.store, Apply(w, s).replica.store, noneEarly);
    }
  }

  lemma {:induction false} HealStaysDue(w: World, steps: seq<Step>, noneEarly: bool)
    requires HealDue(w.replica.store, noneEarly) && AllHealsLand(w, steps, noneEarly)
    ensures Run(w, steps).Some? && HealDue(Run(w, steps).value.replica.store, noneEarly)
    decreases |steps|
  {
    if steps != [] {
      StepStaysDue(w, steps[0], noneEarly);
      HealStaysDue(Apply(w, steps[0]), steps[1..], noneEarly);
    }
  }

  lemma DrainedAndClean(z: World, noneEarly: bool)
    requires Inv(z) && HealDue(z.replica.store, noneEarly)
    ensures z.Queue() == [] ==>
              && !z.replica.store.dirty
              && (z.away.Some? ==> z.replica.store.hash == map[])
              && (z.phase == Live && !z.replica.store.stale ==> z.replica.store.hash == z.replica.Current())
  {
  }

  /** What the hook requests on a dirty hash. */
  lemma HealRequests(w: World, o: Owner)
    requires Enabled(w, Heals(o)) && w.replica.store.dirty
    ensures var healed := Apply(w, Heals(o));
            && healed.Queue() == w.Queue() + [healed.Queue()[|w.Queue()|]]
            && healed.Queue()[|w.Queue()|] ==
               Job(if w.replica.IsConnected() then Replace(w.replica.Current()) else Clear, o)
    ensures HealDue(Apply(w, Heals(o)).replica.store, o == Refresh)
  {
    assert HealsHash(Apply(w, Heals(o)).Queue()[|w.Queue()|], o == Refresh);
  }

  /** A landed registration alone heals: its hook requests a replace when connected
      and a clear otherwise. Whatever follows without a failure, with orphans
      unwinding either way, once nothing is pending the hash is clean, and empty if
      Home Assistant stayed away. A refresh's own heal needs that no stop ends early
      and leaves it unwinding. */
  lemma RegistrationHeals(w: World, o: Owner, steps: seq<Step>)
    requires Reachable(w) && Enabled(w, Heals(o)) && w.replica.store.dirty
    requires AllHealsLand(Apply(w, Heals(o)), steps, o == Refresh)
    ensures Apply(w, Heals(o)).Queue() ==
            w.Queue() + [Job(if w.replica.IsConnected() then Replace(w.replica.Current()) else Clear, o)]
    ensures Run(Apply(w, Heals(o)), steps).Some?
    ensures var z := Run(Apply(w, Heals(o)), steps).value;
            z.Queue() == [] ==>
              && !z.replica.store.dirty
              && (z.away.Some? ==> z.replica.store.hash == map[])
              && (z.phase == Live && !z.replica.store.stale ==> z.replica.store.hash == z.replica.Current())
  {
    HealRequests(w, o);
    HealedRuns(w, o, steps);
    DrainedAndClean(Run(Apply(w, Heals(o)), steps).value, o == Refresh);
  }

  lemma HealedRuns(w: World, o: Owner, steps: seq<Step>)
    requires Reachable(w) && Enabled(w, Heals(o)) && AllHealsLand(Apply(w, Heals(o)), steps, o == Refresh)
    requires HealDue(Apply(w, Heals(o)).replica.store, o == Refresh)
    ensures Run(Apply(w, Heals(o)), steps).Some?
    ensures var z := Run(Apply(w, Heals(o)), steps).value; Inv(z) && HealDue(z.replica.store, o == Refresh)
  {
    var healed := Apply(w, Heals(o));
    HealStaysDue(healed, steps, o == Refresh);
    var _ := Runs.Reach(Initial, Next, w, Heals(o));
    Runs.RunsOn(Initial, Next, healed, steps);
    ReachableHolds(Run(healed, steps).value);
  }
}
