/** Alfred's live state (app/live_state.py): the one entry builder, the snapshot
    built from it, and the publisher that keeps the Redis hash in step.

    A write is requested in one await-free segment and lands, fails or is
    cancelled in another; the functions on Store are those segments, and
    LiveStatePublisher's methods are proved to perform them in place. */
module LiveState {
  import opened Basics
  import opened Mirror
  import opened EntityIndex

  datatype Kind = Controllable | Sensor
  datatype ContextEntry = ContextEntry(entityId: string, state: string, attributes: map<string, Json>)

  /** An entry together with where it belongs. */
  datatype Placed = Placed(domain: string, kind: Kind, entry: ContextEntry)

  type Buckets = map<string, seq<ContextEntry>>
  datatype ContextSnapshot = ContextSnapshot(controllable: Buckets, sensors: Buckets)

  /** The live-state hash: what Alfred reads, by entity id. */
  type Hash = map<string, Placed>

  const CONTEXT_ATTR_ALLOWLIST: set<string> :=
    {"friendly_name", "device_class", "brightness", "current_temperature",
     "temperature", "media_title", "battery_level", "unit_of_measurement"}

  function BuildEntry(state: HAEntityState, catalog: set<string>, areas: Areas): Placed {
    var domain := Domain(state.entityId);
    var kind := if domain in catalog then Controllable else Sensor;
    var kept := map k | k in state.attributes && k in CONTEXT_ATTR_ALLOWLIST :: state.attributes[k];
    var attributes := if state.entityId in areas then kept["area" := Text(areas[state.entityId])] else kept;
    Placed(domain, kind, ContextEntry(state.entityId, state.state, attributes))
  }

  /** build_entry applied to every state: what the hash should hold. */
  function View(states: States, catalog: set<string>, areas: Areas): Hash {
    map id | id in states :: BuildEntry(states[id], catalog, areas)
  }

  /** The eight attributes that reach Alfred beside the room. */
  predicate IsShown(key: string) {
    key == "friendly_name" || key == "device_class" || key == "brightness" || key == "current_temperature" ||
    key == "temperature" || key == "media_title" || key == "battery_level" || key == "unit_of_measurement"
  }

  /** An entry is the entity's own id and state, filed under the text before the id's
      first dot, controllable exactly if Home Assistant offers services for that. */
  lemma EntrySays(state: HAEntityState, catalog: set<string>, areas: Areas)
    ensures var p := BuildEntry(state, catalog, areas);
            && p.entry.entityId == state.entityId && p.entry.state == state.state
            && '.' !in p.domain && (p.domain == state.entityId || p.domain + "." <= state.entityId)
            && (p.kind == Controllable <==> p.domain in catalog) && (p.kind == Sensor <==> p.domain !in catalog)
  {
    IdSplits(state.entityId);
  }

  /** Only the shown attributes and the room reach Alfred, unchanged; a room
      overrides an attribute of its name. */
  lemma EntryAttributes(state: HAEntityState, catalog: set<string>, areas: Areas, key: string)
    ensures var attributes := BuildEntry(state, catalog, areas).entry.attributes;
            var inRoom := key == "area" && state.entityId in areas;
            && (key in attributes <==> inRoom || (IsShown(key) && key in state.attributes))
            && (inRoom ==> attributes[key] == Text(areas[state.entityId]))
            && (key in attributes && !inRoom ==> attributes[key] == state.attributes[key])
  {
  }

  /** Comparing room maps detects exactly the changes a snapshot of these
      entities could show. */
  lemma ViewShowsRooms(states: States, catalog: set<string>, was: Areas, now: Areas)
    requires Keyed(states)
    ensures View(states, catalog, was) == View(states, catalog, now) <==>
            forall id :: id in states ==> Lookup(was, id) == Lookup(now, id)
  {
    var a, b := View(states, catalog, was), View(states, catalog, now);
    if a == b {
      forall id | id in states
        ensures Lookup(was, id) == Lookup(now, id)
      {
        var x, y := a[id].entry.attributes, b[id].entry.attributes;
        assert x == y;
        EntryAttributes(states[id], catalog, was, "area");
        EntryAttributes(states[id], catalog, now, "area");
        assert id in was ==> x["area"] == Text(was[id]);
        assert id in now ==> y["area"] == Text(now[id]);
      }
    } else {
      assert a.Keys == b.Keys;
      var id :| id in states && a[id] != b[id];
      assert Lookup(was, id) != Lookup(now, id);
    }
  }

  // ----- The snapshot -----

  function Group(snapshot: ContextSnapshot, kind: Kind): Buckets {
    if kind == Controllable then snapshot.controllable else snapshot.sensors
  }

  /** The snapshot holds this entry in this bucket. */
  predicate Places(snapshot: ContextSnapshot, p: Placed) {
    var group := Group(snapshot, p.kind);
    p.domain in group && p.entry in group[p.domain]
  }

  function EntryId(e: ContextEntry): string {
    e.entityId
  }

  /** Every entity's built entry sits in its own kind and domain and nowhere
      else, once (ids ascend strictly), and no bucket is empty. */
  ghost predicate IsSnapshot(snapshot: ContextSnapshot, states: States, catalog: set<string>, areas: Areas) {
    && (forall p :: Places(snapshot, p) <==>
          p.entry.entityId in states && p == BuildEntry(states[p.entry.entityId], catalog, areas))
    && (forall kind, d :: d in Group(snapshot, kind) ==>
          OrderedBy(Group(snapshot, kind)[d], EntryId) && Group(snapshot, kind)[d] != [])
  }

  /** bucket.setdefault(domain, []).append(entry) */
  function Filed(buckets: Buckets, domain: string, entry: ContextEntry): Buckets {
    buckets[domain := (if domain in buckets then buckets[domain] else []) + [entry]]
  }

  /** The states named by these ids. */
  function Part(states: States, ids: seq<string>): States {
    map id | id in ids && id in states :: states[id]
  }

  function Added(snapshot: ContextSnapshot, p: Placed): ContextSnapshot {
    if p.kind == Controllable
    then snapshot.(controllable := Filed(snapshot.controllable, p.domain, p.entry))
    else snapshot.(sensors := Filed(snapshot.sensors, p.domain, p.entry))
  }

  lemma AddedPlaces(snapshot: ContextSnapshot, added: Placed, p: Placed)
    ensures Places(Added(snapshot, added), p) <==> p == added || Places(snapshot, p)
  {
    var group := Group(snapshot, added.kind);
    if p.kind == added.kind && p.domain == added.domain {
      assert Group(Added(snapshot, added), p.kind)[p.domain] ==
             (if p.domain in group then group[p.domain] else []) + [added.entry];
    }
  }

  lemma AddedInOrder(snapshot: ContextSnapshot, added: Placed, kind: Kind, d: string)
    requires d in Group(Added(snapshot, added), kind)
    requires d in Group(snapshot, kind) ==>
              OrderedBy(Group(snapshot, kind)[d], EntryId) && Group(snapshot, kind)[d] != []
    requires forall p :: Places(snapshot, p) ==> StrLt(p.entry.entityId, added.entry.entityId)
    ensures OrderedBy(Group(Added(snapshot, added), kind)[d], EntryId) && Group(Added(snapshot, added), kind)[d] != []
  {
    if kind == added.kind && d == added.domain {
      var before := if d in Group(snapshot, kind) then Group(snapshot, kind)[d] else [];
      assert Group(Added(snapshot, added), kind)[d] == before + [added.entry];
      forall i | 0 <= i < |before|
        ensures StrLt(before[i].entityId, added.entry.entityId)
      {
        assert Places(snapshot, Placed(d, kind, before[i]));
      }
    } else {
      assert Group(Added(snapshot, added), kind)[d] == Group(snapshot, kind)[d];
    }
  }

  /** Adding the next entity in id order extends the snapshot by exactly it. */
  lemma AddedKeeps(snapshot: ContextSnapshot, states: States, catalog: set<string>, areas: Areas, ids: seq<string>,
                   i: nat)
    requires Keyed(states) && Ascending(ids) && i < |ids| && ids[i] in states
    requires IsSnapshot(snapshot, Part(states, ids[..i]), catalog, areas)
    ensures IsSnapshot(Added(snapshot, BuildEntry(states[ids[i]], catalog, areas)), Part(states, ids[..i + 1]),
                       catalog, areas)
  {
    var added := BuildEntry(states[ids[i]], catalog, areas);
    var was, now := Part(states, ids[..i]), Part(states, ids[..i + 1]);
    assert now == was[ids[i] := states[ids[i]]];
    forall p
      ensures Places(Added(snapshot, added), p) <==> p == added || Places(snapshot, p)
    {
      AddedPlaces(snapshot, added, p);
    }
    forall p | Places(snapshot, p)
      ensures StrLt(p.entry.entityId, added.entry.entityId)
    {
      var k :| 0 <= k < i && ids[k] == p.entry.entityId;
    }
    forall kind, d | d in Group(Added(snapshot, added), kind)
      ensures OrderedBy(Group(Added(snapshot, added), kind)[d], EntryId) && Group(Added(snapshot, added), kind)[d] != []
    {
      AddedInOrder(snapshot, added, kind, d);
    }
  }

  /** The snapshot in the house's own terms: these entities, each under its domain
      with its own state, on the controllable side exactly if the catalog has its
      domain. */
  ghost predicate Says(snapshot: ContextSnapshot, states: States, catalog: set<string>) {
    && (forall d, e :: Lies(snapshot.controllable, d, e) ==> d in catalog && OwnState(states, d, e))
    && (forall d, e :: Lies(snapshot.sensors, d, e) ==> d !in catalog && OwnState(states, d, e))
    && (forall id :: id in states && Domain(id) in catalog ==> Holds(snapshot.controllable, id))
    && (forall id :: id in states && Domain(id) !in catalog ==> Holds(snapshot.sensors, id))
  }

  predicate Lies(buckets: Buckets, d: string, e: ContextEntry) {
    d in buckets && e in buckets[d]
  }

  predicate OwnState(states: States, d: string, e: ContextEntry) {
    d == Domain(e.entityId) && e.entityId in states && e.state == states[e.entityId].state
  }

  ghost predicate Holds(buckets: Buckets, id: string) {
    exists e :: Lies(buckets, Domain(id), e) && e.entityId == id
  }

  lemma SnapshotSays(snapshot: ContextSnapshot, states: States, catalog: set<string>, areas: Areas)
    requires Keyed(states) && IsSnapshot(snapshot, states, catalog, areas)
    ensures Says(snapshot, states, catalog)
  {
    forall d, e | Lies(snapshot.controllable, d, e)
      ensures d in catalog && OwnState(states, d, e)
    {
      assert Places(snapshot, Placed(d, Controllable, e));
    }
    forall d, e | Lies(snapshot.sensors, d, e)
      ensures d !in catalog && OwnState(states, d, e)
    {
      assert Places(snapshot, Placed(d, Sensor, e));
    }
    forall id | id in states
      ensures Domain(id) in catalog ==> Holds(snapshot.controllable, id)
      ensures Domain(id) !in catalog ==> Holds(snapshot.sensors, id)
    {
      var p := BuildEntry(states[id], catalog, areas);
      assert Places(snapshot, p);
      assert Lies(Group(snapshot, p.kind), Domain(id), p.entry);
    }
  }

  method BuildSnapshot(states: States, catalog: set<string>, areas: Areas) returns (snapshot: ContextSnapshot)
    requires Keyed(states)
    ensures IsSnapshot(snapshot, states, catalog, areas) && Says(snapshot, states, catalog)
  {
    var controllable: Buckets, sensors: Buckets := map[], map[];
    var ids := SortedIds(states.Keys);
    for i := 0 to |ids|
      invariant IsSnapshot(ContextSnapshot(controllable, sensors), Part(states, ids[..i]), catalog, areas)
    {
      var p := BuildEntry(states[ids[i]], catalog, areas);
      AddedKeeps(ContextSnapshot(controllable, sensors), states, catalog, areas, ids, i);
      if p.kind == Controllable {
        controllable := Filed(controllable, p.domain, p.entry);
      } else {
        sensors := Filed(sensors, p.domain, p.entry);
      }
    }
    assert Part(states, ids[..|ids|]) == states;
    snapshot := ContextSnapshot(controllable, sensors);
    SnapshotSays(snapshot, states, catalog, areas);
  }

  /** Only one snapshot fits a given set of states. */
  lemma SnapshotUnique(a: ContextSnapshot, b: ContextSnapshot, states: States, catalog: set<string>, areas: Areas)
    requires IsSnapshot(a, states, catalog, areas) && IsSnapshot(b, states, catalog, areas)
    ensures a == b
  {
    forall kind, d
      ensures d in Group(a, kind) <==> d in Group(b, kind)
      ensures d in Group(a, kind) ==> Group(a, kind)[d] == Group(b, kind)[d]
    {
      if d in Group(a, kind) {
        assert Places(a, Placed(d, kind, Group(a, kind)[d][0]));
      }
      if d in Group(b, kind) {
        assert Places(b, Placed(d, kind, Group(b, kind)[d][0]));
      }
      if d in Group(a, kind) && d in Group(b, kind) {
        var x, y := Group(a, kind)[d], Group(b, kind)[d];
        forall e
          ensures e in x <==> e in y
        {
          assert e in x <==> Places(a, Placed(d, kind, e));
          assert e in y <==> Places(b, Placed(d, kind, e));
        }
        SortedEqual(x, y);
      }
    }
    assert Group(a, Controllable) == Group(b, Controllable);
    assert Group(a, Sensor) == Group(b, Sensor);
  }

  lemma {:induction false} SortedEqual(x: seq<ContextEntry>, y: seq<ContextEntry>)
    requires OrderedBy(x, EntryId) && OrderedBy(y, EntryId)
    requires forall e :: e in x <==> e in y
    ensures x == y
  {
    assert y != [] ==> y[0] in x;
    assert x != [] ==> x[0] in y;
    if x != [] && y != [] {
      var j :| 0 <= j < |y| && y[j] == x[0];
      var i :| 0 <= i < |x| && x[i] == y[0];
      if j > 0 {
        assert StrLt(y[0].entityId, x[0].entityId);
        if i > 0 { StrLeAntisymmetric(x[0].entityId, y[0].entityId); }
        assert false;
      }
      forall e
        ensures e in x[1..] <==> e in y[1..]
      {
        if e in x[1..] {
          var k :| 1 <= k < |x| && x[k] == e;
          assert e in x && e != x[0];
          assert e in y;
        }
        if e in y[1..] {
          var k :| 1 <= k < |y| && y[k] == e;
          assert e in y && e != y[0];
          assert e in x;
        }
      }
      SortedEqual(x[1..], y[1..]);
    }
  }

  /** What a replace leaves in the hash: every entry the snapshot holds, by id. */
  ghost predicate IsFlattened(snapshot: ContextSnapshot, hash: Hash) {
    && (forall id :: id in hash ==> hash[id].entry.entityId == id && Places(snapshot, hash[id]))
    && (forall p :: Places(snapshot, p) ==> p.entry.entityId in hash && hash[p.entry.entityId] == p)
  }

  /** A replace with a snapshot leaves exactly build_entry applied to each state. */
  lemma SnapshotFlattensToView(snapshot: ContextSnapshot, hash: Hash, states: States, catalog: set<string>,
                               areas: Areas)
    requires Keyed(states) && IsSnapshot(snapshot, states, catalog, areas)
    ensures IsFlattened(snapshot, hash) <==> hash == View(states, catalog, areas)
  {
    var view := View(states, catalog, areas);
    if IsFlattened(snapshot, hash) {
      forall id
        ensures id in hash <==> id in view
        ensures id in hash ==> hash[id] == view[id]
      {
        if id in view {
          assert Places(snapshot, view[id]);
        }
      }
      assert hash.Keys == view.Keys;
    }
  }

  /** Snapshot then update is the snapshot of the updated states. */
  lemma ViewOfApplied(states: States, catalog: set<string>, areas: Areas, id: string, now: Option<ServerState>)
    requires id != ""
    ensures View(Applied(states, id, now), catalog, areas) ==
            Effect(OwnWrite(Applied(states, id, now), catalog, areas, id), View(states, catalog, areas))
  {
    var applied := Applied(states, id, now);
    var left := View(applied, catalog, areas);
    var right := Effect(OwnWrite(applied, catalog, areas, id), View(states, catalog, areas));
    assert left.Keys == right.Keys;
  }

  // ----- Writes -----

  datatype Write = Replace(full: Hash) | Update(placed: Placed) | Remove(id: string) | Clear

  /** Who awaits a write. Orphan: a task whose cancellation was requested
      but which nobody waited for. */
  datatype Owner = Reader | Setup | Refresh | Runner | Retry | Lifespan | Orphan

  datatype Job = Job(write: Write, owner: Owner)

  function Effect(w: Write, hash: Hash): Hash {
    match w
    case Replace(full) => full
    case Update(p) => hash[p.entry.entityId := p]
    case Remove(id) => hash - {id}
    case Clear => map[]
  }

  predicate IsFull(w: Write) {
    w.Replace? || w.Clear?
  }

  /** The hash once every pending write has landed, first in first out. */
  function Drain(queue: seq<Job>, hash: Hash): Hash
    decreases |queue|
  {
    if queue == [] then hash else Drain(queue[1..], Effect(queue[0].write, hash))
  }

  /** The write that a state event requests for its own entity. */
  function OwnWrite(states: States, catalog: set<string>, areas: Areas, id: string): Write {
    if id in states then Update(BuildEntry(states[id], catalog, areas)) else Remove(id)
  }

  // ----- The publisher's segments -----

  /** The publisher's flags, the writes pending on the FIFO writer, and Redis. */
  datatype Store = Store(dirty: bool, stale: bool, queue: seq<Job>, hash: Hash)

  function Request(s: Store, w: Write, o: Owner): Store {
    s.(queue := s.queue + [Job(w, o)])
  }

  /** publish() up to its await. */
  function Publish(s: Store, view: Hash, o: Owner): Store {
    Request(s.(stale := false), Replace(view), o)
  }

  /** heal() up to its await. */
  function Heal(s: Store, connected: bool, view: Hash, o: Owner): Store {
    if !s.dirty then s
    else if connected then Publish(s, view, o)
    else Request(s, Clear, o)
  }

  /** The head write lands: a full one clears dirty. */
  function Landed(s: Store): Store
    requires s.queue != []
  {
    s.(queue := s.queue[1..],
       hash := Effect(s.queue[0].write, s.hash),
       dirty := s.dirty && !IsFull(s.queue[0].write))
  }

  /** A state event's own write lands; a dirty or stale hash is then republished. */
  function OwnLanded(s: Store, connected: bool, view: Hash): Store
    requires s.queue != []
  {
    var landed := Landed(s);
    if (landed.dirty || landed.stale) && connected then Publish(landed, view, Reader) else landed
  }

  /** The head write fails; it may still have taken effect. */
  function Failed(s: Store, tookEffect: bool): Store
    requires s.queue != []
  {
    s.(queue := s.queue[1..],
       hash := if tookEffect then Effect(s.queue[0].write, s.hash) else s.hash,
       dirty := true)
  }

  /** A pending write's task is cancelled: the write leaves the queue, and one
      already at the head may land. No flag changes. */
  function Unwound(s: Store, i: nat, lands: bool): Store
    requires i < |s.queue|
  {
    s.(queue := s.queue[..i] + s.queue[i + 1..],
       hash := if lands then Effect(s.queue[i].write, s.hash) else s.hash)
  }

  // ----- The same segments, in place -----

  /** The SDK's writer as the publisher sees it: a FIFO of pending writes and Redis. */
  class LiveStateWriter {
    var queue: seq<Job>
    var hash: Hash

    constructor (hash: Hash)
      ensures this.queue == [] && this.hash == hash
    {
      this.queue, this.hash := [], hash;
    }

    method Request(w: Write, o: Owner)
      modifies this`queue
      ensures queue == old(queue) + [Job(w, o)]
    {
      queue := queue + [Job(w, o)];
    }

    method Land()
      requires queue != []
      modifies this
      ensures queue == old(queue)[1..] && hash == Effect(old(queue)[0].write, old(hash))
    {
      hash := Effect(queue[0].write, hash);
      queue := queue[1..];
    }

    method Drop()
      requires queue != []
      modifies this`queue
      ensures queue == old(queue)[1..]
    {
      queue := queue[1..];
    }
  }

  /** What the publisher reads of HAConnection and EntityIndex. */
  class HouseView {
    const mirror: StateMirror
    const index: Index
    var catalog: set<string>
    var connState: ConnState

    constructor (mirror: StateMirror, index: Index)
      ensures this.mirror == mirror && this.index == index && catalog == {} && connState == Disconnected
    {
      this.mirror, this.index := mirror, index;
      catalog, connState := {}, Disconnected;
    }

    ghost function Current(): Hash
      reads this, mirror, index
    {
      View(mirror.states, catalog, index.areas)
    }
  }

  class LiveStatePublisher {
    const writer: LiveStateWriter
    const house: HouseView
    var dirty: bool
    var stale: bool

    constructor (writer: LiveStateWriter, house: HouseView)
      ensures this.writer == writer && this.house == house && !dirty && !stale
    {
      this.writer, this.house := writer, house;
      dirty, stale := false, false;
    }

    ghost function Model(): Store
      reads this, writer
    {
      Store(dirty, stale, writer.queue, writer.hash)
    }

    method MarkStale()
      modifies this`stale
      ensures Model() == old(Model()).(stale := true)
    {
      if !stale {
        stale := true;
      }
    }

    method StartPublish(o: Owner) returns (snapshot: ContextSnapshot)
      requires Keyed(house.mirror.states)
      modifies this`stale, writer`queue
      ensures IsSnapshot(snapshot, house.mirror.states, house.catalog, house.index.areas)
      ensures IsFlattened(snapshot, house.Current())
      ensures Model() == Publish(old(Model()), house.Current(), o)
    {
      snapshot := BuildSnapshot(house.mirror.states, house.catalog, house.index.areas);
      stale := false;
      var full := View(house.mirror.states, house.catalog, house.index.areas);
      SnapshotFlattensToView(snapshot, full, house.mirror.states, house.catalog, house.index.areas);
      writer.Request(Replace(full), o);
    }

    method StartClear(o: Owner)
      modifies writer`queue
      ensures Model() == Request(old(Model()), Clear, o)
    {
      writer.Request(Clear, o);
    }

    method StartHeal(o: Owner)
      requires Keyed(house.mirror.states)
      modifies this`stale, writer`queue
      ensures Model() == Heal(old(Model()), house.connState == Connected, house.Current(), o)
    {
      if !dirty {
        return;
      }
      if house.connState == Connected {
        var _ := StartPublish(o);
      } else {
        StartClear(o);
      }
    }

    /** on_state_changed up to its first await. */
    method OnStateChanged(id: string)
      modifies writer`queue
      ensures Model() ==
              Request(old(Model()), OwnWrite(house.mirror.states, house.catalog, house.index.areas, id), Reader)
    {
      var states := house.mirror.states;
      if id !in states {
        writer.Request(Remove(id), Reader);
      } else {
        var placed := BuildEntry(states[id], house.catalog, house.index.areas);
        writer.Request(Update(placed), Reader);
      }
    }

    /** on_state_changed after its own write landed. */
    method OwnWriteLands()
      requires writer.queue != [] && !IsFull(writer.queue[0].write)
      requires Keyed(house.mirror.states)
      modifies this`stale, writer
      ensures Model() == OwnLanded(old(Model()), house.connState == Connected, house.Current())
    {
      writer.Land();
      if (dirty || stale) && house.connState == Connected {
        var _ := StartPublish(Reader);
      }
    }

    /** publish() or clear() after its write landed. */
    method FullWriteLands()
      requires writer.queue != [] && IsFull(writer.queue[0].write)
      modifies this`dirty, writer
      ensures Model() == Landed(old(Model()))
    {
      writer.Land();
      if dirty {
        dirty := false;
      }
    }

    method WriteFails(tookEffect: bool)
      requires writer.queue != []
      modifies this`dirty, writer
      ensures Model() == Failed(old(Model()), tookEffect)
    {
      if tookEffect {
        writer.Land();
      } else {
        writer.Drop();
      }
      if !dirty {
        dirty := true;
      }
    }
  }
}
