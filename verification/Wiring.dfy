/** The composition root (app/server.py): the listeners that tie the connection,
    the index and the publisher together, each proved to perform, in place, the
    segment that Replication's steps are made of. */
module Wiring {
  import opened Basics
  import opened Mirror
  import opened EntityIndex
  import opened LiveState
  import opened Replication

  class Service {
    const mirror: StateMirror
    const index: Index
    const house: HouseView
    const writer: LiveStateWriter
    const publisher: LiveStatePublisher

    constructor (leftover: Hash)
      ensures Valid()
      ensures Model() == Replica(map[], {}, map[], Disconnected, Store(false, false, [Job(Clear, Lifespan)], leftover))
    {
      var conn := new StateMirror();
      var idx := new Index();
      var view := new HouseView(conn, idx);
      var fifo := new LiveStateWriter(leftover);
      mirror, index, house, writer := conn, idx, view, fifo;
      publisher := new LiveStatePublisher(fifo, view);
      new;
      publisher.StartClear(Lifespan);
    }

    ghost predicate Valid()
      reads this, mirror, index, house, publisher
    {
      && house.mirror == mirror && house.index == index
      && publisher.house == house && publisher.writer == writer
      && Keyed(mirror.states) && index.Valid()
    }

    ghost function Model(): Replica
      reads this, mirror, index, house, writer, publisher
      requires Valid()
    {
      Replica(mirror.states, house.catalog, index.areas, house.connState, publisher.Model())
    }

    /** A state_changed frame, up to the publisher's first await. */
    method HandleEvent(id: string, now: Option<ServerState>)
      requires Valid()
      modifies mirror, writer
      ensures Valid()
      ensures mirror.states == Applied(old(mirror.states), id, now)
      ensures id == "" ==> writer.queue == old(writer.queue)
      ensures id != "" ==>
                writer.queue == old(writer.queue) +
                                [Job(if now.None? then Remove(id)
                                     else Update(BuildEntry(mirror.states[id], house.catalog, index.areas)), Reader)]
      ensures Model() == if id == "" then old(Model()) else EventArrived(old(Model()), id, now)
    {
      mirror.HandleStateChanged(id, now);
      if id != "" {
        publisher.OnStateChanged(id);
      }
    }

    /** The get_states result hook. */
    method HandleReply(rows: seq<Row>)
      requires Valid()
      modifies mirror
      ensures Valid()
      ensures mirror.states == Installed(rows)
      ensures Model() == old(Model()).(states := Installed(rows))
    {
      mirror.InstallStates(rows);
      InstalledKeyed(rows);
    }

    /** From get_services' reply to the connect snapshot's handover: no await, and
        the snapshot is handed over even if rebuilding the index raises (None). What
        is handed over is the mirror seen through the catalog just served and the
        rooms just rebuilt. */
    method GoLive(catalog: set<string>, registries: Option<Registries>)
      requires Valid()
      modifies house, index, publisher, writer
      ensures Valid()
      ensures house.catalog == catalog && house.connState == Connected
      ensures index.areas == if registries.None? then old(index.areas)
                             else Rooms(Entities(registries.value, mirror.states))
      ensures writer.queue == old(writer.queue) + [Job(Replace(View(mirror.states, catalog, index.areas)), Setup)]
      ensures !publisher.stale && publisher.dirty == old(publisher.dirty) && writer.hash == old(writer.hash)
      ensures Model() == WentLive(old(Model()), catalog,
                                  if registries.None? then None
                                  else Some(Rooms(Entities(registries.value, old(mirror.states)))))
    {
      house.catalog := catalog;
      house.connState := Connected;
      if registries.Some? {
        index.Rebuild(registries.value, mirror.states);
      }
      var _ := publisher.StartPublish(Setup);
    }

    /** on_registries_updated before it registers: never a live-state write. */
    method OnRegistriesUpdated(registries: Registries)
      requires Valid()
      modifies index, publisher
      ensures Valid()
      ensures index.areas == Rooms(Entities(registries, mirror.states))
      ensures publisher.stale <==> old(publisher.stale) || index.areas != old(index.areas)
      ensures publisher.dirty == old(publisher.dirty)
      ensures Model() == RoomsRebuilt(old(Model()), Rooms(Entities(registries, old(mirror.states))))
    {
      var areas := index.areas;
      index.Rebuild(registries, mirror.states);
      if index.areas != areas {
        publisher.MarkStale();
      }
    }

    /** conn_state drops and the disconnect listener asks for its clear, in one segment. */
    method ReportDisconnect(how: ConnState)
      requires Valid()
      modifies house, writer
      ensures Valid()
      ensures house.connState == how && house.catalog == old(house.catalog)
      ensures writer.queue == old(writer.queue) + [Job(Clear, Runner)] && writer.hash == old(writer.hash)
      ensures Model() == Reported(old(Model()), how)
    {
      house.connState := how;
      publisher.StartClear(Runner);
    }

    /** The registration hook: a dirty hash is replaced while connected and cleared
        otherwise; a clean one is left alone. */
    method OnRegistered(o: Owner)
      requires Valid()
      modifies publisher, writer
      ensures Valid()
      ensures !old(publisher.dirty) ==> writer.queue == old(writer.queue)
      ensures old(publisher.dirty) ==>
                writer.queue == old(writer.queue) +
                                [Job(if house.connState == Connected
                                     then Replace(View(mirror.states, house.catalog, index.areas)) else Clear, o)]
      ensures Model() == old(Model()).(store := Heal(old(Model()).store, old(Model()).IsConnected(),
                                                     old(Model()).Current(), o))
    {
      publisher.StartHeal(o);
    }
  }

  /** With no blank device, a state event changes no room: only a rebuild from
      changed registries can leave the hash stale. */
  lemma EventsMoveNoRoom(r: Registries, states: States, id: string, now: Option<ServerState>)
    requires NoBlankDevice(r)
    ensures Rooms(Entities(r, Applied(states, id, now))) == Rooms(Entities(r, states))
  {
    RoomsFromRegistriesIff(r);
  }
}
