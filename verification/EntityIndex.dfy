/** Discovered entity metadata and human-name resolution (app/entity_index.py). */
module EntityIndex {
  import opened Basics
  import opened Mirror

  // ----- Registries -----

  datatype RegistryEntity = RegistryEntity(
    entityId: string, disabledBy: Option<string>, deviceId: Option<string>, areaId: Option<string>,
    name: Option<string>, originalName: Option<string>)
  datatype RegistryDevice = RegistryDevice(
    id: string, areaId: Option<string>, nameByUser: Option<string>, name: Option<string>)
  datatype RegistryArea = RegistryArea(areaId: string, name: string)

  datatype Registries = Registries(
    entities: seq<RegistryEntity>, devices: seq<RegistryDevice>, areas: seq<RegistryArea>)

  type Areas = map<string, string>

  predicate Truthy(o: Option<string>) {
    o.Some? && o.value != ""
  }

  /** Python's `a or b` on optional strings. */
  function Or(a: Option<string>, b: Option<string>): Option<string> {
    if Truthy(a) then a else b
  }

  /** A dictionary built from a list keeps the last row of a key. */
  function LastBy<T>(rows: seq<T>, key: T -> string): map<string, T> {
    if rows == [] then map[] else LastBy(rows[..|rows| - 1], key)[key(rows[|rows| - 1]) := rows[|rows| - 1]]
  }

  lemma {:induction false} LastByAt<T>(rows: seq<T>, key: T -> string, i: nat)
    requires i < |rows| && forall k :: i < k < |rows| ==> key(rows[k]) != key(rows[i])
    ensures key(rows[i]) in LastBy(rows, key) && LastBy(rows, key)[key(rows[i])] == rows[i]
  {
    if i < |rows| - 1 { LastByAt(rows[..|rows| - 1], key, i); }
  }

  lemma {:induction false} LastByFrom<T>(rows: seq<T>, key: T -> string, id: string)
    requires id in LastBy(rows, key)
    ensures LastBy(rows, key)[id] in rows && key(LastBy(rows, key)[id]) == id
  {
    if key(rows[|rows| - 1]) != id { LastByFrom(rows[..|rows| - 1], key, id); }
  }

  function AreaNames(rows: seq<RegistryArea>): map<string, string> {
    var areas := LastBy(rows, (a: RegistryArea) => a.areaId);
    map id | id in areas :: areas[id].name
  }

  function DevicesById(rows: seq<RegistryDevice>): map<string, RegistryDevice> {
    LastBy(rows, (d: RegistryDevice) => d.id)
  }

  function EntitiesById(rows: seq<RegistryEntity>): map<string, RegistryEntity> {
    LastBy(rows, (e: RegistryEntity) => e.entityId)
  }

  /** Each registry is read by id, the last row of an id counting. */
  lemma RegistriesById(r: Registries, i: nat)
    ensures i < |r.areas| && (forall k :: i < k < |r.areas| ==> r.areas[k].areaId != r.areas[i].areaId) ==>
              Lookup(AreaNames(r.areas), r.areas[i].areaId) == Some(r.areas[i].name)
    ensures i < |r.devices| && (forall k :: i < k < |r.devices| ==> r.devices[k].id != r.devices[i].id) ==>
              Lookup(DevicesById(r.devices), r.devices[i].id) == Some(r.devices[i])
    ensures i < |r.entities| &&
            (forall k :: i < k < |r.entities| ==> r.entities[k].entityId != r.entities[i].entityId) ==>
              Lookup(EntitiesById(r.entities), r.entities[i].entityId) == Some(r.entities[i])
  {
    if i < |r.areas| && forall k :: i < k < |r.areas| ==> r.areas[k].areaId != r.areas[i].areaId {
      LastByAt(r.areas, (a: RegistryArea) => a.areaId, i);
    }
    if i < |r.devices| && forall k :: i < k < |r.devices| ==> r.devices[k].id != r.devices[i].id {
      LastByAt(r.devices, (d: RegistryDevice) => d.id, i);
    }
    if i < |r.entities| && forall k :: i < k < |r.entities| ==> r.entities[k].entityId != r.entities[i].entityId {
      LastByAt(r.entities, (e: RegistryEntity) => e.entityId, i);
    }
  }

  /** And nothing else is in it. */
  lemma RegistriesHoldRows(r: Registries, id: string)
    ensures id in AreaNames(r.areas) ==> RegistryArea(id, AreaNames(r.areas)[id]) in r.areas
    ensures id in DevicesById(r.devices) ==>
              DevicesById(r.devices)[id] in r.devices && DevicesById(r.devices)[id].id == id
    ensures id in EntitiesById(r.entities) ==>
              EntitiesById(r.entities)[id] in r.entities && EntitiesById(r.entities)[id].entityId == id
  {
    if id in AreaNames(r.areas) { LastByFrom(r.areas, (a: RegistryArea) => a.areaId, id); }
    if id in DevicesById(r.devices) { LastByFrom(r.devices, (d: RegistryDevice) => d.id, id); }
    if id in EntitiesById(r.entities) { LastByFrom(r.entities, (e: RegistryEntity) => e.entityId, id); }
  }

  // ----- One entity -----

  datatype EntityInfo = EntityInfo(
    entityId: string, friendlyName: string, domain: string, deviceClass: Option<string>,
    area: Option<string>, device: Option<string>)

  /** The text before the first dot. */
  function Domain(id: string): string {
    if id == "" || id[0] == '.' then "" else [id[0]] + Domain(id[1..])
  }

  /** The text after the first dot, or all of it. */
  function ObjectId(id: string): string {
    if Domain(id) == id then id
    else DomainPrefix(id); id[|Domain(id)| + 1..]
  }

  lemma DomainPrefix(id: string)
    ensures |Domain(id)| <= |id| && Domain(id) == id[..|Domain(id)|]
    ensures |Domain(id)| < |id| ==> id[|Domain(id)|] == '.'
    ensures '.' !in Domain(id)
  {
  }

  /** How an id splits: at its first dot, if it has one. */
  lemma IdSplits(id: string)
    ensures '.' !in Domain(id)
    ensures '.' in id ==> id == Domain(id) + "." + ObjectId(id)
    ensures '.' !in id ==> Domain(id) == ObjectId(id) == id
  {
    DomainPrefix(id);
    if |Domain(id)| < |id| {
      assert id == id[..|Domain(id)|] + [id[|Domain(id)|]] + id[|Domain(id)| + 1..];
      assert id[|Domain(id)|] in id;
    } else {
      assert id == Domain(id);
    }
  }

  function Spaced(text: string): string {
    seq(|text|, i requires 0 <= i < |text| => if text[i] == '_' then ' ' else text[i])
  }

  function TextAttribute(st: Option<HAEntityState>, name: string): Option<string> {
    if st.Some? && name in st.value.attributes && st.value.attributes[name].Text?
    then Some(st.value.attributes[name].s)
    else None
  }

  /** The device an entity's registry row names; an entity without one looks up "". */
  function DeviceOf(reg: Option<RegistryEntity>, devices: map<string, RegistryDevice>): Option<RegistryDevice> {
    var id := if reg.Some? && Truthy(reg.value.deviceId) then reg.value.deviceId.value else "";
    if id in devices then Some(devices[id]) else None
  }

  /** The room of an entity: its own area if it has one, else its device's. */
  function RoomOf(reg: Option<RegistryEntity>, devices: map<string, RegistryDevice>, names: map<string, string>)
    : Option<string>
  {
    var own := if reg.Some? then reg.value.areaId else None;
    var device := DeviceOf(reg, devices);
    var areaId := Or(own, if device.Some? then device.value.areaId else None);
    if Truthy(areaId) && areaId.value in names then Some(names[areaId.value]) else None
  }

  function InfoOf(id: string, reg: Option<RegistryEntity>, st: Option<HAEntityState>,
                  devices: map<string, RegistryDevice>, names: map<string, string>): EntityInfo
  {
    var device := DeviceOf(reg, devices);
    var named := Or(TextAttribute(st, "friendly_name"),
                    if reg.Some? then Or(reg.value.name, reg.value.originalName) else None);
    EntityInfo(
      id,
      if Truthy(named) then named.value else Spaced(ObjectId(id)),
      Domain(id),
      TextAttribute(st, "device_class"),
      RoomOf(reg, devices, names),
      if device.Some? then Or(device.value.nameByUser, device.value.name) else None)
  }

  /** The first of these names that is set and not empty. */
  function FirstName(st: Option<HAEntityState>, reg: Option<RegistryEntity>): Option<string> {
    if Truthy(TextAttribute(st, "friendly_name")) then TextAttribute(st, "friendly_name")
    else if reg.Some? && Truthy(reg.value.name) then reg.value.name
    else if reg.Some? && Truthy(reg.value.originalName) then reg.value.originalName
    else None
  }

  /** What an entity is called: its friendly_name attribute, else its registry name,
      else its original name, else its object id with spaces for underscores. Its
      class is an attribute, its device's name the user's own before the maker's. */
  lemma InfoSays(id: string, reg: Option<RegistryEntity>, st: Option<HAEntityState>,
                 devices: map<string, RegistryDevice>, names: map<string, string>)
    ensures var info := InfoOf(id, reg, st, devices, names);
            && info.entityId == id && info.domain == Domain(id)
            && (FirstName(st, reg).Some? ==> info.friendlyName == FirstName(st, reg).value)
            && (FirstName(st, reg).None? ==>
                  && |info.friendlyName| == |ObjectId(id)|
                  && forall i :: 0 <= i < |ObjectId(id)| ==>
                       info.friendlyName[i] == if ObjectId(id)[i] == '_' then ' ' else ObjectId(id)[i])
            && info.deviceClass == TextAttribute(st, "device_class")
    ensures var info, device := InfoOf(id, reg, st, devices, names), DeviceOf(reg, devices);
            && (device.None? ==> info.device.None?)
            && (device.Some? && Truthy(device.value.nameByUser) ==> info.device == device.value.nameByUser)
            && (device.Some? && !Truthy(device.value.nameByUser) ==> info.device == device.value.name)
  {
  }

  /** Which device: the one the registry row names, and no other. */
  lemma DeviceIs(reg: RegistryEntity, devices: map<string, RegistryDevice>)
    requires Truthy(reg.deviceId)
    ensures DeviceOf(Some(reg), devices) == Lookup(devices, reg.deviceId.value)
  {
  }

  function Lookup<T>(m: map<string, T>, id: string): Option<T> {
    if id in m then Some(m[id]) else None
  }

  predicate Disabled(reg: Option<RegistryEntity>) {
    reg.Some? && Truthy(reg.value.disabledBy)
  }

  // ----- The index -----

  /** The index of these registries and states, entity by entity. */
  function Entities(r: Registries, states: States): map<string, EntityInfo> {
    var regs, devices, names := EntitiesById(r.entities), DevicesById(r.devices), AreaNames(r.areas);
    map id | id in states.Keys + regs.Keys && !Disabled(Lookup(regs, id)) ::
      InfoOf(id, Lookup(regs, id), Lookup(states, id), devices, names)
  }

  /** built is full, as far as these ids go. */
  ghost predicate IsPart<T>(built: map<string, T>, full: map<string, T>, ids: seq<string>) {
    && (forall id :: id in built <==> id in full && id in ids)
    && (forall id :: id in built ==> built[id] == full[id])
  }

  lemma PartGrows<T>(built: map<string, T>, full: map<string, T>, ids: seq<string>, i: nat)
    requires i < |ids| && IsPart(built, full, ids[..i])
    ensures IsPart(if ids[i] in full then built[ids[i] := full[ids[i]]] else built, full, ids[..i + 1])
  {
    assert ids[..i + 1] == ids[..i] + [ids[i]];
  }

  lemma PartIsWhole<T>(built: map<string, T>, full: map<string, T>, ids: seq<string>)
    requires IsPart(built, full, ids) && forall id :: id in full ==> id in ids
    ensures built == full
  {
    assert built.Keys == full.Keys;
  }

  function Rooms(entities: map<string, EntityInfo>): Areas {
    map id | id in entities && entities[id].area.Some? :: entities[id].area.value
  }

  /** The rooms as the registries alone place the entities. */
  function RegistryRooms(r: Registries): Areas {
    var regs, devices, names := EntitiesById(r.entities), DevicesById(r.devices), AreaNames(r.areas);
    map id | id in regs && !Disabled(Some(regs[id])) && RoomOf(Some(regs[id]), devices, names).Some? ::
      RoomOf(Some(regs[id]), devices, names).value
  }

  /** No device with an empty id lends its room to entities outside the registry. */
  predicate NoBlankDevice(r: Registries) {
    RoomOf(None, DevicesById(r.devices), AreaNames(r.areas)).None?
  }

  lemma RoomAt(r: Registries, states: States, id: string)
    ensures var reg := Lookup(EntitiesById(r.entities), id);
            Lookup(Rooms(Entities(r, states)), id) ==
            if (id in states || reg.Some?) && !Disabled(reg)
            then RoomOf(reg, DevicesById(r.devices), AreaNames(r.areas))
            else None
  {
  }

  lemma RegistryRoomAt(r: Registries, id: string)
    ensures var reg := Lookup(EntitiesById(r.entities), id);
            Lookup(RegistryRooms(r), id) ==
            if reg.Some? && !Disabled(reg) then RoomOf(reg, DevicesById(r.devices), AreaNames(r.areas)) else None
  {
  }

  lemma SameLookups(a: Areas, b: Areas)
    requires forall id :: Lookup(a, id) == Lookup(b, id)
    ensures a == b
  {
    forall id
      ensures id in a <==> id in b
    {
      assert Lookup(a, id) == Lookup(b, id);
    }
    assert forall id :: id in a ==> Lookup(a, id) == Lookup(b, id);
    assert a.Keys == b.Keys;
  }

  lemma RoomsFromRegistries(r: Registries, states: States)
    requires NoBlankDevice(r)
    ensures Rooms(Entities(r, states)) == RegistryRooms(r)
  {
    forall id
      ensures Lookup(Rooms(Entities(r, states)), id) == Lookup(RegistryRooms(r), id)
    {
      RoomAt(r, states, id);
      RegistryRoomAt(r, id);
    }
    SameLookups(Rooms(Entities(r, states)), RegistryRooms(r));
  }

  /** The room map depends on the registries only, exactly when no blank device
      has a room: then a state event never invalidates it. */
  lemma RoomsFromRegistriesIff(r: Registries)
    ensures (forall states: States :: Rooms(Entities(r, states)) == RegistryRooms(r)) <==> NoBlankDevice(r)
  {
    if NoBlankDevice(r) {
      forall states: States
        ensures Rooms(Entities(r, states)) == RegistryRooms(r)
      {
        RoomsFromRegistries(r, states);
      }
    } else {
      var states := BlankDeviceShows(r);
      assert Rooms(Entities(r, states)) != RegistryRooms(r);
    }
  }

  lemma BlankDeviceShows(r: Registries) returns (states: States)
    requires !NoBlankDevice(r)
    ensures Rooms(Entities(r, states)) != RegistryRooms(r)
  {
    var id := LongerThan(EntitiesById(r.entities).Keys);
    states := map[id := HAEntityState(id, "on", map[])];
    RoomAt(r, states, id);
    RegistryRoomAt(r, id);
    assert Lookup(Rooms(Entities(r, states)), id) != Lookup(RegistryRooms(r), id);
  }

  /** An id longer than all of these, so none of them. */
  ghost function LongerThan(ids: set<string>): (id: string)
    ensures forall x :: x in ids ==> |x| < |id|
  {
    if ids == {} then "x"
    else
      var x :| x in ids;
      var rest := LongerThan(ids - {x});
      assert forall y :: y in ids ==> y == x || y in ids - {x};
      rest + x + "x"
  }

  /** A disabled entity is in no room and not in the index at all. */
  lemma DisabledNowhere(r: Registries, states: States, id: string)
    requires Disabled(Lookup(EntitiesById(r.entities), id))
    ensures id !in Entities(r, states) && id !in Rooms(Entities(r, states))
  {
  }

  /** An entity's own area decides its room, even one the area registry lacks. */
  lemma OwnAreaWins(r: Registries, states: States, id: string)
    requires var reg := Lookup(EntitiesById(r.entities), id);
             reg.Some? && !Disabled(reg) && Truthy(reg.value.areaId)
    ensures Lookup(Rooms(Entities(r, states)), id) ==
            Lookup(AreaNames(r.areas), EntitiesById(r.entities)[id].areaId.value)
  {
    assert id in Entities(r, states);
  }

  /** An entity without an area of its own is in its device's. */
  lemma DeviceAreaElse(r: Registries, states: States, id: string)
    requires var reg := Lookup(EntitiesById(r.entities), id);
             reg.Some? && !Disabled(reg) && !Truthy(reg.value.areaId)
    ensures var device := DeviceOf(Some(EntitiesById(r.entities)[id]), DevicesById(r.devices));
            Lookup(Rooms(Entities(r, states)), id) ==
            if device.Some? && Truthy(device.value.areaId) then Lookup(AreaNames(r.areas), device.value.areaId.value)
            else None
  {
    RoomAt(r, states, id);
  }

  // ----- Name resolution -----

  predicate IsIndex(entities: map<string, EntityInfo>) {
    forall id :: id in entities ==> entities[id].entityId == id
  }

  function EntityId(e: EntityInfo): string {
    e.entityId
  }

  function InfosOf(entities: map<string, EntityInfo>, ids: seq<string>): (infos: seq<EntityInfo>)
    requires forall i :: 0 <= i < |ids| ==> ids[i] in entities
    ensures |infos| == |ids| && forall i :: 0 <= i < |ids| ==> infos[i] == entities[ids[i]]
  {
    seq(|ids|, i requires 0 <= i < |ids| => entities[ids[i]])
  }

  function DomainIds(entities: map<string, EntityInfo>, domain: string): (ids: seq<string>)
    ensures Ascending(ids)
    ensures forall id :: id in ids <==> id in entities && entities[id].domain == domain
    ensures forall i :: 0 <= i < |ids| ==> ids[i] in entities && entities[ids[i]].domain == domain
  {
    var ids := SortedIds(set id | id in entities && entities[id].domain == domain);
    assert forall i :: 0 <= i < |ids| ==> ids[i] in ids;
    ids
  }

  /** entities_for_domain: in entity-id order. */
  function EntitiesForDomain(entities: map<string, EntityInfo>, domain: string): (found: seq<EntityInfo>)
    requires IsIndex(entities)
    ensures OrderedBy(found, EntityId)
    ensures forall e :: e in found <==> e.entityId in entities && entities[e.entityId] == e && e.domain == domain
  {
    var ids := DomainIds(entities, domain);
    var found := InfosOf(entities, ids);
    assert forall e: EntityInfo :: e.entityId in entities && entities[e.entityId] == e && e.domain == domain ==>
        e.entityId in ids;
    found
  }

  /** Python's strip() and casefold(), whose Unicode tables are not modelled. */
  datatype TextRules = TextRules(strip: string -> string, casefold: string -> string)
  {
    function Same(a: string, wanted: string): bool {
      casefold(a) == wanted
    }
  }

  /** [e.entity_id for e in candidates if keep(e)] */
  function Picked(candidates: seq<EntityInfo>, keep: EntityInfo -> bool): (ids: seq<string>)
    ensures forall id :: id in ids <==> exists e :: e in candidates && keep(e) && e.entityId == id
  {
    if candidates == [] then []
    else
      var rest := Picked(candidates[1..], keep);
      assert candidates == [candidates[0]] + candidates[1..];
      if keep(candidates[0]) then [candidates[0].entityId] + rest else rest
  }

  lemma {:induction false} PickedAscending(candidates: seq<EntityInfo>, keep: EntityInfo -> bool)
    requires OrderedBy(candidates, EntityId)
    ensures Ascending(Picked(candidates, keep))
  {
    if candidates != [] {
      PickedAscending(candidates[1..], keep);
      forall id | id in Picked(candidates[1..], keep)
        ensures StrLt(candidates[0].entityId, id)
      {
      }
    }
  }

  /** Picking from a domain's entities finds exactly those that qualify. */
  lemma PickedExactly(entities: map<string, EntityInfo>, domain: string, keep: EntityInfo -> bool, id: string)
    requires IsIndex(entities)
    ensures id in Picked(EntitiesForDomain(entities, domain), keep) <==>
            id in entities && entities[id].domain == domain && keep(entities[id])
  {
    var candidates := EntitiesForDomain(entities, domain);
    if id in entities && entities[id].domain == domain {
      assert entities[id] in candidates;
    }
  }

  datatype Resolution =
    | Found(ids: seq<string>)
    | LookupError(areas: seq<string>, names: seq<string>)

  function ById(t: TextRules, wanted: string): EntityInfo -> bool {
    (e: EntityInfo) => t.Same(e.entityId, wanted)
  }
  function ByArea(t: TextRules, wanted: string): EntityInfo -> bool {
    (e: EntityInfo) => e.area.Some? && t.Same(e.area.value, wanted)
  }
  function ByName(t: TextRules, wanted: string): EntityInfo -> bool {
    (e: EntityInfo) => t.Same(e.friendlyName, wanted)
  }

  /** An entity id first, then an area, then a friendly name. */
  function Resolve(entities: map<string, EntityInfo>, t: TextRules, domain: string, target: string): Resolution
    requires IsIndex(entities)
  {
    var wanted := t.casefold(t.strip(target));
    var candidates := EntitiesForDomain(entities, domain);
    var exact := Picked(candidates, ById(t, wanted));
    if exact != [] then Found(exact)
    else
      var byArea := Picked(candidates, ByArea(t, wanted));
      if byArea != [] then Found(byArea)
      else
        var byName := Picked(candidates, ByName(t, wanted));
        if byName != [] then Found(byName)
        else LookupError(AreasListed(candidates), AllNamesListed(candidates))
  }

  function AreasListed(candidates: seq<EntityInfo>): seq<string> {
    SortedIds(set e | e in candidates && e.area.Some? :: e.area.value)
  }

  /** Every candidate's name, repeats and all. */
  function AllNamesListed(candidates: seq<EntityInfo>): seq<string> {
    SortedList(seq(|candidates|, i requires 0 <= i < |candidates| => candidates[i].friendlyName))
  }

  function NamesListed(candidates: seq<EntityInfo>): seq<string> {
    SortedIds(set e | e in candidates :: e.friendlyName)
  }

  predicate OfDomain(entities: map<string, EntityInfo>, domain: string, ids: seq<string>) {
    forall id :: id in ids ==> id in entities && entities[id].domain == domain
  }

  lemma PickedIsSound(entities: map<string, EntityInfo>, domain: string, keep: EntityInfo -> bool)
    requires IsIndex(entities)
    ensures var ids := Picked(EntitiesForDomain(entities, domain), keep);
            Ascending(ids) && OfDomain(entities, domain, ids)
  {
    PickedAscending(EntitiesForDomain(entities, domain), keep);
  }

  /** Whatever resolves is a non-empty list of the domain's own entities, in id order. */
  lemma ResolvedIsSound(entities: map<string, EntityInfo>, t: TextRules, domain: string, target: string)
    requires IsIndex(entities)
    requires Resolve(entities, t, domain, target).Found?
    ensures var ids := Resolve(entities, t, domain, target).ids;
            ids != [] && Ascending(ids) && OfDomain(entities, domain, ids)
  {
    var wanted := t.casefold(t.strip(target));
    PickedIsSound(entities, domain, ById(t, wanted));
    PickedIsSound(entities, domain, ByArea(t, wanted));
    PickedIsSound(entities, domain, ByName(t, wanted));
  }

  /** An area name resolves to exactly the domain's entities in it, unless an
      entity id matches first. */
  lemma AreaResolves(entities: map<string, EntityInfo>, t: TextRules, domain: string, e: EntityInfo)
    requires IsIndex(entities)
    requires e.entityId in entities && entities[e.entityId] == e && e.domain == domain && e.area.Some?
    requires t.casefold(t.strip(e.area.value)) == t.casefold(e.area.value)
    ensures var wanted := t.casefold(e.area.value);
            var r := Resolve(entities, t, domain, e.area.value);
            r.Found? &&
            ((forall id :: id in entities && entities[id].domain == domain ==> t.casefold(id) != wanted) ==>
              forall id :: id in r.ids <==>
                id in entities && entities[id].domain == domain &&
                entities[id].area.Some? && t.casefold(entities[id].area.value) == wanted)
  {
    var wanted := t.casefold(e.area.value);
    forall id
      ensures id in Picked(EntitiesForDomain(entities, domain), ById(t, wanted)) <==>
              id in entities && entities[id].domain == domain && t.casefold(id) == wanted
      ensures id in Picked(EntitiesForDomain(entities, domain), ByArea(t, wanted)) <==>
              id in entities && entities[id].domain == domain &&
              entities[id].area.Some? && t.casefold(entities[id].area.value) == wanted
    {
      PickedExactly(entities, domain, ById(t, wanted), id);
      PickedExactly(entities, domain, ByArea(t, wanted), id);
    }
    var exact := Picked(EntitiesForDomain(entities, domain), ById(t, wanted));
    assert e.entityId in Picked(EntitiesForDomain(entities, domain), ByArea(t, wanted));
    assert exact != [] ==> exact[0] in exact;
  }

  /** A friendly name finds its entity by name exactly when stripping it does not
      change what it folds to; it then resolves. */
  lemma NameResolvesIff(entities: map<string, EntityInfo>, t: TextRules, domain: string, e: EntityInfo)
    requires IsIndex(entities)
    requires e.entityId in entities && entities[e.entityId] == e && e.domain == domain
    ensures var wanted := t.casefold(t.strip(e.friendlyName));
            e.entityId in Picked(EntitiesForDomain(entities, domain), ByName(t, wanted)) <==>
            wanted == t.casefold(e.friendlyName)
    ensures t.casefold(t.strip(e.friendlyName)) == t.casefold(e.friendlyName) ==>
            Resolve(entities, t, domain, e.friendlyName).Found?
  {
    var wanted := t.casefold(t.strip(e.friendlyName));
    PickedExactly(entities, domain, ByName(t, wanted), e.entityId);
  }

  predicate IdMatches(entities: map<string, EntityInfo>, t: TextRules, domain: string, wanted: string, id: string) {
    id in entities && entities[id].domain == domain && t.casefold(id) == wanted
  }

  predicate AreaMatches(entities: map<string, EntityInfo>, t: TextRules, domain: string, wanted: string, id: string) {
    && id in entities && entities[id].domain == domain
    && entities[id].area.Some? && t.casefold(entities[id].area.value) == wanted
  }

  predicate NameMatches(entities: map<string, EntityInfo>, t: TextRules, domain: string, wanted: string, id: string) {
    id in entities && entities[id].domain == domain && t.casefold(entities[id].friendlyName) == wanted
  }

  /** What a stripped and folded request resolves to: all of the domain's entities
      whose id matches; without one, all whose area does; without one, all whose
      name does; and a LookupError exactly when nothing matches. */
  lemma ResolvesByTier(entities: map<string, EntityInfo>, t: TextRules, domain: string, target: string)
    requires IsIndex(entities)
    ensures var wanted, r := t.casefold(t.strip(target)), Resolve(entities, t, domain, target);
            && (r.LookupError? <==> forall id :: !IdMatches(entities, t, domain, wanted, id) &&
                                                 !AreaMatches(entities, t, domain, wanted, id) &&
                                                 !NameMatches(entities, t, domain, wanted, id))
            && ((exists id :: IdMatches(entities, t, domain, wanted, id)) ==>
                  r.Found? && forall id :: id in r.ids <==> IdMatches(entities, t, domain, wanted, id))
            && ((forall id :: !IdMatches(entities, t, domain, wanted, id)) &&
                (exists id :: AreaMatches(entities, t, domain, wanted, id)) ==>
                  r.Found? && forall id :: id in r.ids <==> AreaMatches(entities, t, domain, wanted, id))
            && ((forall id :: !IdMatches(entities, t, domain, wanted, id) &&
                              !AreaMatches(entities, t, domain, wanted, id)) &&
                (exists id :: NameMatches(entities, t, domain, wanted, id)) ==>
                  r.Found? && forall id :: id in r.ids <==> NameMatches(entities, t, domain, wanted, id))
  {
    var wanted, candidates := t.casefold(t.strip(target)), EntitiesForDomain(entities, domain);
    var exact, byArea := Picked(candidates, ById(t, wanted)), Picked(candidates, ByArea(t, wanted));
    var byName := Picked(candidates, ByName(t, wanted));
    forall id
      ensures id in exact <==> IdMatches(entities, t, domain, wanted, id)
      ensures id in byArea <==> AreaMatches(entities, t, domain, wanted, id)
      ensures id in byName <==> NameMatches(entities, t, domain, wanted, id)
    {
      PickedExactly(entities, domain, ById(t, wanted), id);
      PickedExactly(entities, domain, ByArea(t, wanted), id);
      PickedExactly(entities, domain, ByName(t, wanted), id);
    }
    EmptyIff(exact);
    EmptyIff(byArea);
    EmptyIff(byName);
  }

  /** The error lists the rooms of the domain, each once, and every name, in order. */
  lemma ErrorLists(entities: map<string, EntityInfo>, domain: string)
    requires IsIndex(entities)
    ensures var candidates := EntitiesForDomain(entities, domain);
            && ListsRooms(AreasListed(candidates), entities, domain)
            && ListsNames(NamesListed(candidates), entities, domain)
            && (forall n :: n in AllNamesListed(candidates) <==> exists id :: IsCalled(entities, domain, id, n))
  {
    var candidates := EntitiesForDomain(entities, domain);
    forall id | id in entities && entities[id].domain == domain
      ensures entities[id] in candidates
    {
    }
    forall a | a in AreasListed(candidates)
      ensures exists id :: InRoom(entities, domain, id, a)
    {
      var e :| e in candidates && e.area == Some(a);
      assert InRoom(entities, domain, e.entityId, a);
    }
    forall n | n in NamesListed(candidates)
      ensures exists id :: IsCalled(entities, domain, id, n)
    {
      var e :| e in candidates && e.friendlyName == n;
      assert IsCalled(entities, domain, e.entityId, n);
    }
    NamesOfAll(candidates);
  }

  /** These are the rooms of the domain's entities, each once, in order. */
  ghost predicate ListsRooms(areas: seq<string>, entities: map<string, EntityInfo>, domain: string) {
    Ascending(areas) && forall a :: a in areas <==> exists id :: InRoom(entities, domain, id, a)
  }

  /** These are the names of the domain's entities, each once, in order. */
  ghost predicate ListsNames(names: seq<string>, entities: map<string, EntityInfo>, domain: string) {
    Ascending(names) && forall n :: n in names <==> exists id :: IsCalled(entities, domain, id, n)
  }

  predicate InRoom(entities: map<string, EntityInfo>, domain: string, id: string, area: string) {
    id in entities && entities[id].domain == domain && entities[id].area == Some(area)
  }

  predicate IsCalled(entities: map<string, EntityInfo>, domain: string, id: string, name: string) {
    id in entities && entities[id].domain == domain && entities[id].friendlyName == name
  }

  lemma NamesOfAll(candidates: seq<EntityInfo>)
    ensures forall n :: n in AllNamesListed(candidates) <==> n in NamesListed(candidates)
  {
    var names := seq(|candidates|, i requires 0 <= i < |candidates| => candidates[i].friendlyName);
    forall n
      ensures n in names <==> exists e :: e in candidates && e.friendlyName == n
      ensures n in AllNamesListed(candidates) <==> n in names
    {
      if e :| e in candidates && e.friendlyName == n {
        var i :| 0 <= i < |candidates| && candidates[i] == e;
        assert names[i] == n;
      }
      assert n in AllNamesListed(candidates) <==> n in multiset(AllNamesListed(candidates));
      assert n in names <==> n in multiset(names);
    }
  }

  lemma EmptyIff(ids: seq<string>)
    ensures ids == [] <==> forall id :: id !in ids
  {
    if ids != [] { assert ids[0] in ids; }
  }

  /** A name with outer spaces is advertised but never found. */
  lemma UntrimmedNameIsLost(t: TextRules)
    requires t.strip(" Lamp") == "Lamp"
    requires forall s :: t.casefold(s) == s
    ensures var lamp := EntityInfo("light.lamp", " Lamp", "light", None, None, None);
            Resolve(map["light.lamp" := lamp], t, "light", " Lamp").LookupError?
  {
    var entities := map["light.lamp" := EntityInfo("light.lamp", " Lamp", "light", None, None, None)];
    forall id
      ensures id !in Picked(EntitiesForDomain(entities, "light"), ById(t, "Lamp"))
      ensures id !in Picked(EntitiesForDomain(entities, "light"), ByArea(t, "Lamp"))
      ensures id !in Picked(EntitiesForDomain(entities, "light"), ByName(t, "Lamp"))
    {
      PickedExactly(entities, "light", ById(t, "Lamp"), id);
      PickedExactly(entities, "light", ByArea(t, "Lamp"), id);
      PickedExactly(entities, "light", ByName(t, "Lamp"), id);
      assert " Lamp"[0] != "Lamp"[0] && "light.lamp"[0] != "Lamp"[0];
    }
    EmptyIff(Picked(EntitiesForDomain(entities, "light"), ById(t, "Lamp")));
    EmptyIff(Picked(EntitiesForDomain(entities, "light"), ByArea(t, "Lamp")));
    EmptyIff(Picked(EntitiesForDomain(entities, "light"), ByName(t, "Lamp")));
  }

  // ----- The index in place -----

  /** rebuild's loop over the ids known to Home Assistant, in order. */
  method BuildEntities(r: Registries, states: States) returns (built: map<string, EntityInfo>)
    ensures built == Entities(r, states)
  {
    var names, devices, regs := AreaNames(r.areas), DevicesById(r.devices), EntitiesById(r.entities);
    built := map[];
    var ids := SortedIds(states.Keys + regs.Keys);
    ghost var full := Entities(r, states);
    for i := 0 to |ids|
      invariant IsPart(built, full, ids[..i])
    {
      var reg := Lookup(regs, ids[i]);
      PartGrows(built, full, ids, i);
      assert ids[i] in ids;
      if Disabled(reg) {
        continue;
      }
      built := built[ids[i] := InfoOf(ids[i], reg, Lookup(states, ids[i]), devices, names)];
    }
    assert ids[..|ids|] == ids;
    PartIsWhole(built, full, ids);
  }

  class Index {
    var entities: map<string, EntityInfo>
    var areas: Areas

    constructor ()
      ensures entities == map[] && areas == map[]
    {
      entities, areas := map[], map[];
    }

    ghost predicate Valid()
      reads this
    {
      IsIndex(entities) && areas == Rooms(entities)
    }

    method Rebuild(r: Registries, states: States)
      modifies this
      ensures Valid()
      ensures entities == Entities(r, states)
      ensures areas == Rooms(Entities(r, states))
      ensures NoBlankDevice(r) ==> areas == RegistryRooms(r)
    {
      entities := BuildEntities(r, states);
      areas := Rooms(entities);
      if NoBlankDevice(r) {
        RoomsFromRegistries(r, states);
      }
    }
  }
}
