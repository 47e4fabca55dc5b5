/** The mirror of Home Assistant's states that the connection's reader keeps
    (app/ha_connection.py: _install_states and _handle_state_changed). */
module Mirror {
  import opened Basics

  /** An attribute value; only text and truthiness matter to what is modelled. */
  datatype Json =
    | Null
    | Bool(b: bool)
    | Number(n: real)
    | Text(s: string)
    | List(items: seq<Json>)
    | Object(members: map<string, Json>)

  /** A state as Home Assistant holds it. */
  datatype ServerState = ServerState(state: string, attributes: map<string, Json>)

  /** One row of a get_states reply; its state may be missing. */
  datatype Row = Row(entityId: string, state: Option<string>, attributes: map<string, Json>)

  datatype HAEntityState = HAEntityState(entityId: string, state: string, attributes: map<string, Json>)

  datatype ConnState = Connected | AuthFailed | Unreachable | Disconnected

  type Server = map<string, ServerState>
  type States = map<string, HAEntityState>

  /** Every entry sits under its own entity id. */
  predicate Keyed(states: States) {
    forall id :: id in states ==> states[id].entityId == id
  }

  function OfRow(row: Row): HAEntityState {
    HAEntityState(row.entityId, if row.state.Some? then row.state.value else "unknown", row.attributes)
  }

  /** What a get_states reply installs: the last row of an id wins. */
  function Installed(rows: seq<Row>): States {
    if rows == [] then map[] else Installed(rows[..|rows| - 1])[rows[|rows| - 1].entityId := OfRow(rows[|rows| - 1])]
  }

  function OfEvent(id: string, now: ServerState): HAEntityState {
    HAEntityState(id, if now.state == "" then "unknown" else now.state, now.attributes)
  }

  /** What a state_changed event does: an event without an id is skipped, one
      without a new state deletes the entity. */
  function Applied(states: States, id: string, now: Option<ServerState>): States {
    if id == "" then states
    else if now.None? then states - {id}
    else states[id := OfEvent(id, now.value)]
  }

  /** Home Assistant's own states, read as mirror entries. */
  function Faithful(server: Server): States {
    map id | id in server :: HAEntityState(id, server[id].state, server[id].attributes)
  }

  function Changed(server: Server, id: string, now: Option<ServerState>): Server {
    if now.None? then server - {id} else server[id := now.value]
  }

  /** The reply to get_states lists the server's entities, each once. */
  predicate Lists(rows: seq<Row>, server: Server) {
    && NoIdTwice(rows)
    && (forall i :: 0 <= i < |rows| ==>
          && rows[i].entityId in server
          && rows[i].state == Some(server[rows[i].entityId].state)
          && rows[i].attributes == server[rows[i].entityId].attributes)
    && (forall id :: id in server ==> exists i :: 0 <= i < |rows| && rows[i].entityId == id)
  }

  /** Same entities, and each entry is the server's own, except that an empty
      state string may read "unknown": an event turns "" into "unknown", a
      get_states reply keeps it. */
  predicate Agrees(states: States, server: Server) {
    && states.Keys == server.Keys
    && forall id :: id in states ==>
         states[id] == HAEntityState(id, server[id].state, server[id].attributes) ||
         states[id] == OfEvent(id, server[id])
  }

  predicate NoIdTwice(rows: seq<Row>) {
    forall i, j :: 0 <= i < j < |rows| ==> rows[i].entityId != rows[j].entityId
  }

  /** The last row of an id is the one installed. */
  lemma {:induction false} InstalledAt(rows: seq<Row>, i: nat)
    requires i < |rows| && forall j :: i < j < |rows| ==> rows[j].entityId != rows[i].entityId
    ensures rows[i].entityId in Installed(rows) && Installed(rows)[rows[i].entityId] == OfRow(rows[i])
  {
    if i < |rows| - 1 {
      InstalledAt(rows[..|rows| - 1], i);
    }
  }

  lemma {:induction false} InstalledFrom(rows: seq<Row>, id: string)
    requires id in Installed(rows)
    ensures exists i :: 0 <= i < |rows| && rows[i].entityId == id
  {
    var n := |rows| - 1;
    if rows[n].entityId != id {
      InstalledFrom(rows[..n], id);
      var i :| 0 <= i < n && rows[..n][i].entityId == id;
      assert rows[i].entityId == id;
    }
  }

  /** The reply, once installed, is the server's states exactly. */
  lemma InstalledIsFaithful(rows: seq<Row>, server: Server)
    requires Lists(rows, server)
    ensures Installed(rows) == Faithful(server)
    ensures Agrees(Installed(rows), server)
  {
    forall id | id in Installed(rows)
      ensures id in server && Installed(rows)[id] == Faithful(server)[id]
    {
      InstalledFrom(rows, id);
      var i :| 0 <= i < |rows| && rows[i].entityId == id;
      InstalledAt(rows, i);
    }
    forall id | id in server
      ensures id in Installed(rows)
    {
      var i :| 0 <= i < |rows| && rows[i].entityId == id;
      InstalledAt(rows, i);
    }
    assert Installed(rows).Keys == server.Keys;
  }

  lemma {:induction false} InstalledKeyed(rows: seq<Row>)
    ensures Keyed(Installed(rows))
  {
    if rows != [] { InstalledKeyed(rows[..|rows| - 1]); }
  }

  /** Applying an event keeps the mirror in agreement with the changed server. */
  lemma AppliedAgrees(states: States, server: Server, id: string, now: Option<ServerState>)
    requires Agrees(states, server) && id != ""
    ensures Agrees(Applied(states, id, now), Changed(server, id, now))
  {
  }

  /** What either way of hearing about an entity makes of a missing or empty state. */
  lemma UnknownStates(id: string, now: ServerState, row: Row)
    ensures OfEvent(id, now) == HAEntityState(id, if now.state == "" then "unknown" else now.state, now.attributes)
    ensures OfRow(row).entityId == row.entityId && OfRow(row).attributes == row.attributes
    ensures row.state.None? ==> OfRow(row).state == "unknown"
    ensures row.state.Some? ==> OfRow(row).state == row.state.value
  {
  }

  /** The event is mirrored exactly unless its state string is empty. */
  lemma AppliedExactIff(server: Server, id: string, now: ServerState)
    requires id != ""
    ensures Applied(Faithful(server), id, Some(now)) == Faithful(Changed(server, id, Some(now))) <==> now.state != ""
  {
    var left := Applied(Faithful(server), id, Some(now));
    var right := Faithful(Changed(server, id, Some(now)));
    assert left[id] == OfEvent(id, now) && right[id] == HAEntityState(id, now.state, now.attributes);
    if now.state != "" {
      assert left.Keys == right.Keys;
      assert left == right;
    }
  }

  /** With no empty state string on the server, agreement is equality. */
  lemma AgreesExactly(states: States, server: Server)
    requires Agrees(states, server)
    requires forall id :: id in server ==> server[id].state != ""
    ensures states == Faithful(server)
  {
    assert states.Keys == Faithful(server).Keys;
  }

  // ----- A reply can always be given -----

  ghost function RowsOf(server: Server, ids: seq<string>): seq<Row>
    requires forall i :: 0 <= i < |ids| ==> ids[i] in server
  {
    seq(|ids|, i requires 0 <= i < |ids| => Row(ids[i], Some(server[ids[i]].state), server[ids[i]].attributes))
  }

  lemma RowsList(server: Server, ids: seq<string>)
    requires Ascending(ids) && forall id :: id in ids <==> id in server
    ensures (forall i :: 0 <= i < |ids| ==> ids[i] in server) && Lists(RowsOf(server, ids), server)
  {
    assert forall i :: 0 <= i < |ids| ==> ids[i] in ids;
    forall id | id in server
      ensures exists i :: 0 <= i < |ids| && RowsOf(server, ids)[i].entityId == id
    {
      var i :| 0 <= i < |ids| && ids[i] == id;
      assert RowsOf(server, ids)[i].entityId == id;
    }
  }

  lemma ReplyExists(server: Server) returns (rows: seq<Row>)
    ensures Lists(rows, server)
  {
    var ids := SortedIds(server.Keys);
    RowsList(server, ids);
    rows := RowsOf(server, ids);
  }

  /** HAConnection's copy of the states, updated in place by the reader. */
  class StateMirror {
    var states: States

    constructor ()
      ensures states == map[]
    {
      states := map[];
    }

    /** The get_states result hook: builds a new dictionary row by row. */
    method InstallStates(rows: seq<Row>)
      modifies this
      ensures states == Installed(rows)
    {
      var built: States := map[];
      for i := 0 to |rows|
        invariant built == Installed(rows[..i])
      {
        assert rows[..i + 1][..i] == rows[..i];
        built := built[rows[i].entityId := OfRow(rows[i])];
      }
      assert rows[..|rows|] == rows;
      states := built;
    }

    /** The part of a state_changed event that runs before any listener. */
    method HandleStateChanged(id: string, now: Option<ServerState>)
      modifies this
      ensures states == Applied(old(states), id, now)
    {
      if id == "" {
        return;
      }
      match now {
        case None => states := states - {id};
        case Some(s) => states := states[id := OfEvent(id, s)];
      }
    }
  }
}
