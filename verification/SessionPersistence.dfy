/** `save_session_state_to_redis` and `load_session_state_from_redis`, run against a workspace and a store. */
module SessionPersistence {
  import opened Prelude
  import opened Naming
  import opened TenantConfig
  import opened SessionState

  /** The sessions directory of an agent's workspace. */
  class Workspace {
    var nodes: Nodes

    constructor (nodes: Nodes)
      ensures this.nodes == nodes
    {
      this.nodes := nodes;
    }

    /** Writing over a directory raises. */
    method WriteText(name: string, text: string) returns (ok: bool)
      modifies this
      ensures ok == !(name in old(nodes) && old(nodes)[name].Folder?)
      ensures nodes == if ok then old(nodes)[name := File(text)] else old(nodes)
    {
      ok := !(name in nodes && nodes[name].Folder?);
      if ok {
        nodes := nodes[name := File(text)];
      }
    }
  }

  /** The states the bus keeps in Redis. */
  class StateStore {
    var states: States

    constructor ()
      ensures states == map[]
    {
      states := map[];
    }

    method SetSessionState(tenant: string, key: string, state: Json)
      modifies this
      ensures states == old(states)[StateKey(tenant, key) := state]
    {
      var safe := Replace(if key == "" then "default" else key, ':', '_');
      states := states[TENANT_PREFIX + tenant + ":session_state:" + safe := state];
    }

    method GetSessionState(tenant: string, key: string) returns (state: Option<Json>)
      ensures state == if StateKey(tenant, key) in states then Some(states[StateKey(tenant, key)]) else None
    {
      state := if StateKey(tenant, key) in states then Some(states[StateKey(tenant, key)]) else None;
    }
  }

  /** Saving; `order` is the order in which the directory is listed. */
  method SaveSessionState(c: Codec, store: StateStore, tenant: string, key: string, ws: Workspace, order: seq<string>)
    modifies store
    ensures store.states == Saved(c, old(store.states), tenant, key, ws.nodes, order)
    ensures forall k :: k != StateKey(tenant, key) ==> Same(store.states, old(store.states), k)
  {
    var name := SafeFile(key);
    if !IsFile(ws.nodes, name) {
      var i := 0;
      while i < |order| && !Matches(key, order[i])
        invariant i <= |order| && FirstPosition(order, key, 0) == FirstPosition(order, key, i)
      {
        i := i + 1;
      }
      if i == |order| {
        return;
      }
      name := order[i];
      if !IsFile(ws.nodes, name) {
        return;
      }
    }
    var raw := ws.nodes[name].text;
    var parsed := c.parse(raw);
    store.SetSessionState(tenant, key, if parsed.Some? then parsed.value else Obj(map[RAW := Str(raw)]));
  }

  /** Whether looking for "raw" in a state, and then reading it, raises. */
  predicate Raises(state: Json) {
    match state
    case Obj(_) => false
    case Arr(items) => Str(RAW) in items
    case Str(s) => Contains(s, RAW)
    case _ => true
  }

  /** Restoring; an exception on the way leaves the directory as it was. */
  method LoadSessionState(c: Codec, store: StateStore, tenant: string, key: string, ws: Workspace)
      returns (restored: bool)
    modifies ws
    ensures ws.nodes == Loaded(c, store.states, tenant, key, old(ws.nodes))
    ensures restored <==> Stored(c, store.states, tenant, key).Some?
                          && !(SafeFile(key) in old(ws.nodes) && old(ws.nodes)[SafeFile(key)].Folder?)
    ensures forall n :: n != SafeFile(key) ==> Same(ws.nodes, old(ws.nodes), n)
    ensures !restored ==> ws.nodes == old(ws.nodes)
    ensures restored ==> IsFile(ws.nodes, SafeFile(key))
                         && ws.nodes[SafeFile(key)].text == Stored(c, store.states, tenant, key).value
  {
    var state := store.GetSessionState(tenant, key);
    if state.None? || !IsTrue(state.value) || Raises(state.value) {
      return false;
    }
    if HasRawText(state.value) {
      restored := ws.WriteText(SafeFile(key), state.value.fields[RAW].s);
    } else {
      restored := ws.WriteText(SafeFile(key), c.render(state.value));
    }
  }
}
