/**
 GattServer as an object: connections are shared by the two indexes, and a pending
 indication is shared, by reference count, by the connections it was sent on.  Every
 method is proved to take its step of Registry or Indications, so that what is proved
 there of every run holds of the object.
 */
module GattServers {
  import opened Options
  import opened Addresses
  import R = Registry
  import I = Indications

  class Connection {
    const connId: int
    const bdaddr: Address
    ghost const ref: nat
    var requests: map<int, int>

    constructor (connId: int, bdaddr: Address, ghost ref: nat)
      ensures this.connId == connId && this.bdaddr == bdaddr && this.ref == ref && requests == map[]
    {
      this.connId, this.bdaddr, this.ref := connId, bdaddr, ref;
      requests := map[];
    }
  }

  /** `useCount` is the count of the shared pointers to this object. */
  class PendingIndication {
    const callback: bool
    ghost const id: nat
    var hasSuccess: bool
    var useCount: nat

    constructor (callback: bool, ghost id: nat)
      ensures this.callback == callback && this.id == id && !hasSuccess && useCount == 1
    {
      this.callback, this.id := callback, id;
      hasSuccess, useCount := false, 1;
    }
  }

  /** What SendResponse hands to the HAL. */
  datatype Response =
    Response(connId: int, requestId: int, error: int, handle: int, offset: int, value: seq<Byte>)

  class GattServer {
    const serverId: int
    var connIdMap: map<int, Connection>
    var connAddrMap: map<string, seq<Connection>>
    var pendingIndications: map<int, PendingIndication>

    // All connections and pending indications ever created, and the state of the two models.
    ghost var connections: seq<Connection>
    ghost var indications: seq<PendingIndication>
    ghost var registry: R.State
    ghost var notifications: I.State

    ghost predicate Known(c: Connection)
      reads this`connections
    {
      c.ref < |connections| && connections[c.ref] == c
    }

    ghost predicate SameList(list: seq<Connection>, refs: seq<nat>)
      reads this`connections
    {
      |list| == |refs| && forall i | 0 <= i < |list| :: Known(list[i]) && list[i].ref == refs[i]
    }

    /** The connection objects are those of the registry model. */
    ghost predicate StoreOk()
      reads this`registry, this`connections, connections
    {
      && |registry.reg.store| == |connections|
      && forall i | 0 <= i < |connections| ::
           var c := connections[i];
           c.ref == i && registry.reg.store[i] == R.Conn(c.connId, c.bdaddr, c.requests)
    }

    /** Both indexes are those of the registry model. */
    ghost predicate RegistryOk()
      reads this`registry, this`connections, this`connIdMap, this`connAddrMap, connections
    {
      var r := registry.reg;
      && StoreOk()
      && r.byId.Keys == connIdMap.Keys
      && (forall k | k in connIdMap :: Known(connIdMap[k]) && r.byId[k] == connIdMap[k].ref)
      && r.byAddr.Keys == connAddrMap.Keys
      && (forall a | a in connAddrMap :: SameList(connAddrMap[a], r.byAddr[a]))
    }

    /** The connection ids that hold a pointer to indication `id`. */
    ghost function Holders(id: nat): set<int>
      reads this`notifications
    {
      I.HoldersIn(notifications.pending, id)
    }

    /** Indication number i is as the model has it and is counted once per holder; the running
        method holds one more pointer to the one numbered `local`, and the callback of the
        one numbered `opening` is not on record yet. */
    ghost predicate CountOk(i: nat, local: int, opening: int)
      requires i < |indications|
      reads this`notifications, this`indications, indications[i]
    {
      var p, s := indications[i], notifications;
      && p.id == i
      && (i != opening ==> (i in s.withCallback <==> p.callback))
      && (i in s.succeeded <==> p.hasSuccess)
      && p.useCount == |Holders(i)| + if i == local then 1 else 0
    }

    ghost predicate PendingOk()
      reads this`notifications, this`pendingIndications, this`indications
    {
      var s := notifications;
      && s.next == |indications|
      && s.pending.Keys == pendingIndications.Keys
      && (forall k | k in pendingIndications ::
            s.pending[k] < |indications| && pendingIndications[k] == indications[s.pending[k]])
      && (forall i | i in s.withCallback :: i < |indications|)
      && (forall i | i in s.succeeded :: i < |indications|)
    }

    ghost predicate IndicationsOk(local: int, opening: int)
      reads this`notifications, this`pendingIndications, this`indications, indications
    {
      PendingOk() && forall i | 0 <= i < |indications| :: CountOk(i, local, opening)
    }

    ghost predicate Valid()
      reads this, connections, indications
    {
      RegistryOk() && IndicationsOk(-1, -1)
    }

    constructor (serverId: int)
      ensures Valid() && this.serverId == serverId
      ensures registry == R.Run([]) && notifications == I.Run([])
    {
      this.serverId := serverId;
      connIdMap, connAddrMap, pendingIndications := map[], map[], map[];
      connections, indications := [], [];
      registry, notifications := R.State(R.EMPTY, []), I.INITIAL;
    }

    // ----- Connections

    /** The loop that erases the first connection of an id from a list. */
    method EraseFirst(list: seq<Connection>, connId: int, ghost refs: seq<nat>) returns (result: seq<Connection>)
      requires StoreOk() && SameList(list, refs)
      ensures SameList(result, R.RemoveFirst(registry.reg.store, refs, connId))
    {
      ghost var store := registry.reg.store;
      for i := 0 to |list|
        invariant forall k | 0 <= k < i :: !R.HasId(store, refs[k], connId)
      {
        if list[i].connId == connId {
          R.RemoveFirstAt(store, refs, connId, i);
          return list[..i] + list[i + 1..];
        }
      }
      R.RemoveFirstAt(store, refs, connId, |refs|);
      return list;
    }

    method Disconnected(connId: int, bda: Address)
      requires RegistryOk()
      modifies this`connIdMap, this`connAddrMap, this`registry
      ensures RegistryOk() && registry == R.Next(old(registry), R.Disconnect(connId, bda))
    {
      var key := BtAddrString(bda);
      connIdMap := connIdMap - {connId};
      if key in connAddrMap {
        var list := EraseFirst(connAddrMap[key], connId, registry.reg.byAddr[key]);
        connAddrMap := connAddrMap[key := list];
      }
      registry := R.Next(registry, R.Disconnect(connId, bda));
    }

    /** A new connection enters the index by id. */
    method FileById(connection: Connection)
      requires RegistryOk() && connection.ref == |connections| && connection.requests == map[]
      modifies this`connIdMap, this`connections, this`registry
      ensures RegistryOk() && Known(connection)
      ensures var r := old(registry).reg;
              registry == old(registry).(reg := r.(
                store := r.store + [R.Conn(connection.connId, connection.bdaddr, map[])],
                byId := r.byId[connection.connId := connection.ref]))
    {
      ghost var r := registry.reg;
      registry := registry.(reg := r.(store := r.store + [R.Conn(connection.connId, connection.bdaddr, map[])],
                                      byId := r.byId[connection.connId := connection.ref]));
      connections := connections + [connection];
      connIdMap := connIdMap[connection.connId := connection];
      forall a | a in connAddrMap ensures SameList(connAddrMap[a], registry.reg.byAddr[a]) {
        assert old(SameList(connAddrMap[a], registry.reg.byAddr[a]));
      }
    }

    /** It enters the list of its address at the end. */
    method FileByAddress(connection: Connection, key: string)
      requires RegistryOk() && Known(connection)
      modifies this`connAddrMap, this`registry
      ensures RegistryOk()
      ensures var r := old(registry).reg;
              registry == old(registry).(reg := r.(byAddr := r.byAddr[key := R.ListOf(r, key) + [connection.ref]]))
    {
      var list := if key in connAddrMap then connAddrMap[key] else [];
      ghost var refs := R.ListOf(registry.reg, key);
      assert SameList(list, refs);
      registry := registry.(reg := registry.reg.(byAddr := registry.reg.byAddr[key := refs + [connection.ref]]));
      connAddrMap := connAddrMap[key := list + [connection]];
      assert SameList(list + [connection], refs + [connection.ref]);
      forall a | a in connAddrMap ensures SameList(connAddrMap[a], registry.reg.byAddr[a]) {
        if a != key { assert old(SameList(connAddrMap[a], registry.reg.byAddr[a])); }
      }
    }

    method Connected(connId: int, bda: Address)
      requires RegistryOk()
      modifies this`connIdMap, this`connAddrMap, this`connections, this`registry
      ensures RegistryOk() && registry == R.Next(old(registry), R.Connect(connId, bda))
    {
      if connId in connIdMap { return; }
      var connection := new Connection(connId, bda, |connections|);
      FileById(connection);
      FileByAddress(connection, BtAddrString(bda));
    }

    method ConnectionCallback(connId: int, server: int, connected: bool, bda: Address)
      requires Valid()
      modifies this`connIdMap, this`connAddrMap, this`connections, this`registry
      ensures Valid()
      ensures registry == if server != serverId then old(registry)
                          else R.Next(old(registry),
                                      if connected then R.Connect(connId, bda) else R.Disconnect(connId, bda))
    {
      if server != serverId { return; }
      if !connected {
        Disconnected(connId, bda);
      } else {
        Connected(connId, bda);
      }
    }

    // ----- Requests and responses

    method GetConnection(connId: int, bda: Address, requestId: int) returns (conn: Connection?)
      requires RegistryOk()
      ensures var found := R.GetConnection(registry.reg, connId, bda, requestId);
              if found.None? then conn == null
              else conn != null && Known(conn) && conn.ref == found.value
    {
      if connId !in connIdMap { return null; }
      conn := connIdMap[connId];
      if conn.bdaddr != bda { return null; }
      if requestId in conn.requests { return null; }
    }

    /** The pending requests of one connection change. */
    method SetRequests(conn: Connection, requests: map<int, int>)
      requires RegistryOk() && Known(conn)
      modifies this`registry, conn`requests
      ensures RegistryOk() && conn.requests == requests && old(conn.ref < |registry.reg.store|)
      ensures registry == old(registry).(reg := R.SetRequests(old(registry).reg, conn.ref, requests))
    {
      registry := registry.(reg := R.SetRequests(registry.reg, conn.ref, requests));
      conn.requests := requests;
    }

    /** The request callbacks.  A read always needs a response, and so does an execute-write,
        which has no attribute of its own and is recorded with handle -1.  `delivered` tells
        whether the delegate is called. */
    method RequestCallback(connId: int, transId: int, bda: Address, handle: int, needResponse: bool)
      returns (delivered: bool)
      requires Valid()
      modifies this`registry, connections
      ensures Valid() && connections == old(connections)
      ensures registry == R.Next(old(registry), R.Request(connId, transId, bda, handle, needResponse))
      ensures delivered == R.GetConnection(old(registry).reg, connId, bda, transId).Some?
    {
      delivered := Record(connId, transId, bda, handle, needResponse);
    }

    method Record(connId: int, transId: int, bda: Address, handle: int, needResponse: bool) returns (found: bool)
      requires RegistryOk()
      modifies this`registry, connections
      ensures RegistryOk() && connections == old(connections)
      ensures registry == R.Next(old(registry), R.Request(connId, transId, bda, handle, needResponse))
      ensures found == R.GetConnection(old(registry).reg, connId, bda, transId).Some?
    {
      var conn := GetConnection(connId, bda, transId);
      if conn == null { return false; }
      ghost var next := R.Next(registry, R.Request(connId, transId, bda, handle, needResponse));
      if needResponse { SetRequests(conn, conn.requests[transId := handle]); }
      registry := registry.(log := next.log);
      return true;
    }

    /** The loop that looks for the connection a request is pending on. */
    method FindPending(list: seq<Connection>, requestId: int, ghost refs: seq<nat>) returns (conn: Connection?)
      requires StoreOk() && SameList(list, refs)
      ensures var found := R.FindPending(registry.reg.store, refs, requestId);
              if found.None? then conn == null
              else conn != null && Known(conn) && conn.ref == found.value
    {
      conn := null;
      for i := 0 to |list|
        invariant var found := R.FindPending(registry.reg.store, refs[..i], requestId);
                  if found.None? then conn == null
                  else conn != null && Known(conn) && conn.ref == found.value
      {
        assert refs[..i + 1][..i] == refs[..i];
        if requestId !in list[i].requests { continue; }
        conn := list[i];
      }
      assert refs[..|list|] == refs;
    }

    /** The checks of SendResponse before it reaches the HAL. */
    method FindTarget(address: string, requestId: int, length: nat, offset: nat) returns (conn: Connection?)
      requires RegistryOk()
      ensures var found := R.ResponseTarget(registry.reg, address, requestId, length, offset);
              if found.None? then conn == null
              else conn != null && Known(conn) && conn.ref == found.value
    {
      var addr := FromString(address);
      if addr.None? { return null; }
      if length + offset > R.MAX_ATTRIBUTE_LENGTH { return null; }
      if address !in connAddrMap { return null; }
      conn := FindPending(connAddrMap[address], requestId, registry.reg.byAddr[address]);
    }

    method SendResponse(address: string, requestId: int, error: int, offset: nat, value: seq<Byte>, halOk: bool)
      returns (ok: bool, sent: Option<Response>)
      requires Valid()
      modifies this`registry, connections
      ensures Valid() && connections == old(connections)
      ensures registry == R.Next(old(registry), R.Respond(address, requestId, |value|, offset, halOk))
      ensures var found := R.ResponseTarget(old(registry).reg, address, requestId, |value|, offset);
              && ok == (found.Some? && halOk)
              && (sent.Some? <==> found.Some?)
              && (sent.Some? ==>
                    var r, c := sent.value, old(registry).reg.store[found.value];
                    && r.connId == c.connId && r.requestId == requestId && r.error == error
                    && r.handle == c.requests[requestId]
                    && (r.handle == -1 ==> r.offset == 0 && r.value == [])
                    && (r.handle != -1 ==> r.offset == offset && r.value == value))
    {
      ok, sent := Respond(address, requestId, error, offset, value, halOk);
    }

    method Respond(address: string, requestId: int, error: int, offset: nat, value: seq<Byte>, halOk: bool)
      returns (ok: bool, sent: Option<Response>)
      requires RegistryOk()
      modifies this`registry, connections
      ensures RegistryOk() && connections == old(connections)
      ensures registry == R.Next(old(registry), R.Respond(address, requestId, |value|, offset, halOk))
      ensures var found := R.ResponseTarget(old(registry).reg, address, requestId, |value|, offset);
              && ok == (found.Some? && halOk)
              && (sent.Some? <==> found.Some?)
              && (sent.Some? ==>
                    var r, c := sent.value, old(registry).reg.store[found.value];
                    && r.connId == c.connId && r.requestId == requestId && r.error == error
                    && r.handle == c.requests[requestId]
                    && (r.handle == -1 ==> r.offset == 0 && r.value == [])
                    && (r.handle != -1 ==> r.offset == offset && r.value == value))
    {
      var connection := FindTarget(address, requestId, |value|, offset);
      if connection == null { return false, None; }
      var handle := connection.requests[requestId];
      var response := Response(connection.connId, requestId, error, handle, 0, []);
      if handle != -1 { response := response.(offset := offset, value := value); }
      sent := Some(response);
      if !halOk { return false, sent; }
      Forget(connection, address, requestId, |value|, offset);
      return true, sent;
    }

    /** The answered request is erased. */
    method Forget(connection: Connection, ghost address: string, requestId: int, ghost length: nat, ghost offset: nat)
      requires RegistryOk() && Known(connection)
      requires R.ResponseTarget(registry.reg, address, requestId, length, offset) == Some(connection.ref)
      modifies this`registry, connection`requests
      ensures RegistryOk()
      ensures registry == R.Next(old(registry), R.Respond(address, requestId, length, offset, true))
    {
      ghost var next := R.Next(registry, R.Respond(address, requestId, length, offset, true));
      SetRequests(connection, connection.requests - {requestId});
      registry := registry.(log := next.log);
    }

    // ----- Notifications and indications

    ghost function Targets(list: seq<Connection>): seq<int>
    {
      seq(|list|, i requires 0 <= i < |list| => list[i].connId)
    }

    /** One turn of the sending loop. */
    method SendTo(conn: int, ind: PendingIndication, halOk: bool) returns (sent: bool)
      requires ind.id < |indications| && indications[ind.id] == ind && IndicationsOk(ind.id, ind.id)
      modifies this`pendingIndications, this`notifications, ind`useCount
      ensures IndicationsOk(ind.id, ind.id)
      ensures notifications == I.SendOne(old(notifications), ind.id, conn, halOk)
      ensures sent == (conn !in old(notifications).pending && halOk)
    {
      if conn in pendingIndications { return false; }
      if !halOk { return false; }
      ghost var before := notifications.pending;
      pendingIndications := pendingIndications[conn := ind];
      ind.useCount := ind.useCount + 1;
      notifications := I.SendOne(notifications, ind.id, conn, halOk);
      forall i | 0 <= i < |indications| ensures CountOk(i, ind.id, ind.id) {
        assert old(CountOk(i, ind.id, ind.id));
        I.OneMoreHolder(before, conn, ind.id, i);
      }
      return true;
    }

    /** A fresh pending indication, held only by the running method. */
    method OpenIndication(callback: bool) returns (ind: PendingIndication)
      requires IndicationsOk(-1, -1)
      modifies this`indications, this`notifications
      ensures fresh(ind) && ind.id == old(|indications|) && indications == old(indications) + [ind]
      ensures ind.callback == callback && IndicationsOk(ind.id, ind.id) && Holders(ind.id) == {}
      ensures notifications == old(notifications).(next := old(notifications).next + 1)
      ensures ind.id !in notifications.withCallback
    {
      forall k | k in notifications.pending ensures notifications.pending[k] < |indications| {
        assert k in pendingIndications;
      }
      ind := new PendingIndication(callback, |indications|);
      indications := indications + [ind];
      notifications := notifications.(next := notifications.next + 1);
      forall i | 0 <= i < |indications| ensures CountOk(i, ind.id, ind.id) {
        if i < |old(indications)| { assert old(CountOk(i, -1, -1)); } else { assert Holders(i) == {}; }
      }
    }

    /** The end of SendNotification, where its pointer goes out of scope. */
    method CloseIndication(ind: PendingIndication, ok: bool)
      requires ind.id < |indications| && indications[ind.id] == ind && IndicationsOk(ind.id, ind.id)
      requires ind.id !in notifications.withCallback
      modifies this`notifications, ind`useCount
      ensures IndicationsOk(-1, -1)
      ensures notifications ==
        old(notifications).(withCallback := old(notifications).withCallback + if ind.callback then {ind.id} else {},
                            log := old(notifications).log + [I.Returned(ind.id, ok, ind.callback)])
    {
      assert CountOk(ind.id, ind.id, ind.id);
      ind.useCount := ind.useCount - 1;
      notifications :=
        notifications.(withCallback := notifications.withCallback + if ind.callback then {ind.id} else {},
                       log := notifications.log + [I.Returned(ind.id, ok, ind.callback)]);
      forall i | 0 <= i < |indications| ensures CountOk(i, -1, -1) { assert old(CountOk(i, ind.id, ind.id)); }
    }

    /** `results[i]` is the HAL's answer for the i-th connection of the device. */
    method SendNotification(address: string, callback: bool, results: seq<bool>) returns (ok: bool)
      requires Valid()
      requires address in connAddrMap ==> |connAddrMap[address]| <= |results|
      modifies this`pendingIndications, this`indications, this`notifications, indications
      ensures Valid()
      ensures !Accepted(address) || address !in connAddrMap ==> !ok && notifications == old(notifications)
      ensures Accepted(address) && address in connAddrMap ==>
                && notifications ==
                   I.Next(old(notifications), I.Notify(Targets(connAddrMap[address]), results, callback))
                && ok == I.Waits(notifications.pending, old(notifications).next)
    {
      var addr := FromString(address);
      if addr.None? { return false; }
      if address !in connAddrMap { return false; }
      ok := SendToAll(connAddrMap[address], callback, results);
    }

    method SendToAll(list: seq<Connection>, callback: bool, results: seq<bool>) returns (ok: bool)
      requires IndicationsOk(-1, -1) && |list| <= |results|
      modifies this`pendingIndications, this`indications, this`notifications, indications
      ensures IndicationsOk(-1, -1)
      ensures notifications == I.Notified(old(notifications), Targets(list), results, callback)
      ensures ok == I.Waits(notifications.pending, old(notifications).next)
    {
      var pending := OpenIndication(callback);
      ghost var start, id, targets := notifications, pending.id, Targets(list);
      var sendCount := 0;
      for i := 0 to |list|
        invariant indications == old(indications) + [pending] && pending.id == id == |old(indications)|
        invariant IndicationsOk(id, id)
        invariant notifications == I.SendAll(start, id, targets[..i], results)
        invariant notifications.withCallback == start.withCallback
        invariant sendCount == |Holders(id)|
      {
        assert targets[..i + 1][..i] == targets[..i];
        ghost var before := notifications.pending;
        var sent := SendTo(list[i].connId, pending, results[i]);
        if sent {
          sendCount := sendCount + 1;
          I.OneMoreHolder(before, list[i].connId, id, id);
        }
      }
      assert targets[..|list|] == targets;
      ok := sendCount > 0;
      I.NoHolders(notifications.pending, id);
      CloseIndication(pending, ok);
    }

    /** The part of IndicationSentCallback that takes its connection off the pending map:
        on return the method's own pointer is counted instead. */
    method TakeIndication(connId: int, status: int) returns (pending: PendingIndication)
      requires IndicationsOk(-1, -1) && connId in pendingIndications
      modifies this`pendingIndications, this`notifications, indications
      ensures indications == old(indications)
      ensures pending.id == old(notifications).pending[connId] && pending == indications[pending.id]
      ensures IndicationsOk(pending.id, -1)
      ensures var s := old(notifications);
              notifications == I.State(s.pending - {connId},
                if status == I.SUCCESS then s.succeeded + {pending.id} else s.succeeded,
                s.withCallback, s.next, s.log + [I.Confirmed(pending.id, connId, status)])
    {
      pending := pendingIndications[connId];
      assert CountOk(notifications.pending[connId], -1, -1);
      pending.useCount := pending.useCount + 1;
      pendingIndications := pendingIndications - {connId};
      pending.useCount := pending.useCount - 1;
      if status == I.SUCCESS { pending.hasSuccess := true; }
      ghost var s := notifications;
      notifications := I.State(s.pending - {connId},
        if status == I.SUCCESS then s.succeeded + {pending.id} else s.succeeded,
        s.withCallback, s.next, s.log + [I.Confirmed(pending.id, connId, status)]);
      forall i | 0 <= i < |indications| ensures CountOk(i, pending.id, -1) {
        assert old(CountOk(i, -1, -1));
        I.OneHolderLess(s.pending, connId, i);
      }
    }

    /** The method's own pointer goes out of scope. */
    method ReleaseIndication(pending: PendingIndication)
      requires pending.id < |indications| && indications[pending.id] == pending && IndicationsOk(pending.id, -1)
      modifies pending`useCount
      ensures IndicationsOk(-1, -1)
    {
      assert CountOk(pending.id, pending.id, -1);
      pending.useCount := pending.useCount - 1;
      forall i | 0 <= i < |indications| ensures CountOk(i, -1, -1) { assert old(CountOk(i, pending.id, -1)); }
    }

    /** Calls the callback if this pointer is the last one. */
    method FireIfLast(pending: PendingIndication, status: int) returns (fired: Option<int>)
      requires pending.id < |indications| && indications[pending.id] == pending && IndicationsOk(pending.id, -1)
      modifies this`notifications
      ensures IndicationsOk(pending.id, -1)
      ensures var s, id := old(notifications), pending.id;
              && (fired.Some? <==> !I.Waits(s.pending, id) && id in s.withCallback)
              && (fired.Some? ==> fired.value == if id in s.succeeded then I.ERROR_NONE else status)
              && notifications == if fired.Some? then s.(log := s.log + [I.Fired(id, fired.value)]) else s
    {
      fired := None;
      assert CountOk(pending.id, pending.id, -1);
      I.NoHolders(notifications.pending, pending.id);
      if pending.useCount == 1 && pending.callback {
        fired := Some(if pending.hasSuccess then I.ERROR_NONE else status);
        notifications := notifications.(log := notifications.log + [I.Fired(pending.id, fired.value)]);
        forall i | 0 <= i < |indications| ensures CountOk(i, pending.id, -1) { assert old(CountOk(i, pending.id, -1)); }
      }
    }

    /** `fired` is what the callback is called with, if it is called. */
    method IndicationSentCallback(connId: int, status: int) returns (fired: Option<int>)
      requires Valid()
      modifies this`pendingIndications, this`notifications, indications
      ensures Valid() && indications == old(indications)
      ensures notifications == I.Next(old(notifications), I.Confirm(connId, status))
      ensures var log, log' := old(notifications).log, notifications.log;
              if fired.Some?
              then |log'| == |log| + 2 && log'[|log| + 1] == I.Fired(old(notifications).pending[connId], fired.value)
              else |log'| <= |log| + 1
    {
      fired := None;
      if connId !in pendingIndications { return; }
      var pending := TakeIndication(connId, status);
      fired := FireIfLast(pending, status);
      ReleaseIndication(pending);
    }
  }
}
