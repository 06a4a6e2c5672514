/**
 The two connection indexes of GattServer and the requests pending on each connection.
 A connection object is named by its position in the order of creation, so that both
 indexes can hold the same object.
 */
module Registry {
  import opened Options
  import opened Addresses

  const MAX_ATTRIBUTE_LENGTH: int := 600

  datatype Conn = Conn(connId: int, addr: Address, requests: map<int, int>)

  datatype Registry = Registry(
    store: seq<Conn>,
    byId: map<int, nat>,
    byAddr: map<string, seq<nat>>)

  const EMPTY: Registry := Registry([], map[], map[])

  // ----- ConnectionCallback

  function ListOf(r: Registry, key: string): seq<nat>
  {
    if key in r.byAddr then r.byAddr[key] else []
  }

  function Connected(r: Registry, connId: int, addr: Address): Registry
  {
    if connId in r.byId then r else
      var n, key := |r.store|, BtAddrString(addr);
      Registry(r.store + [Conn(connId, addr, map[])], r.byId[connId := n], r.byAddr[key := ListOf(r, key) + [n]])
  }

  predicate HasId(store: seq<Conn>, n: nat, connId: int)
  {
    n < |store| && store[n].connId == connId
  }

  /** The list without its first connection of the given id. */
  function RemoveFirst(store: seq<Conn>, list: seq<nat>, connId: int): seq<nat>
  {
    if list == [] then []
    else if HasId(store, list[0], connId) then list[1..]
    else [list[0]] + RemoveFirst(store, list[1..], connId)
  }

  function Disconnected(r: Registry, connId: int, addr: Address): Registry
  {
    var key := BtAddrString(addr);
    var byId := r.byId - {connId};
    if key !in r.byAddr then r.(byId := byId)
    else r.(byId := byId, byAddr := r.byAddr[key := RemoveFirst(r.store, r.byAddr[key], connId)])
  }

  // ----- Requests and responses

  /** GetConnection: a known connection to this device on which the request is not pending. */
  function GetConnection(r: Registry, connId: int, addr: Address, requestId: int): Option<nat>
  {
    if connId !in r.byId || r.byId[connId] >= |r.store| then None else
      var c := r.store[r.byId[connId]];
      if c.addr != addr || requestId in c.requests then None else Some(r.byId[connId])
  }

  function SetRequests(r: Registry, n: nat, requests: map<int, int>): Registry
    requires n < |r.store|
  {
    r.(store := r.store[n := r.store[n].(requests := requests)])
  }

  predicate IsPending(store: seq<Conn>, n: nat, requestId: int)
  {
    n < |store| && requestId in store[n].requests
  }

  /** The last connection of the list on which the request is pending. */
  function FindPending(store: seq<Conn>, list: seq<nat>, requestId: int): (found: Option<nat>)
    ensures found.Some? ==> found.value in list && IsPending(store, found.value, requestId)
    ensures found.None? ==> forall n | n in list :: !IsPending(store, n, requestId)
  {
    if list == [] then None else
      var n := list[|list| - 1];
      if IsPending(store, n, requestId) then Some(n) else FindPending(store, list[..|list| - 1], requestId)
  }

  /** The connection SendResponse answers on, if it gets as far as the HAL. */
  function ResponseTarget(r: Registry, address: string, requestId: int, length: nat, offset: nat): (found: Option<nat>)
    ensures found.Some? ==> IsPending(r.store, found.value, requestId)
  {
    if !Accepted(address) || length + offset > MAX_ATTRIBUTE_LENGTH || address !in r.byAddr then None
    else FindPending(r.store, r.byAddr[address], requestId)
  }

  // ----- Runs

  datatype Event =
    | Received(conn: nat, requestId: int, handle: int, addr: Address)
    | Unanswerable(conn: nat, requestId: int)
    | Answered(conn: nat, requestId: int, handle: int, address: string)

  datatype Action =
    | Connect(connId: int, addr: Address)
    | Disconnect(connId: int, addr: Address)
    | Request(connId: int, requestId: int, addr: Address, handle: int, needResponse: bool)
    | Respond(address: string, requestId: int, length: nat, offset: nat, halOk: bool)

  datatype State = State(reg: Registry, log: seq<Event>)

  function Requested(s: State, a: Action): State
    requires a.Request?
  {
    var found := GetConnection(s.reg, a.connId, a.addr, a.requestId);
    if found.None? then s
    else if !a.needResponse then s.(log := s.log + [Unanswerable(found.value, a.requestId)])
    else
      var n := found.value;
      State(SetRequests(s.reg, n, s.reg.store[n].requests[a.requestId := a.handle]),
            s.log + [Received(n, a.requestId, a.handle, a.addr)])
  }

  function Responded(s: State, a: Action): State
    requires a.Respond?
  {
    var found := ResponseTarget(s.reg, a.address, a.requestId, a.length, a.offset);
    if found.None? || !a.halOk then s else
      var n := found.value;
      var requests := s.reg.store[n].requests;
      State(SetRequests(s.reg, n, requests - {a.requestId}),
            s.log + [Answered(n, a.requestId, requests[a.requestId], a.address)])
  }

  function Next(s: State, a: Action): State
  {
    match a
    case Connect(connId, addr) => s.(reg := Connected(s.reg, connId, addr))
    case Disconnect(connId, addr) => s.(reg := Disconnected(s.reg, connId, addr))
    case Request(_, _, _, _, _) => Requested(s, a)
    case Respond(_, _, _, _, _) => Responded(s, a)
  }

  function Run(actions: seq<Action>): State
  {
    if actions == [] then State(EMPTY, []) else
      var n := |actions| - 1;
      Next(Run(actions[..n]), actions[n])
  }

  // ----- The indexes

  ghost predicate NoRepeats(list: seq<nat>)
  {
    list == [] || (list[0] !in list[1..] && NoRepeats(list[1..]))
  }

  lemma {:induction false} NoRepeatsAppend(list: seq<nat>, n: nat)
    requires NoRepeats(list) && n !in list
    ensures NoRepeats(list + [n])
  {
    if list != [] {
      NoRepeatsAppend(list[1..], n);
      assert (list + [n])[1..] == list[1..] + [n];
    }
  }

  ghost predicate FiledAt(r: Registry, n: nat)
  {
    n < |r.store| && n in ListOf(r, BtAddrString(r.store[n].addr))
  }

  ghost predicate ListOk(r: Registry, key: string, list: seq<nat>)
  {
    NoRepeats(list) && forall n | n in list :: n < |r.store| && BtAddrString(r.store[n].addr) == key
  }

  /** Every connection known by id is filed under its own address, and every list holds
      connections of its address, each once. */
  ghost predicate Filed(r: Registry)
  {
    && (forall k | k in r.byId :: FiledAt(r, r.byId[k]) && r.store[r.byId[k]].connId == k)
    && (forall key | key in r.byAddr :: ListOk(r, key, r.byAddr[key]))
  }

  /** Every connection that is filed is also known by its id. */
  ghost predicate Agree(r: Registry)
  {
    forall key, n | key in r.byAddr && n in r.byAddr[key] && n < |r.store| ::
      r.store[n].connId in r.byId && r.byId[r.store[n].connId] == n
  }

  lemma {:induction false} RemoveFirstMembers(store: seq<Conn>, list: seq<nat>, connId: int, n: nat)
    ensures n in RemoveFirst(store, list, connId) ==> n in list
    ensures n in list && !HasId(store, n, connId) ==> n in RemoveFirst(store, list, connId)
  {
    if list != [] {
      assert list == [list[0]] + list[1..];
      if !HasId(store, list[0], connId) { RemoveFirstMembers(store, list[1..], connId, n); }
    }
  }

  /** RemoveFirst takes out position i, or nothing. */
  lemma {:induction false} RemoveFirstAt(store: seq<Conn>, list: seq<nat>, connId: int, i: nat)
    requires i <= |list| && forall k | 0 <= k < i :: !HasId(store, list[k], connId)
    ensures i < |list| && HasId(store, list[i], connId) ==>
              RemoveFirst(store, list, connId) == list[..i] + list[i + 1..]
    ensures i == |list| ==> RemoveFirst(store, list, connId) == list
  {
    if i > 0 {
      RemoveFirstAt(store, list[1..], connId, i - 1);
      if i < |list| { assert list[..i] == [list[0]] + list[1..][..i - 1]; }
    }
  }

  lemma {:induction false} RemoveFirstNoRepeats(store: seq<Conn>, list: seq<nat>, connId: int)
    requires NoRepeats(list)
    ensures NoRepeats(RemoveFirst(store, list, connId))
  {
    if list != [] && !HasId(store, list[0], connId) {
      RemoveFirstNoRepeats(store, list[1..], connId);
      RemoveFirstMembers(store, list[1..], connId, list[0]);
      assert RemoveFirst(store, list, connId)[1..] == RemoveFirst(store, list[1..], connId);
    }
  }

  /** The only connection of its id is gone afterwards. */
  lemma {:induction false} RemoveFirstRemoves(store: seq<Conn>, list: seq<nat>, connId: int, n: nat)
    requires NoRepeats(list) && HasId(store, n, connId)
    requires forall m | m in list && HasId(store, m, connId) :: m == n
    ensures n !in RemoveFirst(store, list, connId)
  {
    if list != [] {
      assert list == [list[0]] + list[1..];
      if list[0] != n { RemoveFirstRemoves(store, list[1..], connId, n); } else { assert n in list; }
    }
  }

  lemma {:induction false} RemoveFirstKeeps(store: seq<Conn>, list: seq<nat>, connId: int)
    requires NoRepeats(list)
    ensures NoRepeats(RemoveFirst(store, list, connId))
    ensures forall n | n in RemoveFirst(store, list, connId) :: n in list
    ensures forall n | n in list && !HasId(store, n, connId) :: n in RemoveFirst(store, list, connId)
  {
    RemoveFirstNoRepeats(store, list, connId);
    forall n: nat
      ensures n in RemoveFirst(store, list, connId) ==> n in list
      ensures n in list && !HasId(store, n, connId) ==> n in RemoveFirst(store, list, connId)
    {
      RemoveFirstMembers(store, list, connId, n);
    }
  }

  lemma {:induction false} ConnectedListsOk(r: Registry, connId: int, addr: Address, key: string)
    requires Filed(r) && connId !in r.byId && key in Connected(r, connId, addr).byAddr
    ensures var r' := Connected(r, connId, addr); ListOk(r', key, r'.byAddr[key])
  {
    var r', list := Connected(r, connId, addr), ListOf(r, key);
    assert key in r.byAddr ==> ListOk(r, key, list);
    assert NoRepeats(list) && forall n | n in list :: n < |r.store| && BtAddrString(r.store[n].addr) == key;
    if key == BtAddrString(addr) { NoRepeatsAppend(list, |r.store|); }
  }

  lemma {:induction false} ConnectedIdsOk(r: Registry, connId: int, addr: Address, k: int)
    requires Filed(r) && connId !in r.byId && k in Connected(r, connId, addr).byId
    ensures var r' := Connected(r, connId, addr); FiledAt(r', r'.byId[k]) && r'.store[r'.byId[k]].connId == k
  {
    if k != connId { assert FiledAt(r, r.byId[k]); }
  }

  lemma {:induction false} ConnectedFiled(r: Registry, connId: int, addr: Address)
    requires Filed(r)
    ensures Filed(Connected(r, connId, addr))
  {
    var r' := Connected(r, connId, addr);
    if connId !in r.byId {
      forall k | k in r'.byId ensures FiledAt(r', r'.byId[k]) && r'.store[r'.byId[k]].connId == k {
        ConnectedIdsOk(r, connId, addr, k);
      }
      forall x | x in r'.byAddr ensures ListOk(r', x, r'.byAddr[x]) { ConnectedListsOk(r, connId, addr, x); }
    }
  }

  lemma {:induction false} ConnectedAgrees(r: Registry, connId: int, addr: Address)
    requires Filed(r) && Agree(r)
    ensures Agree(Connected(r, connId, addr))
  {
    var r' := Connected(r, connId, addr);
    if connId !in r.byId {
      forall x, n | x in r'.byAddr && n in r'.byAddr[x] && n < |r'.store|
        ensures r'.store[n].connId in r'.byId && r'.byId[r'.store[n].connId] == n
      {
        if n < |r.store| { assert x in r.byAddr && n in r.byAddr[x]; }
      }
    }
  }

  lemma {:induction false} DisconnectedFiled(r: Registry, connId: int, addr: Address)
    requires Filed(r)
    ensures Filed(Disconnected(r, connId, addr))
  {
    var r', key := Disconnected(r, connId, addr), BtAddrString(addr);
    if key in r.byAddr {
      assert ListOk(r, key, r.byAddr[key]);
      RemoveFirstKeeps(r.store, r.byAddr[key], connId);
    }
    forall k | k in r'.byId ensures FiledAt(r', r'.byId[k]) && r'.store[r'.byId[k]].connId == k {
      assert FiledAt(r, r.byId[k]);
    }
    forall x | x in r'.byAddr ensures ListOk(r', x, r'.byAddr[x]) { assert ListOk(r, x, r.byAddr[x]); }
  }

  lemma {:induction false} SetRequestsFiled(r: Registry, n: nat, requests: map<int, int>)
    requires Filed(r) && n < |r.store|
    ensures Filed(SetRequests(r, n, requests))
    ensures Agree(r) ==> Agree(SetRequests(r, n, requests))
  {
    var r' := SetRequests(r, n, requests);
    forall k | k in r'.byId ensures FiledAt(r', r'.byId[k]) && r'.store[r'.byId[k]].connId == k {
      assert FiledAt(r, r.byId[k]);
    }
    forall x | x in r'.byAddr ensures ListOk(r', x, r'.byAddr[x]) { assert ListOk(r, x, r.byAddr[x]); }
  }

  /** From agreeing indexes, a disconnect keeps them agreeing exactly when the connection is
      unknown or the address reported is the one it was opened with. */
  lemma {:induction false} DisconnectAgrees(r: Registry, connId: int, addr: Address)
    requires Filed(r) && Agree(r)
    ensures Agree(Disconnected(r, connId, addr)) <==>
            connId !in r.byId || r.store[r.byId[connId]].addr == addr
  {
    var r', key := Disconnected(r, connId, addr), BtAddrString(addr);
    if key in r.byAddr {
      assert ListOk(r, key, r.byAddr[key]);
      RemoveFirstKeeps(r.store, r.byAddr[key], connId);
    }
    if connId in r.byId {
      var n := r.byId[connId];
      var own := BtAddrString(r.store[n].addr);
      assert FiledAt(r, n);
      if r.store[n].addr != addr {
        if own == key { BtAddrStringInjective(r.store[n].addr, addr); }
        assert n in r'.byAddr[own] && connId !in r'.byId;
      } else {
        RemoveFirstRemoves(r.store, r.byAddr[key], connId, n);
        forall x, m | x in r'.byAddr && m in r'.byAddr[x] && m < |r'.store|
          ensures r'.store[m].connId in r'.byId && r'.byId[r'.store[m].connId] == m
        {
          assert m in r.byAddr[x];
          if r.store[m].connId == connId { assert ListOk(r, x, r.byAddr[x]); }
        }
      }
    }
  }

  lemma {:induction false} NextFiled(s: State, a: Action)
    requires Filed(s.reg)
    ensures Filed(Next(s, a).reg)
    ensures Agree(s.reg) && !a.Disconnect? ==> Agree(Next(s, a).reg)
  {
    match a
    case Connect(connId, addr) =>
      ConnectedFiled(s.reg, connId, addr);
      if Agree(s.reg) { ConnectedAgrees(s.reg, connId, addr); }
    case Disconnect(connId, addr) => DisconnectedFiled(s.reg, connId, addr);
    case Request(_, requestId, _, handle, _) =>
      var found := GetConnection(s.reg, a.connId, a.addr, requestId);
      if found.Some? {
        SetRequestsFiled(s.reg, found.value, s.reg.store[found.value].requests[requestId := handle]);
      }
    case Respond(address, requestId, length, offset, _) =>
      var found := ResponseTarget(s.reg, address, requestId, length, offset);
      if found.Some? {
        SetRequestsFiled(s.reg, found.value, s.reg.store[found.value].requests - {requestId});
      }
  }

  /** In every run the connection indexes are in order. */
  lemma {:induction false} RunFiled(actions: seq<Action>)
    ensures Filed(Run(actions).reg)
  {
    if actions != [] {
      var n := |actions| - 1;
      RunFiled(actions[..n]);
      NextFiled(Run(actions[..n]), actions[n]);
    }
  }

  /** Every disconnect of a known connection reports the address it was opened with. */
  ghost predicate Honest(actions: seq<Action>)
  {
    actions == [] ||
    var n := |actions| - 1;
    var a, r := actions[n], Run(actions[..n]).reg;
    && Honest(actions[..n])
    && (a.Disconnect? && a.connId in r.byId ==>
          r.byId[a.connId] < |r.store| && r.store[r.byId[a.connId]].addr == a.addr)
  }

  /** Then the two indexes hold exactly the same connections, each once. */
  lemma {:induction false} HonestRunAgrees(actions: seq<Action>)
    requires Honest(actions)
    ensures Filed(Run(actions).reg) && Agree(Run(actions).reg)
  {
    RunFiled(actions);
    if actions != [] {
      var n := |actions| - 1;
      HonestRunAgrees(actions[..n]);
      var s, a := Run(actions[..n]), actions[n];
      NextFiled(s, a);
      if a.Disconnect? { DisconnectAgrees(s.reg, a.connId, a.addr); }
    }
  }

  /** No two devices share a list. */
  lemma {:induction false} OneDevicePerList(actions: seq<Action>, key: string, m: nat, n: nat)
    requires var r := Run(actions).reg; key in r.byAddr && m in r.byAddr[key] && n in r.byAddr[key]
    ensures var r := Run(actions).reg; m < |r.store| && n < |r.store| && r.store[m].addr == r.store[n].addr
  {
    RunFiled(actions);
    var r := Run(actions).reg;
    assert ListOk(r, key, r.byAddr[key]);
    BtAddrStringInjective(r.store[m].addr, r.store[n].addr);
  }

  // ----- The history of requests

  datatype Key = Key(conn: nat, requestId: int)

  function KeyOf(e: Event): Key
  {
    Key(e.conn, e.requestId)
  }

  /** The requests received and not answered since, each with its arrival. */
  function Open(log: seq<Event>): map<Key, Event>
  {
    if log == [] then map[] else
      var n := |log| - 1;
      After(Open(log[..n]), log[n])
  }

  function After(open: map<Key, Event>, e: Event): map<Key, Event>
  {
    match e
    case Received(_, _, _, _) => open[KeyOf(e) := e]
    case Answered(_, _, _, _) => open - {KeyOf(e)}
    case Unanswerable(_, _) => open
  }

  /** A request is received only if it is not open, and answered only if it is, with the
      handle it arrived with and to the address of its connection. */
  ghost predicate Admissible(past: seq<Event>, e: Event)
  {
    var k := KeyOf(e);
    match e
    case Received(_, _, _, _) => k !in Open(past)
    case Unanswerable(_, _) => k !in Open(past)
    case Answered(_, _, handle, address) =>
      && k in Open(past)
      && Open(past)[k].Received? && Open(past)[k].handle == handle && BtAddrString(Open(past)[k].addr) == address
  }

  ghost predicate HistoryOk(log: seq<Event>)
  {
    log == [] || var n := |log| - 1; HistoryOk(log[..n]) && Admissible(log[..n], log[n])
  }

  ghost predicate OpenIs(store: seq<Conn>, open: map<Key, Event>, k: Key)
    requires k in open
  {
    && IsPending(store, k.conn, k.requestId)
    && var c := store[k.conn];
       open[k] == Received(k.conn, k.requestId, c.requests[k.requestId], c.addr)
  }

  /** The pending tables hold exactly the open requests. */
  ghost predicate Matches(store: seq<Conn>, open: map<Key, Event>)
  {
    && (forall k | k in open :: OpenIs(store, open, k))
    && (forall n: nat, q: int | IsPending(store, n, q) :: Key(n, q) in open)
  }

  ghost predicate Recorded(s: State)
  {
    HistoryOk(s.log) && Matches(s.reg.store, Open(s.log))
  }

  lemma {:induction false} Append(log: seq<Event>, e: Event)
    ensures Open(log + [e]) == After(Open(log), e)
    ensures HistoryOk(log + [e]) <==> HistoryOk(log) && Admissible(log, e)
  {
    assert (log + [e])[..|log|] == log;
  }

  /** Connections added without requests match too. */
  lemma {:induction false} MatchesMore(store: seq<Conn>, more: seq<Conn>, open: map<Key, Event>)
    requires Matches(store, open) && forall n | 0 <= n < |more| :: more[n].requests == map[]
    ensures Matches(store + more, open)
  {
    forall k | k in open ensures OpenIs(store + more, open, k) { assert OpenIs(store, open, k); }
    forall n: nat, q: int | IsPending(store + more, n, q) ensures Key(n, q) in open {
      assert IsPending(store, n, q);
    }
  }

  lemma {:induction false} MatchesReceived(store: seq<Conn>, open: map<Key, Event>, n: nat, q: int, handle: int)
    requires Matches(store, open) && n < |store| && q !in store[n].requests
    ensures Key(n, q) !in open
    ensures var c := store[n];
            Matches(store[n := c.(requests := c.requests[q := handle])],
                    open[Key(n, q) := Received(n, q, handle, c.addr)])
  {
    assert Key(n, q) !in open by {
      forall k | k in open ensures IsPending(store, k.conn, k.requestId) { assert OpenIs(store, open, k); }
    }
    var c := store[n];
    var store', open' := store[n := c.(requests := c.requests[q := handle])],
                         open[Key(n, q) := Received(n, q, handle, c.addr)];
    forall k | k in open' ensures OpenIs(store', open', k) {
      if k != Key(n, q) { assert OpenIs(store, open, k); }
    }
    forall m: nat, x: int | IsPending(store', m, x) ensures Key(m, x) in open' {
      if Key(m, x) != Key(n, q) { assert IsPending(store, m, x); }
    }
  }

  lemma {:induction false} MatchesAnswered(store: seq<Conn>, open: map<Key, Event>, n: nat, q: int)
    requires Matches(store, open) && IsPending(store, n, q)
    ensures Key(n, q) in open && OpenIs(store, open, Key(n, q))
    ensures var c := store[n]; Matches(store[n := c.(requests := c.requests - {q})], open - {Key(n, q)})
  {
    assert Key(n, q) in open && OpenIs(store, open, Key(n, q));
    var c := store[n];
    var store', open' := store[n := c.(requests := c.requests - {q})], open - {Key(n, q)};
    forall k | k in open' ensures OpenIs(store', open', k) { assert OpenIs(store, open, k); }
    forall m: nat, x: int | IsPending(store', m, x) ensures Key(m, x) in open' { assert IsPending(store, m, x); }
  }

  lemma {:induction false} RequestedRecorded(s: State, a: Action)
    requires a.Request? && Recorded(s)
    ensures Recorded(Requested(s, a))
  {
    var found := GetConnection(s.reg, a.connId, a.addr, a.requestId);
    if found.Some? {
      var n := found.value;
      MatchesReceived(s.reg.store, Open(s.log), n, a.requestId, a.handle);
      Append(s.log, if a.needResponse then Received(n, a.requestId, a.handle, a.addr)
                    else Unanswerable(n, a.requestId));
    }
  }

  lemma {:induction false} RespondedRecorded(s: State, a: Action)
    requires a.Respond? && Recorded(s) && Filed(s.reg)
    ensures Recorded(Responded(s, a))
  {
    var found := ResponseTarget(s.reg, a.address, a.requestId, a.length, a.offset);
    if found.Some? && a.halOk {
      var n := found.value;
      assert ListOk(s.reg, a.address, s.reg.byAddr[a.address]);
      MatchesAnswered(s.reg.store, Open(s.log), n, a.requestId);
      Append(s.log, Answered(n, a.requestId, s.reg.store[n].requests[a.requestId], a.address));
    }
  }

  lemma {:induction false} IndexRecorded(s: State, a: Action)
    requires (a.Connect? || a.Disconnect?) && Recorded(s)
    ensures Recorded(Next(s, a))
  {
    if a.Connect? && a.connId !in s.reg.byId {
      MatchesMore(s.reg.store, [Conn(a.connId, a.addr, map[])], Open(s.log));
    }
  }

  lemma {:induction false} RunRecorded(actions: seq<Action>)
    ensures Recorded(Run(actions))
  {
    if actions != [] {
      var n := |actions| - 1;
      RunRecorded(actions[..n]);
      RunFiled(actions[..n]);
      var s, a := Run(actions[..n]), actions[n];
      match a
      case Request(_, _, _, _, _) => RequestedRecorded(s, a);
      case Respond(_, _, _, _, _) => RespondedRecorded(s, a);
      case _ => IndexRecorded(s, a);
    }
  }

  // ----- The theorems

  lemma {:induction false} HistoryAt(log: seq<Event>, j: nat)
    requires HistoryOk(log) && j < |log|
    ensures HistoryOk(log[..j]) && Admissible(log[..j], log[j])
  {
    var n := |log| - 1;
    if j < n {
      HistoryAt(log[..n], j);
      assert log[..n][..j] == log[..j];
    }
  }

  ghost predicate AnsweredAt(log: seq<Event>, i: nat, k: Key)
  {
    i < |log| && log[i].Answered? && KeyOf(log[i]) == k
  }

  /** An open request is open since its arrival. */
  lemma {:induction false} OpenSince(log: seq<Event>, k: Key) returns (i: nat)
    requires HistoryOk(log) && k in Open(log)
    ensures i < |log| && log[i].Received? && log[i] == Open(log)[k] && KeyOf(log[i]) == k
    ensures forall x | i < x < |log| :: !AnsweredAt(log, x, k)
  {
    var n := |log| - 1;
    if KeyOf(log[n]) == k && log[n].Received? {
      i := n;
    } else {
      i := OpenSince(log[..n], k);
      forall x | i < x < |log| ensures !AnsweredAt(log, x, k) {
        if x < n { assert !AnsweredAt(log[..n], x, k); }
      }
    }
  }

  lemma {:induction false} StillOpen(log: seq<Event>, i: nat)
    requires HistoryOk(log) && i < |log| && log[i].Received?
    requires forall x | i < x < |log| :: !AnsweredAt(log, x, KeyOf(log[i]))
    ensures KeyOf(log[i]) in Open(log)
  {
    var n := |log| - 1;
    if i < n {
      forall x | i < x < n ensures !AnsweredAt(log[..n], x, KeyOf(log[i])) {
        assert !AnsweredAt(log, x, KeyOf(log[i]));
      }
      StillOpen(log[..n], i);
      assert !AnsweredAt(log, n, KeyOf(log[i]));
    }
  }

  /** Every response answers a request that needed one, with the handle recorded on arrival
      and to the address of the connection it came in on; between the two the request was
      not answered. */
  lemma {:induction false} AnsweredOnceAsReceived(actions: seq<Action>, j: nat) returns (i: nat)
    requires j < |Run(actions).log| && Run(actions).log[j].Answered?
    ensures var log := Run(actions).log;
            && i < j && log[i].Received? && KeyOf(log[i]) == KeyOf(log[j])
            && log[i].handle == log[j].handle && BtAddrString(log[i].addr) == log[j].address
            && forall x | i < x < j :: !AnsweredAt(log, x, KeyOf(log[j]))
  {
    RunRecorded(actions);
    var log := Run(actions).log;
    HistoryAt(log, j);
    i := OpenSince(log[..j], KeyOf(log[j]));
    forall x | i < x < j ensures !AnsweredAt(log, x, KeyOf(log[j])) {
      assert !AnsweredAt(log[..j], x, KeyOf(log[j]));
    }
  }

  /** A pending request is never overwritten: of two arrivals under one id on one
      connection the first is answered before the second. */
  lemma {:induction false} NeverOverwritten(actions: seq<Action>, i: nat, j: nat) returns (x: nat)
    requires var log := Run(actions).log; i < j < |log| && log[i].Received? && log[j].Received?
    requires KeyOf(Run(actions).log[i]) == KeyOf(Run(actions).log[j])
    ensures i < x < j && AnsweredAt(Run(actions).log, x, KeyOf(Run(actions).log[j]))
  {
    RunRecorded(actions);
    var log := Run(actions).log;
    HistoryAt(log, j);
    var past := log[..j];
    if forall y | i < y < |past| :: !AnsweredAt(past, y, KeyOf(past[i])) { StillOpen(past, i); }
    x :| i < x < |past| && AnsweredAt(past, x, KeyOf(past[i]));
  }

  /** A request is answered at most once: between two answers under one id on one connection
      another request arrives. */
  lemma {:induction false} AnsweredAtMostOnce(actions: seq<Action>, i: nat, j: nat) returns (m: nat)
    requires var log := Run(actions).log; i < j < |log| && log[i].Answered? && log[j].Answered?
    requires KeyOf(Run(actions).log[i]) == KeyOf(Run(actions).log[j])
    ensures var log := Run(actions).log; i < m < j && log[m].Received? && KeyOf(log[m]) == KeyOf(log[j])
  {
    m := AnsweredOnceAsReceived(actions, j);
    assert AnsweredAt(Run(actions).log, i, KeyOf(Run(actions).log[j]));
  }

  /** A write without response is not answerable: an answer under its id on its connection is
      that of a request that arrived after it. */
  lemma {:induction false} WriteWithoutResponseUnanswered(actions: seq<Action>, i: nat, j: nat) returns (m: nat)
    requires var log := Run(actions).log; i < j < |log| && log[i].Unanswerable? && log[j].Answered?
    requires KeyOf(Run(actions).log[i]) == KeyOf(Run(actions).log[j])
    ensures var log := Run(actions).log; i < m < j && log[m].Received? && KeyOf(log[m]) == KeyOf(log[j])
  {
    m := AnsweredOnceAsReceived(actions, j);
    RunRecorded(actions);
    var log := Run(actions).log;
    HistoryAt(log, i);
    if m < i {
      forall x | m < x < i ensures !AnsweredAt(log[..i], x, KeyOf(log[m])) {
        assert !AnsweredAt(log, x, KeyOf(log[j]));
      }
      StillOpen(log[..i], m);
    }
  }

  // ----- What each callback does, in terms of its arguments

  /** A connection of a new id is created without requests, known by its id and filed at the
      end of its address's list; nothing else changes.  A known id changes nothing. */
  lemma {:induction false} ConnectFiles(s: State, connId: int, addr: Address)
    ensures var s', n := Next(s, Connect(connId, addr)), |s.reg.store|;
            if connId in s.reg.byId then s' == s
            else
              && s'.log == s.log && |s'.reg.store| == n + 1 && s'.reg.store[..n] == s.reg.store
              && s'.reg.store[n].connId == connId && s'.reg.store[n].addr == addr && s'.reg.store[n].requests == map[]
              && connId in s'.reg.byId && s'.reg.byId[connId] == n
              && (forall k | k != connId :: k in s'.reg.byId <==> k in s.reg.byId)
              && (forall k | k in s.reg.byId :: s'.reg.byId[k] == s.reg.byId[k])
              && ListOf(s'.reg, BtAddrString(addr)) == ListOf(s.reg, BtAddrString(addr)) + [n]
              && (forall key | key != BtAddrString(addr) :: ListOf(s'.reg, key) == ListOf(s.reg, key))
  {
  }

  /** A disconnect forgets its id and no other, touches only the list of the address reported,
      and takes nothing from it but a connection of that id; no connection object changes. */
  lemma {:induction false} DisconnectForgets(actions: seq<Action>, connId: int, addr: Address)
    ensures var s := Run(actions); var s' := Next(s, Disconnect(connId, addr)); var key := BtAddrString(addr);
            && s'.log == s.log && s'.reg.store == s.reg.store
            && connId !in s'.reg.byId
            && (forall k | k != connId :: k in s'.reg.byId <==> k in s.reg.byId)
            && (forall k | k in s'.reg.byId :: s'.reg.byId[k] == s.reg.byId[k])
            && (forall x | x != key :: ListOf(s'.reg, x) == ListOf(s.reg, x))
            && (forall n | n in ListOf(s'.reg, key) :: n in ListOf(s.reg, key))
            && (forall n | n in ListOf(s.reg, key) && !HasId(s.reg.store, n, connId) :: n in ListOf(s'.reg, key))
            && |ListOf(s'.reg, key)| >= |ListOf(s.reg, key)| - 1
            && ((exists n | n in ListOf(s.reg, key) :: HasId(s.reg.store, n, connId)) ==>
                  |ListOf(s'.reg, key)| == |ListOf(s.reg, key)| - 1)
  {
    RunFiled(actions);
    var r, key := Run(actions).reg, BtAddrString(addr);
    if key in r.byAddr {
      assert ListOk(r, key, r.byAddr[key]);
      RemoveFirstKeeps(r.store, r.byAddr[key], connId);
      RemoveFirstLength(r.store, r.byAddr[key], connId);
    }
  }

  lemma {:induction false} RemoveFirstLength(store: seq<Conn>, list: seq<nat>, connId: int)
    ensures |RemoveFirst(store, list, connId)| >= |list| - 1
    ensures (exists n | n in list :: HasId(store, n, connId)) ==> |RemoveFirst(store, list, connId)| == |list| - 1
  {
    if list != [] {
      assert list == [list[0]] + list[1..];
      RemoveFirstLength(store, list[1..], connId);
    }
  }

  /** May a request from this device be accepted on this connection id, and on which object? */
  predicate Accepts(r: Registry, connId: int, addr: Address, requestId: int, n: nat)
  {
    connId in r.byId && r.byId[connId] == n < |r.store| && r.store[n].addr == addr && requestId !in r.store[n].requests
  }

  /** An accepted request becomes pending on its connection if and only if it needs a response,
      and then with its own handle; no other request changes.  A request that is not accepted
      changes nothing. */
  lemma {:induction false} RequestBecomesPending(s: State, a: Action, n: nat)
    requires a.Request?
    ensures var s' := Next(s, a);
            && s'.reg.byId == s.reg.byId && s'.reg.byAddr == s.reg.byAddr && |s'.reg.store| == |s.reg.store|
            && (Accepts(s.reg, a.connId, a.addr, a.requestId, n) ==>
                  && (IsPending(s'.reg.store, n, a.requestId) <==> a.needResponse)
                  && (a.needResponse ==> s'.reg.store[n].requests[a.requestId] == a.handle))
            && (forall m: nat, q | !(Accepts(s.reg, a.connId, a.addr, a.requestId, m) && q == a.requestId) ::
                  && (IsPending(s'.reg.store, m, q) <==> IsPending(s.reg.store, m, q))
                  && (IsPending(s.reg.store, m, q) ==> s'.reg.store[m].requests[q] == s.reg.store[m].requests[q]))
  {
  }

  /** A write without response cannot be answered: what can be answered after it, on any
      address, is what could be answered before. */
  lemma {:induction false} NoResponseNoTarget(
    s: State, a: Action, address: string, requestId: int, length: nat, offset: nat)
    requires a.Request? && !a.needResponse
    ensures ResponseTarget(Next(s, a).reg, address, requestId, length, offset) ==
            ResponseTarget(s.reg, address, requestId, length, offset)
  {
  }

  /** Does the action bring a request under this id on connection n that needs a response? */
  predicate AsksFor(r: Registry, a: Action, n: nat, requestId: int)
  {
    a.Request? && a.needResponse && a.requestId == requestId && Accepts(r, a.connId, a.addr, requestId, n)
  }

  function RunFrom(s: State, actions: seq<Action>): State
    decreases |actions|
  {
    if actions == [] then s else RunFrom(Next(s, actions[0]), actions[1..])
  }

  /** No request under this id that needs a response is accepted on connection n meanwhile. */
  predicate NeverAsked(s: State, actions: seq<Action>, n: nat, requestId: int)
    decreases |actions|
  {
    actions == [] ||
    (!AsksFor(s.reg, actions[0], n, requestId) && NeverAsked(Next(s, actions[0]), actions[1..], n, requestId))
  }

  /** From s to s' the request was not answered on connection n, and is not pending there. */
  ghost predicate Unanswered(s: State, s': State, n: nat, requestId: int)
  {
    && n < |s'.reg.store| && !IsPending(s'.reg.store, n, requestId) && s.log <= s'.log
    && forall j | |s.log| <= j < |s'.log| :: !AnsweredAt(s'.log, j, Key(n, requestId))
  }

  lemma {:induction false} NotAskedNotAnswered(s: State, a: Action, n: nat, requestId: int)
    requires n < |s.reg.store| && !IsPending(s.reg.store, n, requestId) && !AsksFor(s.reg, a, n, requestId)
    ensures Unanswered(s, Next(s, a), n, requestId)
  {
  }

  lemma {:induction false} StillUnanswered(s: State, s1: State, s2: State, n: nat, requestId: int)
    requires Unanswered(s, s1, n, requestId) && Unanswered(s1, s2, n, requestId)
    ensures Unanswered(s, s2, n, requestId)
  {
    forall j | |s.log| <= j < |s2.log| ensures !AnsweredAt(s2.log, j, Key(n, requestId)) {
      if j < |s1.log| { assert !AnsweredAt(s1.log, j, Key(n, requestId)) && s1.log[j] == s2.log[j]; }
    }
  }

  /** A request that is not pending, such as a write without response that has just come in, is
      never answered before a request under its id that needs a response is accepted on its
      connection. */
  lemma {:induction false} UnaskedUnanswered(s: State, actions: seq<Action>, n: nat, requestId: int)
    requires n < |s.reg.store| && !IsPending(s.reg.store, n, requestId) && NeverAsked(s, actions, n, requestId)
    ensures Unanswered(s, RunFrom(s, actions), n, requestId)
    decreases |actions|
  {
    if actions != [] {
      var s1 := Next(s, actions[0]);
      NotAskedNotAnswered(s, actions[0], n, requestId);
      UnaskedUnanswered(s1, actions[1..], n, requestId);
      StillUnanswered(s, s1, RunFrom(s1, actions[1..]), n, requestId);
    }
  }

  /** SendResponse reaches the HAL if and only if the address is well-formed and known, the value
      fits, and the request is pending on a connection of that address; it then answers on the
      last such connection, with the handle recorded there, and the request is pending there no
      more exactly when the HAL accepts.  Nothing else changes. */
  lemma {:induction false} ResponseAnswersPending(s: State, a: Action)
    requires a.Respond?
    ensures var s' := Next(s, a); var list := ListOf(s.reg, a.address);
            var found := ResponseTarget(s.reg, a.address, a.requestId, a.length, a.offset);
            && (found.Some? <==> Accepted(a.address) && a.length + a.offset <= 600
                                 && exists i: nat :: PendingLast(s.reg.store, list, a.requestId, i))
            && (found.None? || !a.halOk ==> s' == s)
            && (found.Some? ==>
                  exists i: nat :: PendingLast(s.reg.store, list, a.requestId, i) && list[i] == found.value)
            && (found.Some? && a.halOk ==>
                  && s'.log == s.log + [Answered(found.value, a.requestId,
                                                 s.reg.store[found.value].requests[a.requestId], a.address)]
                  && s'.reg.byId == s.reg.byId && s'.reg.byAddr == s.reg.byAddr
                  && (forall m: nat, q :: IsPending(s'.reg.store, m, q) <==>
                        IsPending(s.reg.store, m, q) && !(m == found.value && q == a.requestId)))
  {
    var list := ListOf(s.reg, a.address);
    LastPending(s.reg.store, list, a.requestId);
  }

  /** Position i holds the last connection of the list on which the request is pending. */
  predicate PendingLast(store: seq<Conn>, list: seq<nat>, requestId: int, i: nat)
  {
    && i < |list| && IsPending(store, list[i], requestId)
    && forall j | i < j < |list| :: !IsPending(store, list[j], requestId)
  }

  lemma {:induction false} LastPending(store: seq<Conn>, list: seq<nat>, requestId: int)
    ensures var found := FindPending(store, list, requestId);
            && (found.Some? <==> exists i: nat :: PendingLast(store, list, requestId, i))
            && (found.Some? ==> exists i: nat :: PendingLast(store, list, requestId, i) && list[i] == found.value)
    decreases |list|
  {
    if list != [] {
      var n := |list| - 1;
      if IsPending(store, list[n], requestId) {
        assert PendingLast(store, list, requestId, n);
      } else {
        LastPending(store, list[..n], requestId);
        forall i: nat ensures PendingLast(store, list[..n], requestId, i) <==> PendingLast(store, list, requestId, i) {
          if PendingLast(store, list[..n], requestId, i) {
            forall j | i < j < |list| ensures !IsPending(store, list[j], requestId) {
              if j < n { assert list[..n][j] == list[j]; }
            }
          }
          if PendingLast(store, list, requestId, i) {
            forall j | i < j < n ensures !IsPending(store, list[..n][j], requestId) { assert list[..n][j] == list[j]; }
          }
        }
      }
    }
  }

  // ----- Addresses as callers write them

  ghost predicate IsPrinted(key: string)
  {
    exists a: Address :: BtAddrString(a) == key
  }

  lemma {:induction false} RunKeysPrinted(actions: seq<Action>)
    ensures forall key | key in Run(actions).reg.byAddr :: IsPrinted(key)
  {
    if actions != [] {
      var n := |actions| - 1;
      RunKeysPrinted(actions[..n]);
      var r, a := Run(actions[..n]).reg, actions[n];
      forall key | key in Run(actions).reg.byAddr ensures IsPrinted(key) {
        if key !in r.byAddr { assert a.Connect? && key == BtAddrString(a.addr); }
      }
    }
  }

  /** A device with a list of connections is found under an address that parses to its own if
      and only if that address is written as the stack prints it, in upper case. */
  lemma {:induction false} FoundAsPrinted(actions: seq<Action>, address: string)
    requires Accepted(address) && BtAddrString(Parsed(address)) in Run(actions).reg.byAddr
    ensures address in Run(actions).reg.byAddr <==> address == BtAddrString(Parsed(address))
  {
    RunKeysPrinted(actions);
    if address in Run(actions).reg.byAddr {
      assert IsPrinted(address);
      var a: Address :| BtAddrString(a) == address;
      PrintedIsParsed(a);
    }
  }

  const LETTERED: Address := [0xAA, 0, 0, 0, 0, 0]

  lemma {:induction false} LetteredForms()
    ensures ToString(LETTERED) != BtAddrString(LETTERED)
  {
    assert ToString(LETTERED)[0] == Hex2(0xAA)[0] == 'a';
    assert BtAddrString(LETTERED)[0] == UpperHex2(0xAA)[0] == 'A';
  }

  /** The device aa:00:00:00:00:00 is connected, its address is accepted in lower case, and no
      response can be sent to it under that address. */
  lemma {:induction false} LowerCaseNotFound(connId: int, requestId: int, length: nat, offset: nat)
    ensures var r, address := Run([Connect(connId, LETTERED)]).reg, ToString(LETTERED);
            && BtAddrString(LETTERED) in r.byAddr && connId in r.byId
            && Accepted(address) && Parsed(address) == LETTERED
            && address !in r.byAddr && ResponseTarget(r, address, requestId, length, offset) == None
  {
    var actions := [Connect(connId, LETTERED)];
    assert actions[..0] == [] && Run(actions) == Next(State(EMPTY, []), Connect(connId, LETTERED));
    PrintedIsParsed(LETTERED);
    FoundAsPrinted(actions, ToString(LETTERED));
    LetteredForms();
  }

  /** A connection opened from one device and closed under the address of another stays in
      the address index only. */
  lemma {:induction false} WrongAddressBreaksIndexes(connId: int, a: Address, b: Address)
    requires a != b
    ensures var r := Run([Connect(connId, a), Disconnect(connId, b)]).reg; Filed(r) && !Agree(r)
  {
    var actions := [Connect(connId, a), Disconnect(connId, b)];
    assert actions[..1] == [Connect(connId, a)] && actions[..1][..0] == [];
    RunFiled(actions);
    var r := Connected(EMPTY, connId, a);
    assert Run(actions[..1]).reg == r;
    assert Run(actions) == Next(Run(actions[..1]), actions[1]);
    ConnectedFiled(EMPTY, connId, a);
    ConnectedAgrees(EMPTY, connId, a);
    DisconnectAgrees(r, connId, b);
  }
}
