/**
 * The server's presence registry: the module-level `userId -> socketId`
 * dictionary, written on every socket connection, deleted on its disconnect,
 * read to find a receiver's socket, and broadcast as its key list after each change.
 */
module Presence {
  import opened Domain

  /**
   * The dictionary together with its key order: `Object.keys` lists string
   * keys in first-insertion order, and the broadcast is that list.
   */
  datatype Registry = Registry(keys: seq<string>, sockets: map<string, string>)

  /** The key list has no repeats and holds exactly the dictionary's keys. */
  ghost predicate WellFormed(r: Registry)
  {
    Distinct(r.keys) && (forall u :: u in r.sockets <==> u in r.keys)
  }

  const Empty := Registry([], map[])

  /** `getReceiverSocketId`: the current entry for the user, if any. */
  function Lookup(r: Registry, u: string): (s: Option<string>)
    ensures s.Some? <==> u in r.sockets
    ensures s.Some? ==> s.value == r.sockets[u]
  {
    if u in r.sockets then Some(r.sockets[u]) else None
  }

  /** The `getOnlineUsers` broadcast: every online user once, in key order. */
  function OnlineUsers(r: Registry): (ids: seq<string>)
    requires WellFormed(r)
    ensures Distinct(ids)
    ensures forall u :: u in ids <==> Lookup(r, u).Some?
  {
    r.keys
  }

  /** The key list without one key. */
  function Without(keys: seq<string>, u: string): (out: seq<string>)
    ensures forall v :: v in out <==> v in keys && v != u
    ensures Distinct(keys) ==> Distinct(out)
  {
    if keys == [] then []
    else
      assert Distinct(keys) ==> Distinct(keys[1..]) && keys[0] !in keys[1..];
      if keys[0] == u then Without(keys[1..], u)
      else [keys[0]] + Without(keys[1..], u)
  }

  lemma {:induction false} WithoutLast(keys: seq<string>, u: string)
    requires u !in keys
    ensures Without(keys + [u], u) == keys
  {
    if keys == [] {
      assert [] + [u] == [u];
    } else {
      assert (keys + [u])[0] == keys[0];
      assert (keys + [u])[1..] == keys[1..] + [u];
      WithoutLast(keys[1..], u);
      assert keys == [keys[0]] + keys[1..];
    }
  }

  /** The `connection` handler's write: last connect wins, other users untouched. */
  function Connect(r: Registry, u: string, s: string): (r': Registry)
    requires WellFormed(r)
    ensures WellFormed(r')
    ensures Lookup(r', u) == Some(s)
    ensures forall v :: v != u ==> Lookup(r', v) == Lookup(r, v)
    ensures u in r.sockets ==> r'.keys == r.keys
  {
    if u in r.sockets then Registry(r.keys, r.sockets[u := s])
    else Registry(r.keys + [u], r.sockets[u := s])
  }

  /** The `disconnect` handler as written: the user's entry goes, whichever socket it names. */
  function Disconnect(r: Registry, u: string): (r': Registry)
    requires WellFormed(r)
    ensures WellFormed(r')
    ensures Lookup(r', u) == None
    ensures forall v :: v != u ==> Lookup(r', v) == Lookup(r, v)
  {
    Registry(Without(r.keys, u), r.sockets - {u})
  }

  /** The intended disconnect: the entry goes only while it still names the closing socket. */
  function DisconnectGuarded(r: Registry, u: string, s: string): (r': Registry)
    requires WellFormed(r)
    ensures WellFormed(r')
    ensures Lookup(r, u) == Some(s) ==> Lookup(r', u) == None
    ensures Lookup(r, u) != Some(s) ==> r' == r
    ensures forall v :: v != u ==> Lookup(r', v) == Lookup(r, v)
  {
    if Lookup(r, u) == Some(s) then Disconnect(r, u) else r
  }

  /** A user who was offline, connecting and then disconnecting, leaves the registry as it was. */
  lemma ConnectDisconnectRestores(r: Registry, u: string, s: string)
    requires WellFormed(r)
    requires Lookup(r, u) == None
    ensures Disconnect(Connect(r, u, s), u) == r
  {
    WithoutLast(r.keys, u);
    assert r.sockets[u := s] - {u} == r.sockets;
  }

  /** A disconnect of the user's current socket is the same under both rules. */
  lemma GuardedAgreesOnCurrent(r: Registry, u: string, s: string)
    requires WellFormed(r)
    requires Lookup(r, u) == Some(s)
    ensures DisconnectGuarded(r, u, s) == Disconnect(r, u)
  {
  }

  /**
   * As written, a late disconnect of a superseded socket takes a user offline
   * although the newer socket is still connected.
   */
  lemma StaleDisconnectEvicts(r: Registry, u: string, s1: string, s2: string)
    requires WellFormed(r)
    requires s1 != s2
    ensures var r2 := Connect(Connect(r, u, s1), u, s2);
      Lookup(r2, u) == Some(s2) && Lookup(Disconnect(r2, u), u) == None
  {
  }

  /** Under the guarded rule the newer registration survives the stale disconnect. */
  lemma GuardedKeepsNewer(r: Registry, u: string, s1: string, s2: string)
    requires WellFormed(r)
    requires s1 != s2
    ensures var r2 := Connect(Connect(r, u, s1), u, s2);
      Lookup(DisconnectGuarded(r2, u, s1), u) == Some(s2)
  {
  }

  /** The registry of the socket server, with the broadcasts it has emitted so far. */
  class SocketServer {
    var registry: Registry
    var emitted: seq<seq<string>>

    ghost predicate Valid()
      reads this
    {
      WellFormed(registry)
    }

    constructor ()
      ensures Valid()
      ensures registry == Empty && emitted == []
    {
      registry := Empty;
      emitted := [];
    }

    method GetReceiverSocketId(u: string) returns (s: Option<string>)
      requires Valid()
      ensures s.Some? <==> u in registry.sockets
      ensures s.Some? ==> s.value == registry.sockets[u]
    {
      s := Lookup(registry, u);
    }

    /** `io.on("connection")`: register the socket under its user, then broadcast. */
    method OnConnection(userId: string, socketId: string)
      requires Valid()
      modifies this
      ensures Valid()
      ensures registry == Connect(old(registry), userId, socketId)
      ensures emitted == old(emitted) + [OnlineUsers(registry)]
    {
      registry := Connect(registry, userId, socketId);
      emitted := emitted + [OnlineUsers(registry)];
    }

    /** `socket.on("disconnect")` as written: delete the user's entry, then broadcast. */
    method OnDisconnect(userId: string)
      requires Valid()
      modifies this
      ensures Valid()
      ensures registry == Disconnect(old(registry), userId)
      ensures emitted == old(emitted) + [OnlineUsers(registry)]
    {
      registry := Disconnect(registry, userId);
      emitted := emitted + [OnlineUsers(registry)];
    }

    /** The intended disconnect handler: delete the entry only if it still names this socket. */
    method OnDisconnectGuarded(userId: string, socketId: string)
      requires Valid()
      modifies this
      ensures Valid()
      ensures registry == DisconnectGuarded(old(registry), userId, socketId)
      ensures emitted == old(emitted) + [OnlineUsers(registry)]
    {
      registry := DisconnectGuarded(registry, userId, socketId);
      emitted := emitted + [OnlineUsers(registry)];
    }
  }
}
