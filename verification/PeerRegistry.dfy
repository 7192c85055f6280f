/** The relay's registry of connected peers: what each critical section does, on values, and the
    `PeerManager` object that does it in place. */
module PeerRegistry {

  /** A websocket connection, identified by the handler that serves it. */
  type Conn = nat

  datatype Role = RoleClient | RoleServer | NoRole

  datatype PeerInfo = PeerInfo(conn: Conn, role: Role)

  datatype Registry = Registry(peers: map<string, PeerInfo>, servers: seq<string>, maxConns: int)

  const EMPTY := Registry(map[], [], 0)

  /** Registration is refused for a taken id or a full registry. */
  predicate Admits(r: Registry, id: string) {
    id !in r.peers && (r.maxConns > 0 ==> |r.peers| < r.maxConns)
  }

  function Registered(r: Registry, id: string, c: Conn, role: Role): Registry {
    if !Admits(r, id) then r
    else r.(peers := r.peers[id := PeerInfo(c, role)],
            servers := if role == RoleServer then r.servers + [id] else r.servers)
  }

  /** The first occurrence of `id` taken out. */
  function RemoveFirst(ids: seq<string>, id: string): seq<string> {
    if ids == [] then []
    else if ids[0] == id then ids[1..]
    else [ids[0]] + RemoveFirst(ids[1..], id)
  }

  function Unregistered(r: Registry, id: string): Registry {
    if id !in r.peers then r
    else r.(peers := r.peers - {id},
            servers := if r.peers[id].role == RoleServer then RemoveFirst(r.servers, id) else r.servers)
  }

  function RoleIn(r: Registry, id: string): Role {
    if id in r.peers then r.peers[id].role else NoRole
  }

  lemma {:induction false} RemoveFirstAt(ids: seq<string>, id: string, k: nat)
    requires k < |ids| && ids[k] == id && forall j :: 0 <= j < k ==> ids[j] != id
    ensures RemoveFirst(ids, id) == ids[..k] + ids[k + 1..]
  {
    if k > 0 {
      RemoveFirstAt(ids[1..], id, k - 1);
    }
  }

  lemma {:induction false} RemoveFirstAbsent(ids: seq<string>, id: string)
    requires id !in ids
    ensures RemoveFirst(ids, id) == ids
  {
    if ids != [] {
      RemoveFirstAbsent(ids[1..], id);
    }
  }

  // ---------- agreement of the two collections ----------

  ghost predicate NoDuplicates(ids: seq<string>) {
    forall i, j :: 0 <= i < j < |ids| ==> ids[i] != ids[j]
  }

  /** The server list names exactly the registered servers, each once, and the limit is kept. */
  ghost predicate Agrees(r: Registry) {
    && NoDuplicates(r.servers)
    && (forall id :: id in r.servers <==> id in r.peers && r.peers[id].role == RoleServer)
    && (r.maxConns > 0 ==> |r.peers| <= r.maxConns)
  }

  lemma RegisterAgrees(r: Registry, id: string, c: Conn, role: Role)
    requires Agrees(r)
    ensures Agrees(Registered(r, id, c, role))
  {
    var s := Registered(r, id, c, role);
    if Admits(r, id) {
      assert s.peers.Keys == r.peers.Keys + {id};
    }
  }

  lemma FirstIndex(ids: seq<string>, id: string) returns (k: nat)
    requires id in ids
    ensures k < |ids| && ids[k] == id && forall j :: 0 <= j < k ==> ids[j] != id
  {
    k := 0;
    while ids[k] != id
      invariant 0 <= k < |ids| && id in ids[k..]
      invariant forall j :: 0 <= j < k ==> ids[j] != id
      decreases |ids| - k
    {
      k := k + 1;
    }
  }

  /** Unregistering keeps the agreement; a registered server is always found in the list. */
  lemma UnregisterAgrees(r: Registry, id: string)
    requires Agrees(r)
    ensures Agrees(Unregistered(r, id))
    ensures id in r.peers && r.peers[id].role == RoleServer ==> id in r.servers
  {
    var s := Unregistered(r, id);
    if id in r.peers {
      assert s.peers.Keys == r.peers.Keys - {id};
      if r.peers[id].role == RoleServer {
        var k := FirstIndex(r.servers, id);
        RemoveFirstAt(r.servers, id, k);
        assert r.servers == r.servers[..k] + [id] + r.servers[k + 1..];
        forall x ensures x in s.servers <==> x in r.servers && x != id {
        }
      }
    }
  }

  // ---------- the object ----------

  class PeerManager {
    var peers: map<string, PeerInfo>
    var servers: seq<string>
    const maxConns: int
    var closed: set<Conn>  // connections closed so far

    function Model(): Registry
      reads this
    {
      Registry(peers, servers, maxConns)
    }

    constructor (maxConns: int)
      ensures Model() == EMPTY.(maxConns := maxConns) && Agrees(Model()) && closed == {}
    {
      this.maxConns := maxConns;
      peers, servers, closed := map[], [], {};
    }

    method Register(id: string, c: Conn, role: Role) returns (ok: bool)
      modifies this
      ensures ok <==> id !in old(peers) && (maxConns <= 0 || |old(peers)| < maxConns)
      ensures peers == if ok then old(peers)[id := PeerInfo(c, role)] else old(peers)
      ensures servers == if ok && role == RoleServer then old(servers) + [id] else old(servers)
      ensures ok == Admits(old(Model()), id)
      ensures Model() == Registered(old(Model()), id, c, role) && closed == old(closed)
      ensures old(Agrees(Model())) ==> Agrees(Model())
    {
      RegisterKeepsAgreement(id, c, role);
      if id in peers {
        return false;
      }
      if maxConns > 0 && |peers| >= maxConns {
        return false;
      }
      peers := peers[id := PeerInfo(c, role)];
      if role == RoleServer {
        servers := servers + [id];
      }
      return true;
    }

    lemma RegisterKeepsAgreement(id: string, c: Conn, role: Role)
      ensures Agrees(Model()) ==> Agrees(Registered(Model(), id, c, role))
    {
      if Agrees(Model()) {
        RegisterAgrees(Model(), id, c, role);
      }
    }

    /** `orphan` reports the branch that logs a server missing from the list. */
    method Unregister(id: string) returns (orphan: bool)
      modifies this
      ensures Model() == Unregistered(old(Model()), id)
      ensures closed == old(closed) + if id in old(peers) then {old(peers)[id].conn} else {}
      ensures old(Agrees(Model())) ==> Agrees(Model()) && !orphan
    {
      orphan := false;
      UnregisterKeepsAgreement(id);
      if id in peers {
        var peer := peers[id];
        peers := peers - {id};
        closed := closed + {peer.conn};
        if peer.role == RoleServer {
          var removed := false;
          var i := 0;
          while i < |servers| && !removed
            invariant 0 <= i <= |servers| || removed
            invariant removed ==> servers == RemoveFirst(old(servers), id) && id in old(servers)
            invariant !removed ==> servers == old(servers) && forall j :: 0 <= j < i ==> servers[j] != id
            invariant peers == old(peers) - {id} && closed == old(closed) + {peer.conn}
            decreases if removed then 0 else 1, |servers| - i
          {
            if servers[i] == id {
              RemoveFirstAt(servers, id, i);
              servers := servers[..i] + servers[i + 1..];
              removed := true;
            } else {
              i := i + 1;
            }
          }
          if !removed {
            RemoveFirstAbsent(servers, id);
            orphan := true;
          }
        }
      }
    }

    lemma UnregisterKeepsAgreement(id: string)
      ensures Agrees(Model()) ==> Agrees(Unregistered(Model(), id))
      ensures Agrees(Model()) && id in peers && peers[id].role == RoleServer ==> id in servers
    {
      if Agrees(Model()) {
        UnregisterAgrees(Model(), id);
      }
    }

    method Get(id: string) returns (peer: PeerInfo, ok: bool)
      ensures ok <==> id in peers
      ensures ok ==> peer == peers[id]
    {
      if id in peers {
        return peers[id], true;
      }
      return PeerInfo(0, NoRole), false;
    }

    method GetRole(id: string) returns (role: Role)
      ensures role == if id in peers then peers[id].role else NoRole
      ensures role == RoleIn(Model(), id)
    {
      if id in peers {
        return peers[id].role;
      }
      return NoRole;
    }

    method GetServerList() returns (list: seq<string>)
      ensures list == servers
      ensures Agrees(Model()) ==>
        NoDuplicates(list) && forall id :: id in list <==> id in peers && peers[id].role == RoleServer
    {
      return servers;
    }
  }
}
