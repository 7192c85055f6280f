/** The two signalling endpoints: what a game server and a game client do with each message the
    relay delivers, on values and as the objects that do it in place. Peer ids are the decimal
    strings that travel in the messages. */
module Endpoints {
  import opened Wrappers
  import opened PeerRegistry
  import opened Relay

  /** A WebRTC peer connection: whom its callbacks write to, and what was applied to it. */
  datatype Connection = Connection(peer: string, applied: seq<Message>)

  /** `NoConnection` is the branch that logs a message for which no connection exists. */
  datatype Outcome = Done | Ignored | NoConnection

  function RegisterMessage(name: string, role: Role): Message {
    Message(name, Register, role, "", "", "")
  }

  function JoinMessage(server: string): Message {
    Message(server, Join, RoleClient, "", "", "")
  }

  /** Descriptions and candidates are handed to the connection, other messages are not. */
  function Applied(conn: Connection, m: Message): Connection {
    if m.kind in {Offer, Answer, Candidate} then conn.(applied := conn.applied + [m]) else conn
  }

  // ---------- server ----------

  /** The server's map of clients, and the message whose connection it is in the middle of
      creating: data channels exist and may already emit, but the map has no entry yet. */
  datatype ServerState = ServerState(clients: map<string, Connection>, creating: Option<Message>)

  /** Everyone the server has created, or is creating, a connection for. */
  function Owned(s: ServerState): set<string> {
    s.clients.Keys + if s.creating.Some? then {s.creating.value.id} else {}
  }

  function ServerTake(s: ServerState, m: Message): (ServerState, Outcome) {
    if m.id in s.clients then (s.(clients := s.clients[m.id := Applied(s.clients[m.id], m)]), Done)
    else if m.kind == Offer || m.kind == Join then (s.(creating := Some(m)), Done)
    else (s, NoConnection)
  }

  /** The end of the creation: the entry is stored and the message applied to it. */
  function ServerStore(s: ServerState): ServerState
    requires s.creating.Some?
  {
    var m := s.creating.value;
    ServerState(s.clients[m.id := Applied(Connection(m.id, []), m)], None)
  }

  /** The whole handling of a message. */
  function ServerHandle(clients: map<string, Connection>, m: Message): (map<string, Connection>, Outcome) {
    var (s, outcome) := ServerTake(ServerState(clients, None), m);
    if s.creating.Some? then (ServerStore(s).clients, outcome) else (s.clients, outcome)
  }

  /** A local description or candidate that the peer-connection library hands to its callback. */
  datatype Signal = Signal(kind: Kind, description: string, candidate: string, mid: string)

  /** The messages that the callbacks of the connection for `id` make of `signals`. */
  function Addressed(id: string, signals: seq<Signal>): seq<Message> {
    if signals == [] then []
    else
      var last := signals[|signals| - 1];
      Addressed(id, signals[..|signals| - 1]) +
          [Message(id, last.kind, NoRole, last.description, last.candidate, last.mid)]
  }

  class NetworkServer {
    const localID: string
    var clients: map<string, Connection>
    var outgoing: seq<Message>

    constructor (localID: string)
      ensures this.localID == localID && clients == map[] && outgoing == []
    {
      this.localID, clients, outgoing := localID, map[], [];
    }

    /** The websocket's open callback. */
    method OnOpen()
      modifies this`outgoing
      ensures outgoing == old(outgoing) + [Message(localID, Register, RoleServer, "", "", "")]
    {
      outgoing := outgoing + [RegisterMessage(localID, RoleServer)];
    }

    /** `early` is what the library emits while a connection is being created. */
    method HandleSignallingMessage(message: Message, early: seq<Signal>) returns (outcome: Outcome)
      modifies this`clients, this`outgoing
      ensures outcome == if message.id in old(clients) || message.kind in {Offer, Join} then Done else NoConnection
      ensures outcome == NoConnection ==> clients == old(clients)
      ensures outcome == Done ==>
        && clients.Keys == old(clients).Keys + {message.id}
        && (forall n :: n in old(clients) && n != message.id ==> clients[n] == old(clients)[n])
        && clients[message.id].peer ==
             (if message.id in old(clients) then old(clients)[message.id].peer else message.id)
        && clients[message.id].applied ==
             (if message.id in old(clients) then old(clients)[message.id].applied else [])
             + if message.kind in {Offer, Answer, Candidate} then [message] else []
      ensures (clients, outcome) == ServerHandle(old(clients), message)
      ensures outgoing == old(outgoing) +
        if message.id !in old(clients) && message.kind in {Offer, Join} then Addressed(message.id, early) else []
    {
      var id, kind := message.id, message.kind;
      if id in clients {
      } else if kind == Offer || kind == Join {
        CreateClientConnection(id, early);
      } else {
        return NoConnection;
      }
      if kind == Offer || kind == Answer {
        clients := clients[id := clients[id].(applied := clients[id].applied + [message])];
      } else if kind == Candidate {
        clients := clients[id := clients[id].(applied := clients[id].applied + [message])];
      }
      assert clients == ServerHandle(old(clients), message).0;
      return Done;
    }

    /** The precondition is the assertion the program makes. The data channels are created first,
        so the callbacks may send before the entry is stored. */
    method CreateClientConnection(id: string, early: seq<Signal>)
      requires id !in clients
      modifies this`clients, this`outgoing
      ensures clients == old(clients)[id := Connection(id, [])]
      ensures outgoing == old(outgoing) + Addressed(id, early)
    {
      CreateDataChannels(id, early);
      clients := clients[id := Connection(id, [])];
    }

    /** Nothing is stored yet: the map of clients is not touched. */
    method CreateDataChannels(id: string, early: seq<Signal>)
      modifies this`outgoing
      ensures outgoing == old(outgoing) + Addressed(id, early)
    {
      for i := 0 to |early|
        invariant outgoing == old(outgoing) + Addressed(id, early[..i])
      {
        assert early[..i + 1][..i] == early[..i];
        OnLocal(id, early[i]);
      }
      assert early[..|early|] == early;
    }

    /** The connection's callbacks for local descriptions and candidates. */
    method OnLocal(id: string, s: Signal)
      modifies this`outgoing
      ensures outgoing == old(outgoing) + [Message(id, s.kind, NoRole, s.description, s.candidate, s.mid)]
    {
      outgoing := outgoing + [Message(id, s.kind, NoRole, s.description, s.candidate, s.mid)];
    }
  }

  // ---------- client ----------

  /** What a client does with a delivered message. Once it has a connection it applies whatever
      comes, without comparing the sender with the server it is connected to. */
  function ClientHandle(conn: Option<Connection>, m: Message): (Option<Connection>, Outcome) {
    if m.kind == Join then (conn, Ignored)
    else if conn.Some? then (Some(Applied(conn.value, m)), Done)
    else if m.kind == Offer then (Some(Applied(Connection(m.id, []), m)), Done)
    else (None, NoConnection)
  }

  /** When a websocket opens: before the client stops waiting for it, after that, or not at all. */
  datatype Opening = InTime | Late | Never

  class NetworkClient {
    var localID: string
    var connection: Option<Connection>
    var outgoing: seq<Message>

    constructor ()
      ensures connection == None && outgoing == []
    {
      localID, connection, outgoing := "", None, [];
    }

    /** `generatedID` is the random id. A join sent on a socket that is not open yet is lost, so a
        socket that opens late registers without a join. */
    method Connect(serverID: string, generatedID: string, opening: Opening)
      modifies this
      ensures localID == generatedID && connection == old(connection)
      ensures outgoing == old(outgoing) +
        (if opening.Never? then [] else [Message(generatedID, Register, RoleClient, "", "", "")]) +
        (if opening.InTime? then [Message(serverID, Join, RoleClient, "", "", "")] else [])
    {
      StartSignallingWebsocket(generatedID, opening);
      if opening.InTime? {
        outgoing := outgoing + [JoinMessage(serverID)];
      } else if opening.Late? {
        OnOpen();
      }
    }

    /** Waits for the socket to open; returns without it after ten seconds. */
    method StartSignallingWebsocket(generatedID: string, opening: Opening)
      modifies this`localID, this`outgoing
      ensures localID == generatedID
      ensures outgoing == old(outgoing) +
        if opening.InTime? then [Message(generatedID, Register, RoleClient, "", "", "")] else []
    {
      localID := generatedID;
      if opening.InTime? {
        OnOpen();
      }
    }

    /** The websocket's open callback. */
    method OnOpen()
      modifies this`outgoing
      ensures outgoing == old(outgoing) + [Message(localID, Register, RoleClient, "", "", "")]
    {
      outgoing := outgoing + [RegisterMessage(localID, RoleClient)];
    }

    method HandleSignallingMessage(message: Message) returns (outcome: Outcome)
      modifies this`connection
      ensures outcome == if message.kind == Join then Ignored
                         else if old(connection).Some? || message.kind == Offer then Done else NoConnection
      ensures outcome != Done ==> connection == old(connection)
      ensures outcome == Done ==>
        && connection.Some?
        && connection.value.peer == (if old(connection).Some? then old(connection).value.peer else message.id)
        && connection.value.applied == (if old(connection).Some? then old(connection).value.applied else [])
             + if message.kind in {Offer, Answer, Candidate} then [message] else []
      ensures (connection, outcome) == ClientHandle(old(connection), message)
    {
      var kind := message.kind;
      if kind == Join {
        return Ignored;
      }
      if connection.None? {
        if kind == Offer {
          CreateServerConnection(message.id);
        } else {
          return NoConnection;
        }
      }
      var pc := connection.value;
      if kind == Offer || kind == Answer {
        pc := pc.(applied := pc.applied + [message]);
      } else if kind == Candidate {
        pc := pc.(applied := pc.applied + [message]);
      }
      connection := Some(pc);
      return Done;
    }

    method CreateServerConnection(id: string)
      modifies this`connection
      ensures connection == Some(Connection(id, []))
    {
      connection := Some(Connection(id, []));
    }

    /** `disconnect` drops the connection; the signalling socket stays. */
    method Disconnect()
      modifies this`connection
      ensures connection == None
    {
      connection := None;
    }
  }
}
