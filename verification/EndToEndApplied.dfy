/** What the endpoints have applied to their connections: exactly the descriptions and candidates
    handed to them, in order, with nothing missing. */
module EndToEndApplied {
  import opened Wrappers
  import opened PeerRegistry
  import opened Relay
  import opened Endpoints
  import opened EndToEnd
  import opened EndToEndSafety
  import opened EndToEndGuarantees

  /** The descriptions and candidates from `name` among the messages. */
  function Described(ms: seq<Message>, name: string): seq<Message> {
    if ms == [] then []
    else
      var n := |ms| - 1;
      Described(ms[..n], name) + if ms[n].id == name && ms[n].kind in {Offer, Answer, Candidate} then [ms[n]] else []
  }

  lemma DescribedOneMore(ms: seq<Message>, m: Message, name: string)
    ensures Described(ms + [m], name) ==
            Described(ms, name) + if m.id == name && m.kind in {Offer, Answer, Candidate} then [m] else []
  {
    assert (ms + [m])[..|ms|] == ms;
  }

  lemma {:induction false} DescribedNone(ms: seq<Message>, name: string)
    requires forall m :: m in ms ==> m.id != name
    ensures Described(ms, name) == []
  {
    if ms != [] {
      DescribedNone(ms[..|ms| - 1], name);
    }
  }

  // ---------- one endpoint ----------

  /** The server has heard from nobody but those it has, or is creating, a connection for. */
  ghost predicate HeardFromOwned(server: ServerState, got: seq<Message>) {
    forall m :: m in got ==> m.id in Owned(server)
  }

  /** Each connection of the server has had applied to it what was handed over from its client; the
      message whose connection is being created is the last one, and the first from its client. */
  ghost predicate ServerApplied(server: ServerState, got: seq<Message>) {
    && HeardFromOwned(server, got)
    && (forall n :: n in server.clients ==> server.clients[n].applied == Described(got, n))
    && (server.creating.Some? ==>
          && got != [] && got[|got| - 1] == server.creating.value
          && server.creating.value.id !in server.clients
          && Described(got[..|got| - 1], server.creating.value.id) == [])
  }

  lemma TakeApplies(server: ServerState, got: seq<Message>, m: Message)
    requires ServerApplied(server, got) && server.creating.None? && (m.id in server.clients || m.kind == Join)
    ensures ServerApplied(ServerTake(server, m).0, got + [m])
  {
    var after := ServerTake(server, m).0;
    forall n | n in after.clients ensures after.clients[n].applied == Described(got + [m], n) {
      DescribedOneMore(got, m, n);
    }
    if after.creating.Some? {
      DescribedNone(got, m.id);
      assert (got + [m])[..|got|] == got;
    }
  }

  lemma StoreApplies(server: ServerState, got: seq<Message>)
    requires ServerApplied(server, got) && server.creating.Some?
    ensures ServerApplied(ServerStore(server), got)
  {
    var m, after := server.creating.value, ServerStore(server);
    assert Owned(after) == Owned(server);
    assert got == got[..|got| - 1] + [m];
    DescribedOneMore(got[..|got| - 1], m, m.id);
  }

  /** Until it disconnects, a client has a connection once it has been handed something, and has
      applied all of it. */
  ghost predicate ClientApplied(e: Endpoint, got: seq<Message>)
    requires e.ClientEnd?
  {
    !e.left ==> if e.connection.Some? then e.connection.value.applied == got else got == []
  }

  lemma HandleApplies(e: Endpoint, got: seq<Message>, m: Message)
    requires e.ClientEnd? && ClientApplied(e, got) && (m.kind == Offer || m.kind == Candidate)
    requires !e.left ==> ClientHandle(e.connection, m).0.Some?
    ensures ClientApplied(e.(connection := ClientHandle(e.connection, m).0), got + [m])
  {
  }

  ghost predicate AppliedOk(e: Endpoint, got: seq<Message>) {
    if e.ClientEnd? then ClientApplied(e, got) else ServerApplied(e.server, got)
  }

  // ---------- every action ----------

  /** What endpoint `c` has been handed and has dealt with. */
  function Handed(s: System, c: Conn): seq<Message>
    requires c in s.relay.inbox && c in s.handled && s.handled[c] <= |s.relay.inbox[c]|
  {
    s.relay.inbox[c][..s.handled[c]]
  }

  ghost predicate IfThereApplied(s: System, c: Conn) {
    c in s.ends ==>
      && c in s.relay.inbox && c in s.handled && s.handled[c] <= |s.relay.inbox[c]|
      && AppliedOk(s.ends[c], Handed(s, c))
  }

  /** The endpoint's connections and what it has been handed stay as they are. */
  lemma AppliedFrame(s: System, s': System, c: Conn)
    requires Keyed(s) && Keyed(s') && Shape(s') && c in s.ends && c in s'.ends && IfThereApplied(s, c)
    requires s'.handled[c] == s.handled[c] && s.relay.inbox[c] <= s'.relay.inbox[c]
    requires s.ends[c].ClientEnd? ==>
      && s'.ends[c].ClientEnd? && s'.ends[c].connection == s.ends[c].connection
      && s'.ends[c].left == s.ends[c].left
    requires s.ends[c].ServerEnd? ==> s'.ends[c].ServerEnd? && s'.ends[c].server == s.ends[c].server
    ensures IfThereApplied(s', c)
  {
    assert Handed(s', c) == Handed(s, c);
  }

  lemma OneMoreHanded(s: System, c: Conn, s': System)
    requires HasNext(s, c) && Keyed(s) && Keyed(s') && s'.relay == s.relay && c in s'.ends
    requires s'.handled[c] == s.handled[c] + 1
    ensures Handed(s', c) == Handed(s, c) + [NextFor(s, c)]
  {
  }

  lemma ClientDeliveryApplies(s: System, c: Conn, s': System)
    requires Inv(s) && Keyed(s') && HasNext(s, c) && s.ends[c].ClientEnd? && s' == Delivered(s, c)
    requires IfThereApplied(s, c)
    ensures IfThereApplied(s', c)
  {
    var m := NextFor(s, c);
    assert m in s.relay.inbox[c];
    var d := ClientHears(s, c, m);
    ClientDelivery(s, c);
    DeliveredClient(s, c, s');
    OneMoreHanded(s, c, s');
    HandleApplies(s.ends[c], Handed(s, c), m);
  }

  lemma ServerDeliveryApplies(s: System, c: Conn, s': System)
    requires Inv(s) && Keyed(s') && HasNext(s, c) && s.ends[c].ServerEnd? && s.ends[c].server.creating.None?
    requires s' == Delivered(s, c) && IfThereApplied(s, c)
    ensures IfThereApplied(s', c)
  {
    ServerDelivery(s, c);
    OneMoreHanded(s, c, s');
    TakeApplies(s.ends[c].server, Handed(s, c), NextFor(s, c));
  }

  lemma StoreKeepsApplied(s: System, c: Conn, s': System)
    requires Keyed(s) && Shape(s) && Keyed(s') && c in s.ends && s.ends[c].ServerEnd?
    requires s.ends[c].server.creating.Some? && s' == Stored(s, c) && IfThereApplied(s, c)
    ensures IfThereApplied(s', c)
  {
    StoreApplies(s.ends[c].server, Handed(s, c));
    assert Handed(s', c) == Handed(s, c);
  }

  lemma NewApplied(s': System, c: Conn)
    requires Keyed(s') && c in s'.ends && s'.handled[c] == 0
    requires s'.ends[c].ClientEnd? ==> s'.ends[c].connection.None?
    requires s'.ends[c].ServerEnd? ==> s'.ends[c].server == ServerState(map[], None)
    ensures IfThereApplied(s', c)
  {
    assert Handed(s', c) == [];
  }

  /** An action leaves alone the endpoints it is not about. */
  ghost predicate About(a: Action, c: Conn) {
    !a.RelayMoves? && a.c == c
  }

  lemma BystanderUntouched(s: System, a: Action, s': System, c: Conn)
    requires Keyed(s) && Keyed(s') && Next(s, a, s') && !About(a, c) && c in s'.ends
    ensures c in s.ends && s'.ends[c] == s.ends[c] && s'.handled[c] == s.handled[c]
    ensures s.relay.inbox[c] <= s'.relay.inbox[c]
  {
    if a.RelayMoves? {
      InboxGrows(s.relay, a.l, s'.relay);
    } else if a.OpenClient? || a.OpenServer? {
      AcceptAdds(s.relay, a.c, a.name);
    }
  }

  lemma MoverApplied(s: System, a: Action, s': System, c: Conn)
    requires Inv(s) && Inv(s') && Next(s, a, s') && About(a, c) && IfThereApplied(s, c)
    ensures IfThereApplied(s', c)
  {
    if a.OpenClient? {
      OpenedKeyed(s, c, a.name, NewClient(a.target), s');
      NewApplied(s', c);
    } else if a.OpenServer? {
      OpenedKeyed(s, c, a.name, NewServer(), s');
      NewApplied(s', c);
    } else if a.Deliver? {
      DeliverIs(s, c, s');
      if s.ends[c].ClientEnd? {
        ClientDeliveryApplies(s, c, s');
      } else {
        ServerDeliveryApplies(s, c, s');
      }
    } else if a.Store? {
      StoreKeepsApplied(s, c, s');
    } else if a.Disconnect? {
      assert Handed(s', c) == Handed(s, c);
    } else {
      SendingKeepsConnections(s, a, s', c);
      AppliedFrame(s, s', c);
    }
  }

  lemma SendingKeepsConnections(s: System, a: Action, s': System, c: Conn)
    requires Keyed(s) && Next(s, a, s') && IsSending(a) && a.c == c
    ensures c in s.ends && c in s'.ends && s'.handled == s.handled && s'.relay == s.relay
    ensures s.ends[c].ClientEnd? ==>
      && s'.ends[c].ClientEnd? && s'.ends[c].connection == s.ends[c].connection
      && s'.ends[c].left == s.ends[c].left
    ensures s.ends[c].ServerEnd? ==> s'.ends[c].ServerEnd? && s'.ends[c].server == s.ends[c].server
  {
  }

  lemma NextApplied(s: System, a: Action, s': System, c: Conn)
    requires Inv(s) && Inv(s') && Next(s, a, s') && IfThereApplied(s, c)
    ensures IfThereApplied(s', c)
  {
    if c in s'.ends {
      if About(a, c) {
        MoverApplied(s, a, s', c);
      } else {
        BystanderUntouched(s, a, s', c);
        AppliedFrame(s, s', c);
      }
    }
  }

  lemma {:induction false} AppliedInRuns(ss: seq<System>, acts: seq<Action>, i: nat, c: Conn)
    requires IsSystemRun(ss, acts) && i < |ss|
    ensures IfThereApplied(ss[i], c)
    decreases i
  {
    if i == 0 {
      NobodyThere(ss, acts, c);
    } else {
      AppliedInRuns(ss, acts, i - 1, c);
      AppliedNext(ss, acts, i - 1, c);
    }
  }

  lemma NobodyThere(ss: seq<System>, acts: seq<Action>, c: Conn)
    requires IsSystemRun(ss, acts)
    ensures IfThereApplied(ss[0], c)
  {
  }

  lemma AppliedNext(ss: seq<System>, acts: seq<Action>, i: nat, c: Conn)
    requires IsSystemRun(ss, acts) && i < |acts| && IfThereApplied(ss[i], c)
    ensures IfThereApplied(ss[i + 1], c)
  {
    InvInRuns(ss, acts, i);
    InvInRuns(ss, acts, i + 1);
    assert Next(ss[i], acts[i], ss[i + 1]);
    NextApplied(ss[i], acts[i], ss[i + 1], c);
  }

  // ---------- the results ----------

  /** In every run, to each entry of a server have been applied exactly the descriptions and
      candidates that the server has been handed from its client, in order. */
  lemma ServerAppliesAll(ss: seq<System>, acts: seq<Action>, i: nat, d: Conn, n: string)
    requires IsSystemRun(ss, acts) && i < |ss| && IsServer(ss[i], d) && n in ss[i].ends[d].server.clients
    ensures d in ss[i].relay.inbox && d in ss[i].handled && ss[i].handled[d] <= |ss[i].relay.inbox[d]|
    ensures ss[i].ends[d].server.clients[n].applied == Described(ss[i].relay.inbox[d][..ss[i].handled[d]], n)
  {
    AppliedInRuns(ss, acts, i, d);
  }

  /** In every run, a client that has not disconnected has applied to its connection exactly what it
      has been handed, and has a connection once it has been handed anything. */
  lemma ClientAppliesAll(ss: seq<System>, acts: seq<Action>, i: nat, c: Conn)
    requires IsSystemRun(ss, acts) && i < |ss| && IsClient(ss[i], c) && !ss[i].ends[c].left
    ensures c in ss[i].relay.inbox && c in ss[i].handled && ss[i].handled[c] <= |ss[i].relay.inbox[c]|
    ensures var handed := ss[i].relay.inbox[c][..ss[i].handled[c]];
      if ss[i].ends[c].connection.Some? then ss[i].ends[c].connection.value.applied == handed else handed == []
  {
    AppliedInRuns(ss, acts, i, c);
  }
}
