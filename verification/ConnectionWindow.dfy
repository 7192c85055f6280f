/** A run in which a client is connected although its server has no entry for it yet: data
    channels emit their offer before the server stores the connection. */
module ConnectionWindow {
  import opened Wrappers
  import opened PeerRegistry
  import opened Relay
  import opened Endpoints
  import opened EndToEnd

  ghost predicate Reachable(s: System) {
    exists ss, acts :: IsSystemRun(ss, acts) && ss[|acts|] == s
  }

  lemma StartIsReachable(maxConns: int)
    ensures Reachable(Start(maxConns))
  {
    assert IsSystemRun([Start(maxConns)], []);
  }

  lemma ReachesNext(s: System, a: Action)
    requires Reachable(s) && Can(s, a)
    ensures Reachable(Do(s, a))
  {
    var ss, acts :| IsSystemRun(ss, acts) && ss[|acts|] == s;
    var longer, more := ss + [Do(s, a)], acts + [a];
    assert IsSystemRun(longer, more) && longer[|more|] == Do(s, a);
  }

  /** A handler that is free to read the next message of its endpoint. */
  ghost predicate Hears(s: System, c: Conn, m: Message) {
    NextSaid(s, c, m) && s.relay.handlers[c].pc == Reading
  }

  /** The relay after an undisturbed turn of `c`'s handler that forwards `m` to `to`. */
  function AfterForward(s: System, c: Conn, m: Message, to: Conn): System
    requires c in s.relay.handlers && to in s.relay.inbox
  {
    var h := s.relay.handlers[c];
    var forwarded := m.(id := h.name);
    s.(relay := s.relay.(
      handlers := s.relay.handlers[c := h.(heard := h.heard + [m], sent := h.sent + [Delivery(to, forwarded)])],
      inbox := s.relay.inbox[to := s.relay.inbox[to] + [forwarded]]))
  }

  ghost predicate Forwards(s: System, c: Conn, m: Message, to: Conn) {
    && Hears(s, c, m) && s.relay.handlers[c].registered && m.kind in {Offer, Answer, Candidate, Join}
    && m.id != "" && m.id in s.relay.registry.peers
    && var target := s.relay.registry.peers[m.id];
       && target.conn == to && to in s.relay.inbox && to !in s.relay.closed
       && !(RoleIn(s.relay.registry, s.relay.handlers[c].name) == RoleClient && target.role == RoleClient)
  }

  lemma UndisturbedForward(s: System, c: Conn, m: Message, to: Conn)
    requires Reachable(s) && Forwards(s, c, m, to)
    ensures Reachable(AfterForward(s, c, m, to))
  {
    var h := s.relay.handlers[c];
    var heard := h.(heard := h.heard + [m]);
    var s1 := s.(relay := At(s.relay, c, Parsed(m)).(handlers := s.relay.handlers[c := heard.(pc := Parsed(m))]));
    ReachesNext(s, RelayMoves(Read(c, m)));
    assert Do(s, RelayMoves(Read(c, m))) == s1;
    UndisturbedDecision(s1, c, m, to);
    var s3 := s1.(relay := At(s1.relay, c, Sending(m.(id := h.name), to)));
    UndisturbedWrite(s3, c, m.(id := h.name), to);
    assert s3.relay.handlers[c := heard.(sent := h.sent + [Delivery(to, m.(id := h.name))])]
        == AfterForward(s, c, m, to).relay.handlers;
  }

  lemma UndisturbedWrite(s: System, c: Conn, m: Message, to: Conn)
    requires Reachable(s) && c in s.relay.handlers && s.relay.handlers[c].pc == Sending(m, to)
    requires to in s.relay.inbox && to !in s.relay.closed
    ensures var h := s.relay.handlers[c];
      Reachable(s.(relay := s.relay.(
        handlers := s.relay.handlers[c := h.(pc := Reading, sent := h.sent + [Delivery(to, m)])],
        inbox := s.relay.inbox[to := s.relay.inbox[to] + [m]])))
  {
    ReachesNext(s, RelayMoves(Write(c, true)));
  }

  lemma UndisturbedDecision(s: System, c: Conn, m: Message, to: Conn)
    requires Reachable(s) && c in s.relay.handlers && s.relay.handlers[c].pc == Parsed(m) && m.kind != Register
    requires m.id != "" && m.id in s.relay.registry.peers && s.relay.registry.peers[m.id].conn == to
    requires !(RoleIn(s.relay.registry, s.relay.handlers[c].name) == RoleClient
        && s.relay.registry.peers[m.id].role == RoleClient)
    ensures Reachable(s.(relay := At(s.relay, c, Sending(m.(id := s.relay.handlers[c].name), to))))
  {
    var s1 := s.(relay := At(s.relay, c, Found(m, s.relay.registry.peers[m.id])));
    ReachesNext(s, RelayMoves(LookUp(c)));
    assert Do(s, RelayMoves(LookUp(c))) == s1;
    ReachesNext(s1, RelayMoves(AskRole(c)));
    assert Do(s1, RelayMoves(AskRole(c))).relay.handlers ==
        At(s.relay, c, Sending(m.(id := s.relay.handlers[c].name), to)).handlers;
  }

  /** The system after endpoint `c` has sent its registration and the relay has admitted it. */
  function AfterGreeting(s: System, c: Conn): System
    requires c in s.relay.handlers && c in s.ends && c in s.outbox
  {
    var h, e := s.relay.handlers[c], s.ends[c];
    var m := RegisterMessage(h.name, RoleOf(e));
    Sent(s, c, e.(greeted := true), m).(relay := s.relay.(
      registry := Registered(s.relay.registry, h.name, c, RoleOf(e)),
      handlers := s.relay.handlers[c := h.(heard := h.heard + [m], registered := true, role := RoleOf(e))],
      arrivals := s.relay.arrivals + [c]))
  }

  lemma UndisturbedGreeting(s: System, c: Conn)
    requires Reachable(s) && c in s.relay.handlers && c in s.ends && c in s.outbox && !s.ends[c].greeted
    requires s.relay.handlers[c].pc == Reading && !s.relay.handlers[c].registered
    requires s.relay.handlers[c].heard == s.outbox[c] && Admits(s.relay.registry, s.relay.handlers[c].name)
    ensures Reachable(AfterGreeting(s, c))
  {
    var h, e := s.relay.handlers[c], s.ends[c];
    var m := RegisterMessage(h.name, RoleOf(e));
    ReachesNext(s, Greet(c));
    var s1 := Sent(s, c, e.(greeted := true), m);
    var heard := h.(heard := h.heard + [m], pc := Parsed(m));
    var s2 := s1.(relay := s.relay.(handlers := s.relay.handlers[c := heard]));
    ReachesNext(s1, RelayMoves(Read(c, m)));
    assert Do(s1, RelayMoves(Read(c, m))) == s2;
    UndisturbedAdmission(s2, c);
    assert s2.relay.handlers[c := heard.(pc := Reading, registered := true, role := RoleOf(e))]
        == AfterGreeting(s, c).relay.handlers;
  }

  lemma UndisturbedAdmission(s: System, c: Conn)
    requires Reachable(s) && c in s.relay.handlers && Admits(s.relay.registry, s.relay.handlers[c].name)
    requires s.relay.handlers[c].pc.Parsed? && s.relay.handlers[c].pc.msg.kind == Register
    ensures var h := s.relay.handlers[c];
      Reachable(s.(relay := s.relay.(
        registry := Registered(s.relay.registry, h.name, c, h.pc.msg.role),
        handlers := s.relay.handlers[c := h.(pc := Reading, registered := true, role := h.pc.msg.role)],
        arrivals := s.relay.arrivals + [c])))
  {
    ReachesNext(s, RelayMoves(Admit(c)));
  }

  // ---------- one server and one client ----------

  const SERVER: Conn := 1
  const CLIENT: Conn := 2

  /** Both endpoints are registered; what they have sent, received and handled varies. */
  ghost predicate BothRegistered(s: System) {
    && s.relay.registry.peers == map["1" := PeerInfo(SERVER, RoleServer), "2" := PeerInfo(CLIENT, RoleClient)]
    && s.relay.closed == {} && s.relay.inbox.Keys == {SERVER, CLIENT}
    && s.outbox.Keys == {SERVER, CLIENT} && s.ends.Keys == {SERVER, CLIENT} && s.handled.Keys == {SERVER, CLIENT}
    && s.relay.handlers.Keys == {SERVER, CLIENT}
    && s.relay.handlers[SERVER].name == "1" && s.relay.handlers[CLIENT].name == "2"
    && Idle(s, SERVER) && Idle(s, CLIENT) && s.ends[SERVER].ServerEnd? && s.ends[CLIENT].ClientEnd?
  }

  /** The handler has dealt with everything its endpoint sent. */
  ghost predicate Idle(s: System, c: Conn)
    requires c in s.relay.handlers && c in s.outbox
  {
    s.relay.handlers[c].pc == Reading && s.relay.handlers[c].registered && s.relay.handlers[c].heard == s.outbox[c]
  }

  lemma BothOpen() returns (s: System)
    ensures Reachable(s)
    ensures s.ends == map[SERVER := NewServer(), CLIENT := NewClient("1")]
    ensures s.outbox == map[SERVER := [], CLIENT := []] && s.handled == map[SERVER := 0, CLIENT := 0]
    ensures s.relay.registry == Registry(map[], [], 0) && s.relay.closed == {}
    ensures s.relay.inbox == map[SERVER := [], CLIENT := []]
    ensures s.relay.handlers ==
      map[SERVER := Handler("1", Reading, false, NoRole, [], []),
          CLIENT := Handler("2", Reading, false, NoRole, [], [])]
  {
    StartIsReachable(0);
    var s0 := Start(0);
    ReachesNext(s0, OpenServer(SERVER, "1"));
    var s1 := Do(s0, OpenServer(SERVER, "1"));
    assert Fresh(s1, CLIENT, "2");
    ReachesNext(s1, OpenClient(CLIENT, "2", "1"));
    s := Do(s1, OpenClient(CLIENT, "2", "1"));
  }

  lemma BothConnect() returns (s: System)
    ensures Reachable(s) && BothRegistered(s)
    ensures s.ends[SERVER] == ServerEnd(true, ServerState(map[], None), {})
    ensures s.ends[CLIENT] == ClientEnd(true, "1", false, None, false, false, false)
    ensures s.relay.inbox == map[SERVER := [], CLIENT := []] && s.handled == map[SERVER := 0, CLIENT := 0]
  {
    var s1 := BothOpen();
    UndisturbedGreeting(s1, SERVER);
    var s2 := AfterGreeting(s1, SERVER);
    UndisturbedGreeting(s2, CLIENT);
    s := AfterGreeting(s2, CLIENT);
  }

  /** An endpoint sends `m`, and the relay forwards it. */
  lemma SendAndForward(s: System, a: Action, e: Endpoint, m: Message, to: Conn)
    requires Reachable(s) && BothRegistered(s) && Can(s, a)
    requires a.SendJoin? || a.EmitOffer? || a.EmitServerCandidate?
    requires a.c in {SERVER, CLIENT} && Do(s, a) == Sent(s, a.c, e, m)
    requires to in {SERVER, CLIENT} && to != a.c && m.id == Name(s, to) && m.kind in {Offer, Candidate, Join}
    ensures Reachable(AfterForward(Sent(s, a.c, e, m), a.c, m, to))
  {
    ReachesNext(s, a);
    var s1 := Sent(s, a.c, e, m);
    assert s1.relay == s.relay;
    UndisturbedForward(s1, a.c, m, to);
  }

  lemma JoinReachesServer() returns (s: System)
    ensures Reachable(s) && BothRegistered(s)
    ensures s.ends[SERVER] == ServerEnd(true, ServerState(map[], Some(Message("2", Join, RoleClient, "", "", ""))), {})
    ensures s.ends[CLIENT] == ClientEnd(true, "1", true, None, false, false, false)
    ensures s.relay.inbox[CLIENT] == [] && s.handled[CLIENT] == 0
  {
    var s0 := BothConnect();
    var e, m := s0.ends[CLIENT].(joined := true), JoinMessage("1");
    SendAndForward(s0, SendJoin(CLIENT), e, m, SERVER);
    var s1 := AfterForward(Sent(s0, CLIENT, e, m), CLIENT, m, SERVER);
    assert s1.relay.inbox[SERVER] == [m.(id := "2")];
    ReachesNext(s1, Deliver(SERVER));
    s := Do(s1, Deliver(SERVER));
  }

  lemma OfferReachesClient() returns (s: System)
    ensures Reachable(s) && BothRegistered(s)
    ensures s.ends[SERVER].server == ServerState(map[], Some(Message("2", Join, RoleClient, "", "", "")))
    ensures s.ends[SERVER].offered == {"2"}
    ensures s.ends[CLIENT] == ClientEnd(true, "1", true, None, false, false, false)
    ensures s.relay.inbox[CLIENT] == [Message("1", Offer, NoRole, "sdp", "", "")] && s.handled[CLIENT] == 0
  {
    var s0 := JoinReachesServer();
    var e := s0.ends[SERVER].(offered := s0.ends[SERVER].offered + {"2"});
    var m := Message("2", Offer, NoRole, "sdp", "", "");
    SendAndForward(s0, EmitOffer(SERVER, "2", "sdp"), e, m, CLIENT);
    s := AfterForward(Sent(s0, SERVER, e, m), SERVER, m, CLIENT);
  }

  /** The client is connected, and the server has no entry for it. */
  lemma ConnectedWithoutEntry() returns (s: System)
    ensures Reachable(s) && BothRegistered(s)
    ensures s.ends[CLIENT].connection.Some?
    ensures s.ends[SERVER].server.clients == map[] && s.ends[SERVER].server.creating.Some?
    ensures s.ends[SERVER].offered == {"2"}
    ensures s.relay.inbox[CLIENT] != [] && s.handled[CLIENT] == |s.relay.inbox[CLIENT]|
  {
    var s0 := OfferReachesClient();
    ReachesNext(s0, Deliver(CLIENT));
    s := Do(s0, Deliver(CLIENT));
  }

  /** A candidate still in flight when the client disconnects finds no connection. */
  lemma CandidateAfterDisconnect() returns (s: System)
    ensures Reachable(s) && CLIENT in s.faults
  {
    var s0 := ConnectedWithoutEntry();
    var e, m := s0.ends[SERVER], Message("2", Candidate, NoRole, "", "host", "0");
    SendAndForward(s0, EmitServerCandidate(SERVER, "2", "host", "0"), e, m, CLIENT);
    var s1 := AfterForward(Sent(s0, SERVER, e, m), SERVER, m, CLIENT);
    ReachesNext(s1, Disconnect(CLIENT));
    var s2 := Do(s1, Disconnect(CLIENT));
    assert NextAfter(s2) == m.(id := "1");
    ReachesNext(s2, Deliver(CLIENT));
    s := Do(s2, Deliver(CLIENT));
  }

  function NextAfter(s: System): Message
    requires CLIENT in s.handled && CLIENT in s.relay.inbox && s.handled[CLIENT] < |s.relay.inbox[CLIENT]|
  {
    s.relay.inbox[CLIENT][s.handled[CLIENT]]
  }
}
