/** Delivery of messages to the endpoints, and what whole runs of clients, servers and relay
    guarantee: nobody but a client that has disconnected meets a message it has no connection for,
    and a client is only ever connected to the server it asked for. */
module EndToEndGuarantees {
  import opened PeerRegistry
  import opened Relay
  import opened Endpoints
  import opened EndToEnd
  import opened EndToEndSafety

  // ---------- who a delivered message comes from ----------

  function NextFor(s: System, c: Conn): Message
    requires c in s.ends && c in s.handled && c in s.relay.inbox && s.handled[c] < |s.relay.inbox[c]|
  {
    s.relay.inbox[c][s.handled[c]]
  }

  ghost predicate HasNext(s: System, c: Conn) {
    c in s.ends && c in s.handled && c in s.relay.inbox && s.handled[c] < |s.relay.inbox[c]|
  }

  /** A client hears only from the server it asked for: offers and candidates, nothing else. */
  lemma ClientHears(s: System, c: Conn, m: Message) returns (d: Conn)
    requires Inv(s) && c in s.ends && s.ends[c].ClientEnd? && m in s.relay.inbox[c]
    ensures m.kind == Offer || m.kind == Candidate
    ensures m.id == s.ends[c].target && ServedBy(s, c, d) && Name(s, d) == s.ends[c].target
  {
    assert EndOk(s, c);
    d :| From(s, c, m, d);
    assert EndOk(s, d);
    var said := m.(id := Name(s, c));
    assert SaidBy(s.ends[d], Name(s, d), said);
    var x := OfferMeans(s, d, said);
    assert x == c;
  }

  /** A server hears only from clients that asked for it, and replies only from clients it owns. */
  lemma ServerHears(s: System, c: Conn, m: Message) returns (d: Conn)
    requires Inv(s) && c in s.ends && s.ends[c].ServerEnd? && m in s.relay.inbox[c]
    ensures d in s.ends && s.ends[d].ClientEnd? && m.id == Name(s, d) && s.ends[d].target == Name(s, c)
    ensures s.relay.handlers[d].registered
    ensures m.kind == Join || (m.kind in {Answer, Candidate} && m.id in Owned(s.ends[c].server))
  {
    assert EndOk(s, c);
    d :| From(s, c, m, d);
    assert EndOk(s, d);
    var said := m.(id := Name(s, c));
    assert SaidBy(s.ends[d], Name(s, d), said);
    if s.ends[d].ServerEnd? {
      var x := OfferMeans(s, d, said);
      assert false;
    } else if m.kind != Join {
      var e :| ServedBy(s, d, e) && Name(s, e) == s.ends[d].target;
      assert e == c;
    }
  }

  // ---------- delivery ----------

  /** What a delivery changes: the endpoint `c` and its count of handled messages. */
  ghost predicate Handles(s: System, c: Conn, e: Endpoint, s': System)
    requires Keyed(s)
  {
    && c in s.ends && s.handled[c] < |s.relay.inbox[c]| && EndGrows(s.ends[c], e)
    && s' == s.(ends := s.ends[c := e], handled := s.handled[c := s.handled[c] + 1], faults := s'.faults)
    && (forall d :: d in s'.faults ==> d in s.faults || (d == c && e.ClientEnd? && e.left))
  }

  lemma HandlesShape(s: System, c: Conn, e: Endpoint, s': System)
    requires Keyed(s) && Shape(s) && Handles(s, c, e, s')
    ensures Keyed(s') && Shape(s') && Grows(s, s')
    ensures FaultsExplained(s) ==> FaultsExplained(s')
  {
    HandlesGrows(s, c, e, s');
    SameRelayShape(s, s');
  }

  lemma HandlesGrows(s: System, c: Conn, e: Endpoint, s': System)
    requires Keyed(s) && Handles(s, c, e, s')
    ensures Keyed(s') && Grows(s, s')
  {
  }

  lemma SaysStill(s: System, s': System, c: Conn)
    requires Keyed(s) && Keyed(s') && c in s.ends && c in s'.ends && SaysInOrder(s, c)
    requires s'.outbox[c] == s.outbox[c] && EndGrows(s.ends[c], s'.ends[c]) && Name(s', c) == Name(s, c)
    requires s.ends[c].ServerEnd? ==> s'.ends[c].offered == s.ends[c].offered
    ensures SaysInOrder(s', c)
  {
    forall m | m in s.outbox[c] ensures SaidBy(s'.ends[c], Name(s', c), m) {
      SaidByGrows(s.ends[c], s'.ends[c], Name(s, c), m);
    }
  }

  lemma TracksStill(s: System, s': System, c: Conn)
    requires Keyed(s) && Keyed(s') && Grows(s, s') && c in s.ends && HandlerTracks(s, c) && OffersArrive(s, c)
    requires s'.relay == s.relay && s'.outbox == s.outbox && s'.ends.Keys == s.ends.Keys
    ensures HandlerTracks(s', c) && OffersArrive(s', c)
  {
    var h := s.relay.handlers[c];
    forall i, x | 0 <= i < |h.heard| && x in s'.ends && OfferDone(h, i, Name(s', x))
      ensures Finished(h) || s'.relay.handlers[x].pc.Ended? || s'.relay.inbox[x] != []
    {
      assert OfferDone(h, i, Name(s, x));
    }
  }

  /** Everything but the endpoint's own obligations carries over to the state after a delivery
      or a store; `c` is the endpoint that moved. */
  lemma OthersCarryOver(s: System, s': System, c: Conn, d: Conn)
    requires Keyed(s) && Keyed(s') && Grows(s, s') && c in s.ends && d in s.ends && EndOk(s, d)
    requires s'.relay == s.relay && s'.outbox == s.outbox && s'.ends.Keys == s.ends.Keys
    requires d != c ==> s'.ends[d] == s.ends[d] && s'.handled[d] == s.handled[d]
    requires s.ends[d].ServerEnd? ==> s'.ends[d].offered == s.ends[d].offered
    requires d == c ==> ServerOk(s', c) && ClientOk(s', c)
    ensures EndOk(s', d)
  {
    TracksStill(s, s', d);
    SaysStill(s, s', d);
    ArrivesGrows(s, s', d);
    if d != c {
      ServerOkGrows(s, s', d);
      ClientOkGrows(s, s', d);
    }
  }

  lemma AllCarryOver(s: System, s': System, c: Conn)
    requires Inv(s) && Keyed(s') && Shape(s') && Grows(s, s') && c in s.ends
    requires s'.relay == s.relay && s'.outbox == s.outbox && s'.ends.Keys == s.ends.Keys && FaultsExplained(s')
    requires forall d :: d in s.ends && d != c ==> s'.ends[d] == s.ends[d] && s'.handled[d] == s.handled[d]
    requires s.ends[c].ServerEnd? ==> s'.ends[c].offered == s.ends[c].offered
    requires ServerOk(s', c) && ClientOk(s', c)
    ensures Inv(s')
  {
    forall x | x in s'.ends ensures EndOk(s', x) {
      OthersCarryOver(s, s', c, x);
    }
  }

  /** What a client does with a delivery. It has a connection afterwards unless it had left, and
      is refused exactly a candidate that comes when it has no connection any more. */
  lemma ClientDelivery(s: System, c: Conn)
    requires Inv(s) && HasNext(s, c) && s.ends[c].ClientEnd?
    ensures var m, e := NextFor(s, c), s.ends[c];
      var (after, outcome) := ClientHandle(e.connection, m);
      && (outcome == NoConnection <==> e.met && e.connection.None? && m.kind == Candidate)
      && (outcome == NoConnection ==> e.left)
      && (e.met || after.Some?) && (!e.left ==> after.Some?)
      && (after.Some? ==>
            && after.value.peer == e.target
            && forall x :: x in after.value.applied ==> x.id == e.target)
  {
    assert EndOk(s, c);
    var m := NextFor(s, c);
    assert m in s.relay.inbox[c];
    var d := ClientHears(s, c, m);
    FirstOrMet(s, c);
  }

  /** Before it has met its server a client can only be handed the offer that comes first. */
  lemma FirstOrMet(s: System, c: Conn)
    requires Keyed(s) && HasNext(s, c) && ClientOk(s, c) && s.ends[c].ClientEnd?
    ensures s.ends[c].met || NextFor(s, c).kind == Offer
    ensures ConnectionOk(s.ends[c])
  {
  }

  /** The endpoint after a client's delivery. */
  lemma DeliveredClientIs(s: System, c: Conn, s': System)
    requires Inv(s) && HasNext(s, c) && s.ends[c].ClientEnd? && s' == Delivered(s, c)
    ensures Handles(s, c, s'.ends[c], s') && s'.ends[c].met && ConnectionOk(s'.ends[c])
  {
    ClientDelivery(s, c);
    DeliveredClient(s, c, s');
  }

  lemma DeliveredClient(s: System, c: Conn, s': System)
    requires HasNext(s, c) && s.ends[c].ClientEnd? && s' == Delivered(s, c)
    ensures var e := s.ends[c];
      var (after, outcome) := ClientHandle(e.connection, NextFor(s, c));
      var e' := e.(connection := after, answered := e.answered && e.connection.Some?, met := e.met || after.Some?);
      && c in s'.ends && s'.ends[c] == e'
      && s' == s.(ends := s.ends[c := e'], handled := s.handled[c := s.handled[c] + 1], faults := s'.faults)
      && s'.faults == if outcome == NoConnection then s.faults + {c} else s.faults
  {
  }

  lemma StillServed(s: System, c: Conn, s': System, d: Conn)
    requires Keyed(s) && Keyed(s') && Grows(s, s') && c in s.ends && ClientOk(s, c) && s.ends[c].ClientEnd?
    requires ServedBy(s, c, d) && Name(s, d) == s.ends[c].target && s'.relay == s.relay
    requires ConnectionOk(s'.ends[c]) && s'.ends[c].met
    ensures ClientOk(s', c)
  {
    ServedByGrows(s, s', c, d);
  }

  lemma ClientDelivered(s: System, c: Conn, s': System)
    requires Inv(s) && HasNext(s, c) && s.ends[c].ClientEnd? && s' == Delivered(s, c)
    ensures Inv(s')
  {
    DeliveredClientIs(s, c, s');
    HandledClientKeeps(s, c, s'.ends[c], s');
  }

  lemma HandledClientKeeps(s: System, c: Conn, e: Endpoint, s': System)
    requires Inv(s) && HasNext(s, c) && s.ends[c].ClientEnd? && Handles(s, c, e, s') && e.met && ConnectionOk(e)
    ensures Inv(s')
  {
    HandlesShape(s, c, e, s');
    DeliveredClientOk(s, c, s');
    AllCarryOver(s, s', c);
  }

  lemma DeliveredClientOk(s: System, c: Conn, s': System)
    requires Inv(s) && HasNext(s, c) && s.ends[c].ClientEnd? && Keyed(s') && Grows(s, s') && s'.relay == s.relay
    requires ConnectionOk(s'.ends[c]) && s'.ends[c].met
    ensures ClientOk(s', c)
  {
    assert EndOk(s, c);
    assert NextFor(s, c) in s.relay.inbox[c];
    var d := ClientHears(s, c, NextFor(s, c));
    StillServed(s, c, s', d);
  }

  lemma DroppedOk(s: System, c: Conn, s': System)
    requires Keyed(s) && Shape(s) && c in s.ends && s.ends[c].ClientEnd? && s' == Dropped(s, c)
    requires ClientOk(s, c) && FaultsExplained(s)
    ensures Keyed(s') && Shape(s') && Grows(s, s') && ClientOk(s', c) && FaultsExplained(s')
  {
    SameRelayShape(s, s');
    if s.ends[c].met {
      var d :| ServedBy(s, c, d) && Name(s, d) == s.ends[c].target;
      ServedByGrows(s, s', c, d);
    }
  }

  lemma DisconnectKeeps(s: System, c: Conn, s': System)
    requires Inv(s) && c in s.ends && s.ends[c].ClientEnd? && s' == Dropped(s, c)
    ensures Inv(s')
  {
    assert EndOk(s, c);
    DroppedOk(s, c, s');
    AllCarryOver(s, s', c);
  }

  lemma ServerDelivery(s: System, c: Conn)
    requires Inv(s) && HasNext(s, c) && s.ends[c].ServerEnd? && s.ends[c].server.creating.None?
    ensures var m, server := NextFor(s, c), s.ends[c].server;
      && ServerTake(server, m).1 == Done
      && (m.id in server.clients || m.kind == Join)
  {
    var m := NextFor(s, c);
    assert m in s.relay.inbox[c];
    var d := ServerHears(s, c, m);
  }

  /** The endpoint after a server's delivery: at most one more client is owned, by its join. */
  lemma DeliveredServerIs(s: System, c: Conn, s': System)
    requires Inv(s) && HasNext(s, c) && s.ends[c].ServerEnd? && s.ends[c].server.creating.None? && s' == Delivered(s, c)
    ensures Handles(s, c, s'.ends[c], s') && s'.ends[c].offered == s.ends[c].offered
    ensures var m, server, server' := NextFor(s, c), s.ends[c].server, s'.ends[c].server;
      && (Owned(server') == Owned(server) || (m.kind == Join && Owned(server') == Owned(server) + {m.id}))
      && (server'.creating.Some? ==> server'.creating.value.id !in server'.clients)
  {
    ServerDelivery(s, c);
    TakeOwned(s.ends[c].server, NextFor(s, c));
    DeliveredServer(s, c, s');
  }

  lemma DeliveredServer(s: System, c: Conn, s': System)
    requires Keyed(s) && HasNext(s, c) && s.ends[c].ServerEnd? && s' == Delivered(s, c)
    requires ServerTake(s.ends[c].server, NextFor(s, c)).1 == Done
    requires Owned(s.ends[c].server) <= Owned(ServerTake(s.ends[c].server, NextFor(s, c)).0)
    ensures s'.ends[c] == s.ends[c].(server := ServerTake(s.ends[c].server, NextFor(s, c)).0)
    ensures Handles(s, c, s'.ends[c], s')
  {
  }

  lemma TakeOwned(server: ServerState, m: Message)
    requires server.creating.None? && (m.id in server.clients || m.kind == Join)
    ensures var server' := ServerTake(server, m).0;
      && Owned(server) <= Owned(server')
      && (Owned(server') == Owned(server) || (m.kind == Join && Owned(server') == Owned(server) + {m.id}))
      && (server'.creating.Some? ==> server'.creating.value.id !in server'.clients)
  {
    if m.id in server.clients {
      assert Owned(ServerTake(server, m).0) == Owned(server);
    }
  }

  lemma TakenServerOk(s: System, c: Conn, s': System)
    requires Inv(s) && HasNext(s, c) && s.ends[c].ServerEnd? && s.ends[c].server.creating.None? && s' == Delivered(s, c)
    requires Keyed(s') && Grows(s, s')
    ensures ServerOk(s', c)
  {
    DeliveredServerIs(s, c, s');
    assert EndOk(s, c);
    forall n | n in Owned(s'.ends[c].server) ensures exists x :: Joiner(s', c, x) && Name(s', x) == n {
      if n in Owned(s.ends[c].server) {
        var x :| Joiner(s, c, x) && Name(s, x) == n;
        JoinerGrows(s, s', c, x);
      } else {
        var x := NewJoiner(s, c, s');
      }
    }
  }

  lemma NewJoiner(s: System, c: Conn, s': System) returns (x: Conn)
    requires Inv(s) && HasNext(s, c) && s.ends[c].ServerEnd? && NextFor(s, c).kind == Join
    requires Keyed(s') && Grows(s, s') && s'.relay == s.relay && s'.handled[c] == s.handled[c] + 1
    ensures Joiner(s', c, x) && Name(s', x) == NextFor(s, c).id
  {
    assert NextFor(s, c) in s.relay.inbox[c];
    x := ServerHears(s, c, NextFor(s, c));
    assert JoinAt(s'.relay.inbox[c], s.handled[c], Name(s', x));
  }

  lemma ServerDelivered(s: System, c: Conn, s': System)
    requires Inv(s) && HasNext(s, c) && s.ends[c].ServerEnd? && s.ends[c].server.creating.None? && s' == Delivered(s, c)
    ensures Inv(s')
  {
    DeliveredServerIs(s, c, s');
    HandlesShape(s, c, s'.ends[c], s');
    TakenServerOk(s, c, s');
    AllCarryOver(s, s', c);
  }

  lemma StoreKeeps(s: System, c: Conn, s': System)
    requires Inv(s) && c in s.ends && s.ends[c].ServerEnd? && s.ends[c].server.creating.Some? && s' == Stored(s, c)
    ensures Inv(s')
  {
    StoredShape(s, c, s');
    assert EndOk(s, c);
    StoredServerOk(s, c, s');
    StoredNoFault(s, c, s');
    AllCarryOver(s, s', c);
  }

  lemma StoredNoFault(s: System, c: Conn, s': System)
    requires Keyed(s) && Keyed(s') && c in s.ends && ServerOk(s, c) && FaultsExplained(s)
    requires s.ends[c].ServerEnd? && s.ends[c].server.creating.Some? && s' == Stored(s, c)
    ensures FaultsExplained(s') && s'.relay == s.relay && s'.outbox == s.outbox && s'.handled == s.handled
    ensures s'.ends[c].offered == s.ends[c].offered && ClientOk(s', c)
    ensures forall d :: d in s.ends && d != c ==> s'.ends[d] == s.ends[d]
  {
  }

  lemma StoredShape(s: System, c: Conn, s': System)
    requires Keyed(s) && Shape(s) && c in s.ends && s.ends[c].ServerEnd? && s.ends[c].server.creating.Some? &&
        s' == Stored(s, c)
    ensures Keyed(s') && Shape(s') && Grows(s, s')
    ensures Owned(s'.ends[c].server) == Owned(s.ends[c].server)
  {
    SameRelayShape(s, s');
    assert Owned(s'.ends[c].server) == Owned(s.ends[c].server);
  }

  lemma StoredServerOk(s: System, c: Conn, s': System)
    requires Keyed(s) && Keyed(s') && Grows(s, s') && c in s.ends && ServerOk(s, c)
    requires s.ends[c].ServerEnd? && s.ends[c].server.creating.Some? && s' == Stored(s, c)
    requires Owned(s'.ends[c].server) == Owned(s.ends[c].server)
    ensures ServerOk(s', c)
  {
    forall n | n in Owned(s'.ends[c].server) ensures exists x :: Joiner(s', c, x) && Name(s', x) == n {
      var x :| Joiner(s, c, x) && Name(s, x) == n;
      JoinerGrows(s, s', c, x);
    }
  }

  // ---------- every action ----------

  /** Nobody sends to the empty id. */
  lemma TargetNamed(s: System, c: Conn)
    requires Inv(s) && c in s.ends
    ensures Name(s, c) != ""
    ensures s.ends[c].ServerEnd? ==> "" !in Owned(s.ends[c].server)
    ensures s.ends[c].ClientEnd? ==> s.ends[c].target != ""
    ensures s.ends[c].ClientEnd? ==> ConnectionOk(s.ends[c])
  {
    assert EndOk(s, c);
    forall d | d in s.ends ensures Name(s, d) != "" {
      assert HandlerOk(s.relay, d);
    }
  }

  lemma GreetMaySay(s: System, c: Conn)
    requires Keyed(s) && c in s.ends && Name(s, c) != "" && ServerOk(s, c)
    ensures MaySay(s, c, s.ends[c].(greeted := true), RegisterMessage(Name(s, c), RoleOf(s.ends[c])))
  {
  }

  lemma JoinMaySay(s: System, c: Conn)
    requires Keyed(s) && IsClient(s, c) && s.ends[c].target != ""
    ensures MaySay(s, c, s.ends[c].(joined := true), JoinMessage(s.ends[c].target))
  {
  }

  lemma ServerMaySay(s: System, c: Conn, peer: string, m: Message, e: Endpoint)
    requires Keyed(s) && IsServer(s, c) && ServerOk(s, c) && peer in Owned(s.ends[c].server) && peer != "" &&
        m.id == peer
    requires (m.kind == Offer && e == s.ends[c].(offered := s.ends[c].offered + {peer}))
      || (m.kind == Candidate && e == s.ends[c] && peer in s.ends[c].offered)
    ensures MaySay(s, c, e, m)
  {
  }

  lemma ClientMaySay(s: System, c: Conn, m: Message, e: Endpoint)
    requires Keyed(s) && IsClient(s, c) && s.ends[c].met
    requires m.kind in {Answer, Candidate} && m.id == s.ends[c].target != ""
    requires e == s.ends[c].(answered := true) || e == s.ends[c]
    ensures MaySay(s, c, e, m)
  {
  }

  ghost predicate IsSending(a: Action) {
    a.Greet? || a.SendJoin? || a.EmitOffer? || a.EmitServerCandidate? || a.EmitAnswer? || a.EmitClientCandidate?
  }

  lemma SendingSends(s: System, a: Action, s': System)
    requires Keyed(s) && Next(s, a, s') && IsSending(a)
    ensures a.c in s.ends && a.c in s'.ends && a.c in s'.outbox && |s'.outbox[a.c]| == |s.outbox[a.c]| + 1
    ensures s' == Sent(s, a.c, s'.ends[a.c], s'.outbox[a.c][|s.outbox[a.c]|])
  {
  }

  lemma SendingKeeps(s: System, a: Action, s': System)
    requires Inv(s) && Next(s, a, s') && IsSending(a)
    ensures Inv(s')
  {
    SendingSends(s, a, s');
    var e, m := s'.ends[a.c], s'.outbox[a.c][|s.outbox[a.c]|];
    SendingMaySay(s, a, s', e, m);
    EndToEnd.SentKeeps(s, a.c, e, m);
  }

  lemma SendingMaySay(s: System, a: Action, s': System, e: Endpoint, m: Message)
    requires Inv(s) && Next(s, a, s') && IsSending(a) && a.c in s.ends
    requires s' == Sent(s, a.c, e, m)
    ensures MaySay(s, a.c, e, m)
  {
    assert s'.ends[a.c] == e && s'.outbox[a.c][|s.outbox[a.c]|] == m;
    TargetNamed(s, a.c);
    assert EndOk(s, a.c);
    match a {
      case Greet(c) => GreetMaySay(s, c);
      case SendJoin(c) => JoinMaySay(s, c);
      case EmitOffer(c, peer, sdp) => ServerMaySay(s, c, peer, m, e);
      case EmitServerCandidate(c, peer, candidate, mid) => ServerMaySay(s, c, peer, m, e);
      case EmitAnswer(c, sdp) => ClientMaySay(s, c, m, e);
      case EmitClientCandidate(c, candidate, mid) => ClientMaySay(s, c, m, e);
    }
  }

  /** Every action keeps the invariant. */
  lemma NextKeepsInv(s: System, a: Action, s': System)
    requires Inv(s) && Next(s, a, s')
    ensures Inv(s')
  {
    match a {
      case OpenClient(c, name, target) => OpenedKeeps(s, c, name, NewClient(target));
      case OpenServer(c, name) => OpenedKeeps(s, c, name, NewServer());
      case RelayMoves(l) => RelayKeeps(s, l, s');
      case Deliver(c) =>
        if s.ends[c].ClientEnd? {
          ClientDelivered(s, c, s');
        } else {
          ServerDelivered(s, c, s');
        }
      case Store(c) => StoreKeeps(s, c, s');
      case Disconnect(c) => DisconnectKeeps(s, c, s');
      case _ => SendingKeeps(s, a, s');
    }
  }

  lemma {:induction false} InvInRuns(ss: seq<System>, acts: seq<Action>, i: nat)
    requires IsSystemRun(ss, acts) && i < |ss|
    ensures Inv(ss[i])
    decreases i
  {
    if i > 0 {
      InvInRuns(ss, acts, i - 1);
      NextKeepsInv(ss[i - 1], acts[i - 1], ss[i]);
    }
  }

  // ---------- guarantees ----------

  ghost predicate HasLeft(s: System, c: Conn) {
    c in s.ends && s.ends[c].ClientEnd? && s.ends[c].left
  }

  lemma OnlyDisconnectLeaves(s: System, a: Action, s': System, c: Conn)
    requires Keyed(s) && Next(s, a, s') && HasLeft(s', c)
    ensures a == Disconnect(c) || HasLeft(s, c)
  {
  }

  lemma NobodyLeftAtStart(ss: seq<System>, acts: seq<Action>, c: Conn)
    requires IsSystemRun(ss, acts)
    ensures !HasLeft(ss[0], c)
  {
  }

  lemma LeftBefore(ss: seq<System>, acts: seq<Action>, i: nat, c: Conn)
    requires IsSystemRun(ss, acts) && i < |acts| && HasLeft(ss[i + 1], c)
    ensures acts[i] == Disconnect(c) || HasLeft(ss[i], c)
  {
    InvInRuns(ss, acts, i);
    assert Next(ss[i], acts[i], ss[i + 1]);
    OnlyDisconnectLeaves(ss[i], acts[i], ss[i + 1], c);
  }

  lemma {:induction false} LeftByDisconnect(ss: seq<System>, acts: seq<Action>, i: nat, c: Conn) returns (k: nat)
    requires IsSystemRun(ss, acts) && i < |ss| && HasLeft(ss[i], c)
    ensures k < i && acts[k] == Disconnect(c)
    decreases i
  {
    NobodyLeftAtStart(ss, acts, c);
    k := i - 1;
    LeftBefore(ss, acts, k, c);
    if acts[k] != Disconnect(c) {
      k := LeftByDisconnect(ss, acts, k, c);
    }
  }

  /** In every run, a server never meets a message it has no connection for, and never stores a
      connection over an existing one; a client meets such a message only after it has called
      `disconnect`. */
  lemma NoFaults(ss: seq<System>, acts: seq<Action>, i: nat, c: Conn) returns (k: nat)
    requires IsSystemRun(ss, acts) && i < |ss| && c in ss[i].faults
    ensures c in ss[i].ends && ss[i].ends[c].ClientEnd? && k < i && acts[k] == Disconnect(c)
  {
    InvInRuns(ss, acts, i);
    k := LeftByDisconnect(ss, acts, i, c);
  }

  /** A delivery is refused exactly when it hands a candidate to a client that has had its
      connection and has it no more. */
  lemma RefusedExactlyWhen(ss: seq<System>, acts: seq<Action>, i: nat, c: Conn)
    requires IsSystemRun(ss, acts) && i < |acts| && acts[i] == Deliver(c) && c !in ss[i].faults
    ensures HasNext(ss[i], c)
    ensures c in ss[i + 1].faults <==> FindsNoConnection(ss[i], c)
  {
    InvInRuns(ss, acts, i);
    assert Next(ss[i], acts[i], ss[i + 1]);
    DeliverIs(ss[i], c, ss[i + 1]);
    RefusedIff(ss[i], c, ss[i + 1]);
  }

  ghost predicate FindsNoConnection(s: System, c: Conn)
    requires HasNext(s, c)
  {
    var e := s.ends[c];
    e.ClientEnd? && e.met && e.connection.None? && NextFor(s, c).kind == Candidate
  }

  lemma DeliverIs(s: System, c: Conn, s': System)
    requires Next(s, Deliver(c), s')
    ensures HasNext(s, c) && s' == Delivered(s, c)
    ensures s.ends[c].ServerEnd? ==> s.ends[c].server.creating.None?
  {
  }

  lemma RefusedIff(s: System, c: Conn, s': System)
    requires Inv(s) && HasNext(s, c) && s' == Delivered(s, c) && c !in s.faults
    requires s.ends[c].ServerEnd? ==> s.ends[c].server.creating.None?
    ensures c in s'.faults <==> FindsNoConnection(s, c)
  {
    if s.ends[c].ClientEnd? {
      ClientRefusedIff(s, c, s');
    } else {
      ServerNeverRefuses(s, c, s');
    }
  }

  lemma ClientRefusedIff(s: System, c: Conn, s': System)
    requires Inv(s) && HasNext(s, c) && s.ends[c].ClientEnd? && s' == Delivered(s, c) && c !in s.faults
    ensures c in s'.faults <==> FindsNoConnection(s, c)
  {
    ClientDelivery(s, c);
    DeliveredClient(s, c, s');
  }

  lemma ServerNeverRefuses(s: System, c: Conn, s': System)
    requires Inv(s) && HasNext(s, c) && s.ends[c].ServerEnd? && s.ends[c].server.creating.None? && s' == Delivered(s, c)
    ensures s'.faults == s.faults
  {
    ServerDelivery(s, c);
  }

  /** A connected client is connected to the server it asked for: that server's relay inbox holds
      the client's own join, already handled, and the server has an entry for the client unless
      it is still inside the creation of that very entry. Everything the client has applied came
      from that one server. */
  lemma ConnectionMeansJoin(ss: seq<System>, acts: seq<Action>, i: nat, c: Conn) returns (d: Conn)
    requires IsSystemRun(ss, acts) && i < |ss|
    requires IsClient(ss[i], c) && ss[i].ends[c].connection.Some?
    ensures Keyed(ss[i]) && IsServer(ss[i], d) && Name(ss[i], d) == ss[i].ends[c].target
    ensures JoinHandled(ss[i], d, Name(ss[i], c))
    ensures var server := ss[i].ends[d].server;
      Name(ss[i], c) !in server.clients <==> server.creating.Some? && server.creating.value.id == Name(ss[i], c)
    ensures ss[i].ends[c].connection.value.peer == ss[i].ends[c].target
    ensures forall m :: m in ss[i].ends[c].connection.value.applied ==> m.id == Name(ss[i], d)
  {
    InvInRuns(ss, acts, i);
    assert EndOk(ss[i], c);
    d :| ServedBy(ss[i], c, d) && Name(ss[i], d) == ss[i].ends[c].target;
    assert EndOk(ss[i], d);
    ServedMeansJoined(ss[i], c, d);
  }

  lemma ServedMeansJoined(s: System, c: Conn, d: Conn)
    requires Keyed(s) && Shape(s) && c in s.ends && ServedBy(s, c, d) && ServerOk(s, d)
    ensures JoinHandled(s, d, Name(s, c))
    ensures var server := s.ends[d].server;
      Name(s, c) !in server.clients <==> server.creating.Some? && server.creating.value.id == Name(s, c)
  {
    var x :| Joiner(s, d, x) && Name(s, x) == Name(s, c);
  }

  /** A server's map holds only clients that asked for it and whose join it has handled. */
  lemma EntryMeansJoin(ss: seq<System>, acts: seq<Action>, i: nat, d: Conn, n: string) returns (c: Conn)
    requires IsSystemRun(ss, acts) && i < |ss| && IsServer(ss[i], d) && n in ss[i].ends[d].server.clients
    ensures Keyed(ss[i]) && IsClient(ss[i], c) && Name(ss[i], c) == n
    ensures ss[i].ends[c].target == Name(ss[i], d) && JoinHandled(ss[i], d, n)
  {
    var s := ss[i];
    InvInRuns(ss, acts, i);
    assert EndOk(s, d);
    assert n in Owned(s.ends[d].server);
    c :| Joiner(s, d, c) && Name(s, c) == n;
  }

  /** A client hears nothing but offers and candidates of the server it asked for, an offer
      first, although its handler never compares ids. */
  lemma ClientHearsOnlyItsServer(ss: seq<System>, acts: seq<Action>, i: nat, c: Conn, k: nat)
    requires IsSystemRun(ss, acts) && i < |ss| && IsClient(ss[i], c)
    requires c in ss[i].relay.inbox && k < |ss[i].relay.inbox[c]|
    ensures var m := ss[i].relay.inbox[c][k];
      && m.id == ss[i].ends[c].target
      && (m.kind == Offer || m.kind == Candidate)
      && (k == 0 ==> m.kind == Offer)
  {
    var s := ss[i];
    InvInRuns(ss, acts, i);
    assert EndOk(s, c);
    assert s.relay.inbox[c][k] in s.relay.inbox[c];
    var d := ClientHears(s, c, s.relay.inbox[c][k]);
  }

  /** A server hears a join from each of its clients, and answers and candidates only from
      clients whose connection it has, or is creating. */
  lemma ServerHearsOnlyItsClients(ss: seq<System>, acts: seq<Action>, i: nat, d: Conn, m: Message) returns (c: Conn)
    requires IsSystemRun(ss, acts) && i < |ss| && IsServer(ss[i], d)
    requires d in ss[i].relay.inbox && m in ss[i].relay.inbox[d]
    ensures c in ss[i].relay.handlers && d in ss[i].relay.handlers
    ensures IsClient(ss[i], c) && Name(ss[i], c) == m.id && ss[i].ends[c].target == Name(ss[i], d)
    ensures m.kind == Join || (m.kind in {Answer, Candidate} && m.id in Owned(ss[i].ends[d].server))
  {
    InvInRuns(ss, acts, i);
    c := ServerHears(ss[i], d, m);
  }
}
