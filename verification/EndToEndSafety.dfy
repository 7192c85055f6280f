/** Every action of the composed system keeps the invariant; the end-to-end guarantees follow. */
module EndToEndSafety {
  import opened Wrappers
  import opened PeerRegistry
  import opened Relay
  import opened Endpoints
  import opened EndToEnd

  // ---------- who can have said what ----------

  /** An offer is only ever said by a server, to a client whose join it has handled; that
      server's handler is registered. */
  lemma OfferMeans(s: System, c: Conn, m: Message) returns (d: Conn)
    requires Keyed(s) && c in s.ends && SaysInOrder(s, c) && ServerOk(s, c) && ArrivesFromSender(s, c)
    requires m in s.outbox[c] && (m.kind == Offer || (m.kind == Candidate && s.ends[c].ServerEnd?))
    ensures s.ends[c].ServerEnd? && Joiner(s, c, d) && Name(s, d) == m.id && m.id in Owned(s.ends[c].server)
    ensures s.relay.handlers[c].registered
  {
    assert SaidBy(s.ends[c], Name(s, c), m);
    d :| Joiner(s, c, d) && Name(s, d) == m.id;
    var k :| 0 <= k < s.handled[c] && JoinAt(s.relay.inbox[c], k, Name(s, d));
    assert s.relay.inbox[c][k] in s.relay.inbox[c];
    var e :| From(s, c, s.relay.inbox[c][k], e);
  }

  // ---------- opening an endpoint ----------

  lemma OpenedKeyed(s: System, c: Conn, name: string, e: Endpoint, s': System)
    requires Keyed(s) && Fresh(s, c, name) && s' == Opened(s, c, name, e)
    ensures Keyed(s') && Extends(s.relay, s'.relay)
    ensures forall d :: d in s'.relay.handlers && d != c ==> d in s.ends && s'.relay.handlers[d] == s.relay.handlers[d]
    ensures forall d :: d in s.ends ==> s'.relay.inbox[d] == s.relay.inbox[d] && s'.handled[d] == s.handled[d]
    ensures s'.relay.closed == s.relay.closed && Name(s', c) == name && !s'.relay.handlers[c].pc.Ended?
    ensures s'.handled[c] == 0
  {
    AcceptAdds(s.relay, c, name);
  }

  lemma AcceptAdds(s: State, c: Conn, name: string)
    requires Enabled(s, Accept(c, name))
    ensures var s' := Apply(s, Accept(c, name));
      && s'.handlers == s.handlers[c := Handler(name, Reading, false, NoRole, [], [])]
      && s'.inbox == s.inbox[c := []] && s'.closed == s.closed && Extends(s, s')
  {
  }

  lemma OpenedShape(s: System, c: Conn, name: string, e: Endpoint, s': System)
    requires Keyed(s) && Shape(s) && Fresh(s, c, name) && s' == Opened(s, c, name, e)
    ensures Keyed(s') && Shape(s')
    ensures Extends(s.relay, s'.relay)
  {
    OpenedKeyed(s, c, name, e, s');
    NewNameUnique(s, s', c);
  }

  lemma NewNameUnique(s: System, s': System, c: Conn)
    requires UniqueNames(s) && Extends(s.relay, s'.relay) && c in s'.relay.handlers
    requires forall d :: d in s'.relay.handlers && d != c ==> d in s.relay.handlers
    requires forall d :: d in s.relay.handlers ==> Name(s, d) != Name(s', c)
    ensures UniqueNames(s')
  {
    forall x, y | x in s'.relay.handlers && y in s'.relay.handlers && Name(s', x) == Name(s', y) ensures x == y {
      if x != c && y != c {
        assert Name(s, x) == Name(s, y);
      }
    }
  }

  lemma OpenedGrows(s: System, c: Conn, name: string, e: Endpoint, s': System)
    requires Keyed(s) && Fresh(s, c, name) && s' == Opened(s, c, name, e) && Keyed(s')
    requires Extends(s.relay, s'.relay)
    ensures Grows(s, s')
  {
    forall d | d in s.ends
      ensures d in s'.ends && EndGrows(s.ends[d], s'.ends[d]) && s.outbox[d] <= s'.outbox[d]
      ensures s.relay.inbox[d] <= s'.relay.inbox[d] && s.handled[d] <= s'.handled[d]
    {
      assert d != c;
    }
  }

  lemma OpenedOffers(s: System, c: Conn, name: string, e: Endpoint, s': System, d: Conn)
    requires Keyed(s) && Fresh(s, c, name) && s' == Opened(s, c, name, e) && Keyed(s') && d in s.ends
    requires EndOk(s, d)
    ensures OffersArrive(s', d)
  {
    var h := s.relay.handlers[d];
    assert s'.relay.handlers[d] == h;
    forall i, x | 0 <= i < |h.heard| && x in s'.ends && OfferDone(h, i, Name(s', x))
      ensures Finished(h) || s'.relay.handlers[x].pc.Ended? || s'.relay.inbox[x] != []
    {
      assert h.heard[i] == s.outbox[d][i];
      assert h.heard[i] in s.outbox[d];
      var j := OfferMeans(s, d, h.heard[i]);
      assert x != c;
      assert OfferDone(h, i, Name(s, x));
    }
  }

  lemma NewEndOk(s': System, c: Conn)
    requires Keyed(s') && c in s'.ends && s'.outbox[c] == [] && s'.handled[c] == 0 && s'.relay.inbox[c] == []
    requires s'.relay.handlers[c].heard == [] && s'.relay.handlers[c].pc == Reading && !s'.relay.handlers[c].registered
    requires s'.ends[c].ClientEnd? ==> s'.ends[c] == NewClient(s'.ends[c].target) && s'.ends[c].target != ""
    requires s'.ends[c].ServerEnd? ==> s'.ends[c].server == ServerState(map[], None) && s'.ends[c].offered == {}
    ensures EndOk(s', c)
  {
  }

  lemma OpenedKeeps(s: System, c: Conn, name: string, e: Endpoint)
    requires Inv(s) && Fresh(s, c, name)
    requires e.ClientEnd? ==> e == NewClient(e.target) && e.target != ""
    requires e.ServerEnd? ==> e.server == ServerState(map[], None) && e.offered == {}
    ensures Inv(Opened(s, c, name, e))
  {
    var s' := Opened(s, c, name, e);
    OpenedShape(s, c, name, e, s');
    OpenedGrows(s, c, name, e, s');
    FaultsCarry(s, s');
    StepKeepsOwnership(s.relay, Accept(c, name), s'.relay);
    NewEndOk(s', c);
    forall d | d in s'.ends ensures EndOk(s', d) {
      if d != c {
        OpenedOther(s, c, name, e, s', d);
      }
    }
  }

  lemma OpenedOther(s: System, c: Conn, name: string, e: Endpoint, s': System, d: Conn)
    requires Keyed(s) && Fresh(s, c, name) && s' == Opened(s, c, name, e) && Keyed(s') && Grows(s, s') && d in s.ends
    requires EndOk(s, d)
    ensures EndOk(s', d)
  {
    ArrivesGrows(s, s', d);
    ServerOkGrows(s, s', d);
    ClientOkGrows(s, s', d);
    StillTracks(s, s', d);
    OpenedOffers(s, c, name, e, s', d);
    StillSays(s, s', d);
  }

  lemma StillSays(s: System, s': System, d: Conn)
    requires Keyed(s) && Keyed(s') && d in s.ends && d in s'.ends && SaysInOrder(s, d)
    requires s'.outbox[d] == s.outbox[d] && s'.ends[d] == s.ends[d] && Name(s', d) == Name(s, d)
    ensures SaysInOrder(s', d)
  {
  }

  // ---------- relay moves ----------

  /** A relay step inside the composed system. */
  ghost predicate Moves(s: System, l: Label, s': System) {
    && Enabled(s.relay, l) && !l.Accept? && s' == s.(relay := Apply(s.relay, l))
    && Keyed(s) && Keyed(s') && Grows(s, s')
  }

  lemma MoveKeyed(s: System, l: Label, s': System)
    requires Keyed(s) && Enabled(s.relay, l) && !l.Accept? && s' == s.(relay := Apply(s.relay, l))
    ensures Keyed(s')
  {
  }

  lemma MoveInbox(s: System, l: Label, s': System)
    requires Keyed(s) && Keyed(s') && Enabled(s.relay, l) && !l.Accept? && s' == s.(relay := Apply(s.relay, l))
    ensures forall c :: c in s.ends ==> s.relay.inbox[c] <= s'.relay.inbox[c]
    ensures forall c :: c in s.ends && s'.relay.handlers[c].pc.Ended? && !s.relay.handlers[c].pc.Ended? ==>
        c in s'.relay.closed
    ensures forall c :: c in s.ends && s.relay.handlers[c].pc.Ended? ==> s'.relay.handlers[c].pc.Ended?
    ensures s.relay.closed <= s'.relay.closed
  {
    InboxGrows(s.relay, l, s'.relay);
    EndedIsClosed(s.relay, l, s'.relay);
  }

  lemma InboxGrows(s: State, l: Label, s': State)
    requires Step(s, l, s') && !l.Accept?
    ensures forall c :: c in s.inbox ==> c in s'.inbox && s.inbox[c] <= s'.inbox[c]
  {
  }

  lemma EndedIsClosed(s: State, l: Label, s': State)
    requires Step(s, l, s') && !l.Accept?
    ensures s'.handlers.Keys == s.handlers.Keys && s.closed <= s'.closed
    ensures forall c :: c in s.handlers && s'.handlers[c].pc.Ended? && !s.handlers[c].pc.Ended? ==> c in s'.closed
    ensures forall c :: c in s.handlers && s.handlers[c].pc.Ended? ==> s'.handlers[c].pc.Ended?
  {
  }

  lemma MoveShape(s: System, l: Label, s': System)
    requires Keyed(s) && Shape(s) && Ownership(s.relay)
    requires Enabled(s.relay, l) && !l.Accept? && s' == s.(relay := Apply(s.relay, l))
    ensures Keyed(s') && Shape(s') && Moves(s, l, s')
  {
    MoveKeyed(s, l, s');
    MoveInbox(s, l, s');
    StepExtends(s.relay, l, s'.relay);
    ShapeFrame(s, s');
  }

  lemma ShapeFrame(s: System, s': System)
    requires Keyed(s) && Keyed(s') && Shape(s) && s'.ends == s.ends && s'.handled == s.handled && s'.outbox == s.outbox
    requires Extends(s.relay, s'.relay) && s.relay.closed <= s'.relay.closed
    requires forall c :: c in s.ends ==> s.relay.inbox[c] <= s'.relay.inbox[c]
    requires forall c :: c in s.ends && s'.relay.handlers[c].pc.Ended? && !s.relay.handlers[c].pc.Ended? ==>
        c in s'.relay.closed
    ensures Shape(s') && Grows(s, s')
  {
    NamesStay(s, s');
  }

  lemma StillTracks(s: System, s': System, d: Conn)
    requires Keyed(s) && Keyed(s') && Grows(s, s') && d in s.ends && HandlerTracks(s, d)
    requires s'.relay.handlers[d] == s.relay.handlers[d] && s'.ends[d] == s.ends[d]
    ensures HandlerTracks(s', d)
  {
  }

  /** A handler that does not move keeps its account of its offers. */
  lemma StillArrive(s: System, s': System, d: Conn)
    requires Keyed(s) && Keyed(s') && Grows(s, s') && s'.ends.Keys == s.ends.Keys && d in s.ends && OffersArrive(s, d)
    requires s'.relay.handlers[d] == s.relay.handlers[d]
    requires forall x :: x in s.ends && s.relay.handlers[x].pc.Ended? ==> s'.relay.handlers[x].pc.Ended?
    ensures OffersArrive(s', d)
  {
    var h := s.relay.handlers[d];
    forall i, x | 0 <= i < |h.heard| && x in s'.ends && OfferDone(h, i, Name(s', x))
      ensures Finished(h) || s'.relay.handlers[x].pc.Ended? || s'.relay.inbox[x] != []
    {
      assert OfferDone(h, i, Name(s, x));
      assert s.relay.inbox[x] <= s'.relay.inbox[x];
    }
  }

  ghost predicate OfferTo(m: Message, name: string) {
    m.kind == Offer && m.id == name
  }

  function LastHeard(h: Handler): Message
    requires h.heard != []
  {
    h.heard[|h.heard| - 1]
  }

  lemma EarlierDone(s: System, s': System, c: Conn, i: nat, x: Conn)
    requires Keyed(s) && Keyed(s') && c in s.ends && x in s.ends && c in s'.ends && x in s'.ends && OffersArrive(s, c)
    requires i < |s.relay.handlers[c].heard| && OfferDone(s.relay.handlers[c], i, Name(s, x))
    requires s.relay.inbox[x] <= s'.relay.inbox[x] && Busy(s.relay.handlers[c])
    requires s.relay.handlers[x].pc.Ended? ==> s'.relay.handlers[x].pc.Ended?
    ensures s'.relay.handlers[x].pc.Ended? || s'.relay.inbox[x] != []
  {
  }

  /** The mover `c` finishes with its last message; the earlier ones stay as they were. */
  lemma LastDone(s: System, s': System, c: Conn)
    requires Keyed(s) && Keyed(s') && Grows(s, s') && s'.ends.Keys == s.ends.Keys && c in s.ends && OffersArrive(s, c)
    requires Busy(s.relay.handlers[c]) && s.relay.handlers[c].heard != []
    requires s'.relay.handlers[c].heard == s.relay.handlers[c].heard
    requires forall x :: x in s.ends && s.relay.handlers[x].pc.Ended? ==> s'.relay.handlers[x].pc.Ended?
    requires forall x :: x in s.ends && OfferTo(LastHeard(s.relay.handlers[c]), Name(s, x)) ==>
      Busy(s'.relay.handlers[c]) || Finished(s'.relay.handlers[c]) || s'.relay.handlers[x].pc.Ended? ||
          s'.relay.inbox[x] != []
    ensures OffersArrive(s', c)
  {
    var h, h' := s.relay.handlers[c], s'.relay.handlers[c];
    forall i, x | 0 <= i < |h'.heard| && x in s'.ends && OfferDone(h', i, Name(s', x))
      ensures Finished(h') || s'.relay.handlers[x].pc.Ended? || s'.relay.inbox[x] != []
    {
      if i < |h.heard| - 1 {
        EarlierDone(s, s', c, i, x);
      } else {
        assert OfferTo(LastHeard(h), Name(s, x));
      }
    }
  }

  lemma ReadTracks(s: System, c: Conn, msg: Message, s': System)
    requires Moves(s, Read(c, msg), s') && NextSaid(s, c, msg) && c in s.ends && HandlerTracks(s, c)
    ensures HandlerTracks(s', c)
  {
    var h, h' := s.relay.handlers[c], s'.relay.handlers[c];
    assert h'.heard == s.outbox[c][..|h.heard| + 1];
    assert LastHeard(h') == msg;
  }

  lemma ReadArrives(s: System, c: Conn, msg: Message, s': System)
    requires Moves(s, Read(c, msg), s') && NextSaid(s, c, msg) && c in s.ends && EndOk(s, c)
    ensures OffersArrive(s', c)
  {
    var h, h' := s.relay.handlers[c], s'.relay.handlers[c];
    var n := |h.heard|;
    assert h'.heard == h.heard + [msg];
    forall i, x | 0 <= i < |h'.heard| && x in s'.ends && OfferDone(h', i, Name(s', x))
      ensures Finished(h') || s'.relay.handlers[x].pc.Ended? || s'.relay.inbox[x] != []
    {
      if i < n {
        assert OfferDone(h, i, Name(s, x));
      } else {
        OfferIsParsed(s, c, msg);
      }
    }
  }

  /** A registered handler never drops an offer at triage, and a handler that hears one is registered. */
  lemma OfferIsParsed(s: System, c: Conn, msg: Message)
    requires Keyed(s) && c in s.ends && EndOk(s, c) && msg in s.outbox[c] && msg.kind == Offer
    ensures Triage(s.relay.handlers[c], msg).Parsed?
  {
    var d := OfferMeans(s, c, msg);
  }

  /** The last message a busy handler heard is one its endpoint said. */
  lemma LastSaid(s: System, c: Conn)
    requires Keyed(s) && c in s.ends && HandlerTracks(s, c) && SaysInOrder(s, c) && Busy(s.relay.handlers[c])
    ensures var h := s.relay.handlers[c];
      && h.heard != [] && Carries(s, h, LastHeard(h))
      && LastHeard(h) in s.outbox[c] && |h.heard| <= |s.outbox[c]|
      && SaidBy(s.ends[c], Name(s, c), LastHeard(h))
  {
    var h := s.relay.handlers[c];
    assert LastHeard(h) == s.outbox[c][|h.heard| - 1];
  }

  lemma AdmitTracks(s: System, c: Conn, s': System)
    requires Moves(s, Admit(c), s') && c in s.ends && HandlerTracks(s, c) && SaysInOrder(s, c) && OffersArrive(s, c)
    ensures HandlerTracks(s', c) && OffersArrive(s', c)
  {
    LastSaid(s, c);
    MoveInbox(s, Admit(c), s');
    LastDone(s, s', c);
  }

  /** The relay after a decision of `c`'s handler, which leaves it at `pc`. */
  ghost predicate Decides(s: System, c: Conn, pc: Pc, s': System) {
    && Keyed(s) && Keyed(s') && Grows(s, s') && c in s.ends && Busy(s.relay.handlers[c])
    && s' == s.(relay := At(s.relay, c, pc))
    && (pc == Reading || pc.Found? || pc.Sending?)
  }

  lemma DecisionTracks(s: System, c: Conn, pc: Pc, s': System)
    requires Decides(s, c, pc, s') && HandlerTracks(s, c)
    requires pc != Reading ==> Carries(s', s'.relay.handlers[c], LastHeard(s.relay.handlers[c]))
    ensures HandlerTracks(s', c)
  {
  }

  /** A decision that drops the last message drops no offer whose client is still there. */
  lemma DecisionArrives(s: System, c: Conn, pc: Pc, s': System)
    requires Decides(s, c, pc, s') && OffersArrive(s, c) && s.relay.handlers[c].heard != []
    requires forall x :: x in s.ends && OfferTo(LastHeard(s.relay.handlers[c]), Name(s, x)) ==>
      pc != Reading || s.relay.handlers[x].pc.Ended?
    ensures OffersArrive(s', c)
  {
    LastDone(s, s', c);
  }

  lemma LookUpDecides(s: System, c: Conn, s': System)
    requires Moves(s, LookUp(c), s') && c in s.ends
    ensures Decides(s, c, s'.relay.handlers[c].pc, s')
    ensures var h := s.relay.handlers[c];
      var id := Target(h, h.pc.msg);
      s'.relay.handlers[c].pc ==
        if id in s.relay.registry.peers then Found(h.pc.msg, s.relay.registry.peers[id]) else Reading
  {
    LookUpEffect(s.relay, c, s'.relay);
  }

  lemma LookUpTracks(s: System, c: Conn, s': System)
    requires Moves(s, LookUp(c), s') && c in s.ends && HandlerTracks(s, c) && SaysInOrder(s, c)
    requires EntriesOwned(s.relay)
    ensures HandlerTracks(s', c)
  {
    LastSaid(s, c);
    LookUpDecides(s, c, s');
    DecisionTracks(s, c, s'.relay.handlers[c].pc, s');
  }

  lemma LookUpArrives(s: System, c: Conn, s': System)
    requires Moves(s, LookUp(c), s') && Shape(s) && Ownership(s.relay) && c in s.ends && EndOk(s, c)
    ensures OffersArrive(s', c)
  {
    LastSaid(s, c);
    LookUpDecides(s, c, s');
    forall x | x in s.ends && OfferTo(LastHeard(s.relay.handlers[c]), Name(s, x))
      ensures s'.relay.handlers[c].pc != Reading || s.relay.handlers[x].pc.Ended?
    {
      OfferFound(s, c, s', x);
    }
    DecisionArrives(s, c, s'.relay.handlers[c].pc, s');
  }

  /** An offer goes from a registered server to a registered client. */
  lemma OfferEnds(s: System, c: Conn, x: Conn)
    requires Keyed(s) && Shape(s) && c in s.ends && EndOk(s, c) && x in s.ends
    requires s.relay.handlers[c].heard != [] && Busy(s.relay.handlers[c])
    requires OfferTo(LastHeard(s.relay.handlers[c]), Name(s, x))
    ensures s.ends[c].ServerEnd? && s.relay.handlers[c].role == RoleServer && s.relay.handlers[x].registered
  {
    LastSaid(s, c);
    var d := OfferMeans(s, c, LastHeard(s.relay.handlers[c]));
    assert d == x;
  }

  /** An offer's look-up finds the client, unless the client's handler has ended. */
  lemma OfferFound(s: System, c: Conn, s': System, x: Conn)
    requires Moves(s, LookUp(c), s') && Shape(s) && Ownership(s.relay) && c in s.ends && EndOk(s, c)
    requires s.relay.handlers[c].heard != [] && x in s.ends && OfferTo(LastHeard(s.relay.handlers[c]), Name(s, x))
    ensures s'.relay.handlers[c].pc != Reading || s.relay.handlers[x].pc.Ended?
  {
    LookUpDecides(s, c, s');
    OfferEnds(s, c, x);
    assert HandlerOk(s.relay, x);
  }

  lemma AskRoleDecides(s: System, c: Conn, s': System)
    requires Moves(s, AskRole(c), s') && c in s.ends
    ensures Decides(s, c, s'.relay.handlers[c].pc, s')
    ensures var h := s.relay.handlers[c];
      s'.relay.handlers[c].pc ==
        if RoleIn(s.relay.registry, h.name) == RoleClient && h.pc.target.role == RoleClient then Reading
        else Sending(h.pc.msg.(id := h.name), h.pc.target.conn)
  {
    AskRoleEffect(s.relay, c, s'.relay);
  }

  lemma AskRoleTracks(s: System, c: Conn, s': System)
    requires Moves(s, AskRole(c), s') && c in s.ends && HandlerTracks(s, c) && SaysInOrder(s, c)
    ensures HandlerTracks(s', c)
  {
    LastSaid(s, c);
    AskRoleDecides(s, c, s');
    DecisionTracks(s, c, s'.relay.handlers[c].pc, s');
  }

  lemma AskRoleArrives(s: System, c: Conn, s': System)
    requires Moves(s, AskRole(c), s') && c in s.ends && EndOk(s, c)
    requires Ownership(s.relay) && Shape(s)
    ensures OffersArrive(s', c)
  {
    LastSaid(s, c);
    AskRoleDecides(s, c, s');
    AskRoleSeesOwnRole(s.relay, c, s'.relay);
    forall x | x in s.ends && OfferTo(LastHeard(s.relay.handlers[c]), Name(s, x))
      ensures s'.relay.handlers[c].pc != Reading
    {
      OfferEnds(s, c, x);
    }
    DecisionArrives(s, c, s'.relay.handlers[c].pc, s');
  }

  /** The message being written is one the sender said to the receiver. */
  lemma WrittenIsFrom(s: System, c: Conn, s': System)
    requires Moves(s, Write(c, true), s') && c in s.ends && HandlerTracks(s, c) && SaysInOrder(s, c)
    requires HandlerOk(s.relay, c)
    ensures var to, msg := s.relay.handlers[c].pc.to, s.relay.handlers[c].pc.msg;
      to in s.ends && From(s, to, msg, c) && s'.relay.inbox == s.relay.inbox[to := s.relay.inbox[to] + [msg]]
  {
    LastSaid(s, c);
    var h := s.relay.handlers[c];
    assert h.pc.msg.(id := Name(s, h.pc.to)) == LastHeard(h);
  }

  lemma WriteTracks(s: System, c: Conn, ok: bool, s': System)
    requires Moves(s, Write(c, ok), s') && c in s.ends && HandlerTracks(s, c) && SaysInOrder(s, c)
    requires Shape(s) && OffersArrive(s, c)
    ensures HandlerTracks(s', c) && OffersArrive(s', c)
  {
    LastSaid(s, c);
    MoveInbox(s, Write(c, ok), s');
    var h := s.relay.handlers[c];
    forall x | x in s.ends && OfferTo(LastHeard(h), Name(s, x))
      ensures Finished(s'.relay.handlers[c]) || s'.relay.inbox[x] != []
    {
      assert x == h.pc.to;
    }
    LastDone(s, s', c);
  }

  /** The first message a client ever receives is an offer. */
  lemma FirstIsOffer(s: System, c: Conn, to: Conn)
    requires Keyed(s) && Shape(s) && c in s.ends && to in s.ends
    requires HandlerTracks(s, c) && SaysInOrder(s, c) && OffersArrive(s, c)
    requires s.relay.handlers[c].pc.Sending? && s.relay.handlers[c].pc.to == to && to !in s.relay.closed
    requires s.ends[c].ServerEnd? && s.relay.inbox[to] == []
    ensures s.relay.handlers[c].pc.msg.kind == Offer
  {
    var h := s.relay.handlers[c];
    LastSaid(s, c);
    var j := |h.heard| - 1;
    assert h.heard[j] == s.outbox[c][j];
    if h.heard[j].kind == Candidate {
      assert OfferBefore(s.outbox[c], j);
      var i :| 0 <= i < j && s.outbox[c][i].kind == Offer && s.outbox[c][i].id == s.outbox[c][j].id;
      assert h.heard[i] == s.outbox[c][i];
      assert OfferDone(h, i, Name(s, to));
      assert false;
    }
  }

  lemma WrittenArrives(s: System, c: Conn, s': System, d: Conn)
    requires Moves(s, Write(c, true), s') && c in s.ends && d in s.ends && ArrivesFromSender(s, d)
    requires var to, msg := s.relay.handlers[c].pc.to, s.relay.handlers[c].pc.msg;
      to in s.ends && From(s, to, msg, c) && s'.relay.inbox == s.relay.inbox[to := s.relay.inbox[to] + [msg]]
    ensures ArrivesFromSender(s', d)
  {
    forall m | m in s'.relay.inbox[d] ensures exists x :: From(s', d, m, x) {
      if m in s.relay.inbox[d] {
        var x :| From(s, d, m, x);
        FromGrows(s, s', d, m, x);
      } else {
        FromGrows(s, s', d, m, c);
      }
    }
  }

  lemma WrittenClient(s: System, c: Conn, s': System, d: Conn)
    requires Moves(s, Write(c, true), s') && c in s.ends && d in s.ends && Shape(s)
    requires EndOk(s, c) && ClientOk(s, d) && HandlerTracks(s, d)
    requires var to, msg := s.relay.handlers[c].pc.to, s.relay.handlers[c].pc.msg;
      to in s.ends && From(s, to, msg, c) && s'.relay.inbox == s.relay.inbox[to := s.relay.inbox[to] + [msg]]
    ensures ClientOk(s', d)
  {
    if d != s.relay.handlers[c].pc.to {
      ClientOkGrows(s, s', d);
    } else if s.ends[d].ClientEnd? {
      if s.relay.inbox[d] == [] {
        FirstIsOffer(s, c, d);
      }
      if s.ends[d].met {
        var x :| ServedBy(s, d, x) && Name(s, x) == s.ends[d].target;
        ServedByGrows(s, s', d, x);
      }
    }
  }

  lemma MoverTracks(s: System, l: Label, s': System)
    requires Inv(s) && Moves(s, l, s') && !l.Shutdown? && l.c in s.ends && (l.Read? ==> NextSaid(s, l.c, l.msg))
    ensures HandlerTracks(s', l.c) && OffersArrive(s', l.c)
  {
    assert EndOk(s, l.c);
    match l
    case Read(c, msg) =>
      ReadTracks(s, c, msg, s');
      ReadArrives(s, c, msg, s');
    case Admit(c) => AdmitTracks(s, c, s');
    case LookUp(c) =>
      LookUpTracks(s, c, s');
      LookUpArrives(s, c, s');
    case AskRole(c) =>
      AskRoleTracks(s, c, s');
      AskRoleArrives(s, c, s');
    case Write(c, ok) => WriteTracks(s, c, ok, s');
    case ReadError(c) => FinishTracks(s, l, s');
    case CleanUp(c) => FinishTracks(s, l, s');
  }

  lemma FinishTracks(s: System, l: Label, s': System)
    requires Moves(s, l, s') && (l.ReadError? || l.CleanUp?) && l.c in s.ends && HandlerTracks(s, l.c)
    ensures HandlerTracks(s', l.c) && OffersArrive(s', l.c)
  {
    assert Finished(s'.relay.handlers[l.c]);
  }

  lemma EndsMonotone(s: System, l: Label, s': System)
    requires Moves(s, l, s')
    ensures l.Shutdown? || l.c in s.ends
    ensures !(l.Write? && l.ok) ==> s'.relay.inbox == s.relay.inbox
    ensures forall x :: x in s.ends && (l.Shutdown? || l.c != x) ==> s'.relay.handlers[x] == s.relay.handlers[x]
  {
    OnlyMoverChanges(s.relay, l, s'.relay);
  }

  lemma OnlyMoverChanges(s: State, l: Label, s': State)
    requires Step(s, l, s') && !l.Accept?
    ensures l.Shutdown? || l.c in s.handlers
    ensures !(l.Write? && l.ok) ==> s'.inbox == s.inbox
    ensures forall x :: x in s.handlers && (l.Shutdown? || l.c != x) ==>
        x in s'.handlers && s'.handlers[x] == s.handlers[x]
  {
  }

  lemma RelayEndOk(s: System, l: Label, s': System, d: Conn)
    requires Inv(s) && Moves(s, l, s') && (l.Read? ==> NextSaid(s, l.c, l.msg)) && d in s.ends
    ensures EndOk(s', d)
  {
    EndsMonotone(s, l, s');
    MoveInbox(s, l, s');
    assert EndOk(s, d);
    if l.Shutdown? || l.c != d {
      StillTracks(s, s', d);
      StillArrive(s, s', d);
    } else {
      MoverTracks(s, l, s');
    }
    ServerOkGrows(s, s', d);
    StillSays(s, s', d);
    if l.Write? && l.ok {
      assert EndOk(s, l.c);
      WrittenIsFrom(s, l.c, s');
      WrittenArrives(s, l.c, s', d);
      WrittenClient(s, l.c, s', d);
    } else {
      ArrivesGrows(s, s', d);
      ClientOkGrows(s, s', d);
    }
  }

  lemma RelayKeeps(s: System, l: Label, s': System)
    requires Inv(s) && Next(s, RelayMoves(l), s')
    ensures Inv(s')
  {
    MoveShape(s, l, s');
    FaultsCarry(s, s');
    StepKeepsOwnership(s.relay, l, s'.relay);
    forall d | d in s'.ends ensures EndOk(s', d) {
      RelayEndOk(s, l, s', d);
    }
  }
}
