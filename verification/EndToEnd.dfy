/** Clients, servers and the relay together. Endpoints push messages into their sockets, the
    relay's handlers read and forward them, endpoints handle what arrives, all interleaved in any
    way. Every endpoint has a fresh id and connects once; clients may disconnect at any time;
    servers are never restarted. */
module EndToEnd {
  import opened Wrappers
  import opened PeerRegistry
  import opened Relay
  import opened Endpoints

  /** `greeted`: has sent its registration. `met`: has had a connection at some time. `left`: has
      called `disconnect`. `offered`: whom the library has sent an offer for. */
  datatype Endpoint =
    | ClientEnd(greeted: bool, target: string, joined: bool, connection: Option<Connection>, answered: bool,
                met: bool, left: bool)
    | ServerEnd(greeted: bool, server: ServerState, offered: set<string>)

  /** `outbox` is all an endpoint has sent so far; the relay hears a prefix of it. `handled`
      counts the delivered messages an endpoint has dealt with. `faults` are the endpoints that
      have been in a branch that is meant to be unreachable. */
  datatype System = System(relay: State, ends: map<Conn, Endpoint>, outbox: map<Conn, seq<Message>>,
                           handled: map<Conn, nat>, faults: set<Conn>)

  datatype Action =
    | OpenClient(c: Conn, name: string, target: string)
    | OpenServer(c: Conn, name: string)
    | Greet(c: Conn)
    | SendJoin(c: Conn)
    | EmitOffer(c: Conn, peer: string, sdp: string)
    | EmitServerCandidate(c: Conn, peer: string, candidate: string, mid: string)
    | EmitAnswer(c: Conn, sdp: string)
    | EmitClientCandidate(c: Conn, candidate: string, mid: string)
    | RelayMoves(l: Label)
    | Deliver(c: Conn)
    | Store(c: Conn)
    | Disconnect(c: Conn)

  function Start(maxConns: int): System {
    System(Initial(maxConns), map[], map[], map[], {})
  }

  function Name(s: System, c: Conn): string
    requires c in s.relay.handlers
  {
    s.relay.handlers[c].name
  }

  ghost predicate Fresh(s: System, c: Conn, name: string) {
    && Enabled(s.relay, Accept(c, name))
    && c !in s.ends
    && forall d :: d in s.relay.handlers ==> Name(s, d) != name
  }

  ghost predicate IsClient(s: System, c: Conn) {
    c in s.ends && c in s.outbox && s.ends[c].ClientEnd?
  }

  ghost predicate IsServer(s: System, c: Conn) {
    c in s.ends && c in s.outbox && s.ends[c].ServerEnd?
  }

  /** `msg` is the next message in the socket from endpoint `c` to the relay. */
  ghost predicate NextSaid(s: System, c: Conn, msg: Message) {
    && c in s.outbox && c in s.relay.handlers
    && |s.relay.handlers[c].heard| < |s.outbox[c]|
    && msg == s.outbox[c][|s.relay.handlers[c].heard|]
  }

  /** The WebRTC contract: creating the data channels yields one offer and then candidates,
      applying a remote offer yields one answer and then candidates. */
  ghost predicate Can(s: System, a: Action) {
    match a
    case OpenClient(c, name, target) => Fresh(s, c, name) && target != ""
    case OpenServer(c, name) => Fresh(s, c, name)
    case Greet(c) => c in s.ends && c in s.outbox && c in s.relay.handlers && !s.ends[c].greeted
    case SendJoin(c) => IsClient(s, c) && s.ends[c].greeted && !s.ends[c].joined
    case EmitOffer(c, peer, sdp) => IsServer(s, c) && peer in Owned(s.ends[c].server) && peer !in s.ends[c].offered
    case EmitServerCandidate(c, peer, candidate, mid) => IsServer(s, c) && peer in s.ends[c].offered
    case EmitAnswer(c, sdp) =>
      IsClient(s, c) && s.ends[c].connection.Some? && !s.ends[c].answered
      && exists m :: m in s.ends[c].connection.value.applied && m.kind == Offer
    case EmitClientCandidate(c, candidate, mid) =>
      IsClient(s, c) && s.ends[c].connection.Some? && s.ends[c].answered
    case RelayMoves(l) =>
      && Enabled(s.relay, l) && !l.Accept?
      && (l.Read? ==> NextSaid(s, l.c, l.msg))
    case Deliver(c) =>
      && c in s.ends && c in s.handled && c in s.relay.inbox && s.handled[c] < |s.relay.inbox[c]|
      && (s.ends[c].ServerEnd? ==> s.ends[c].server.creating.None?)
    case Store(c) => c in s.ends && s.ends[c].ServerEnd? && s.ends[c].server.creating.Some?
    case Disconnect(c) => IsClient(s, c)
  }

  function NewClient(target: string): Endpoint {
    ClientEnd(false, target, false, None, false, false, false)
  }

  function NewServer(): Endpoint {
    ServerEnd(false, ServerState(map[], None), {})
  }

  function Opened(s: System, c: Conn, name: string, e: Endpoint): System
    requires Enabled(s.relay, Accept(c, name))
  {
    System(Apply(s.relay, Accept(c, name)), s.ends[c := e], s.outbox[c := []], s.handled[c := 0], s.faults)
  }

  function Sent(s: System, c: Conn, e: Endpoint, m: Message): System
    requires c in s.outbox
  {
    s.(ends := s.ends[c := e], outbox := s.outbox[c := s.outbox[c] + [m]])
  }

  function RoleOf(e: Endpoint): Role {
    if e.ClientEnd? then RoleClient else RoleServer
  }

  /** An endpoint handles the next message that the relay has written to its socket. */
  function Delivered(s: System, c: Conn): System
    requires c in s.ends && c in s.handled && c in s.relay.inbox && s.handled[c] < |s.relay.inbox[c]|
  {
    var m := s.relay.inbox[c][s.handled[c]];
    var e := s.ends[c];
    match e
    case ClientEnd(_, _, _, connection, _, _, _) =>
      var (after, outcome) := ClientHandle(connection, m);
      var e' := e.(connection := after, answered := e.answered && connection.Some?, met := e.met || after.Some?);
      s.(ends := s.ends[c := e'], handled := s.handled[c := s.handled[c] + 1],
         faults := if outcome == NoConnection then s.faults + {c} else s.faults)
    case ServerEnd(_, server, _) =>
      var (after, outcome) := ServerTake(server, m);
      s.(ends := s.ends[c := e.(server := after)], handled := s.handled[c := s.handled[c] + 1],
         faults := if outcome == NoConnection then s.faults + {c} else s.faults)
  }

  /** The server stores a connection; finding an entry already there is a fault. */
  function Stored(s: System, c: Conn): System
    requires c in s.ends && s.ends[c].ServerEnd? && s.ends[c].server.creating.Some?
  {
    var e := s.ends[c];
    s.(ends := s.ends[c := e.(server := ServerStore(e.server))],
       faults := if e.server.creating.value.id in e.server.clients then s.faults + {c} else s.faults)
  }

  /** The client's `disconnect`: the connection is dropped, the signalling socket stays. */
  function Dropped(s: System, c: Conn): System
    requires c in s.ends && s.ends[c].ClientEnd?
  {
    s.(ends := s.ends[c := s.ends[c].(connection := None, left := true)])
  }

  ghost function Do(s: System, a: Action): System
    requires Can(s, a)
  {
    match a
    case OpenClient(c, name, target) => Opened(s, c, name, NewClient(target))
    case OpenServer(c, name) => Opened(s, c, name, NewServer())
    case Greet(c) =>
      var e := s.ends[c];
      Sent(s, c, e.(greeted := true), RegisterMessage(Name(s, c), RoleOf(e)))
    case SendJoin(c) =>
      var e := s.ends[c];
      Sent(s, c, e.(joined := true), JoinMessage(e.target))
    case EmitOffer(c, peer, sdp) =>
      var e := s.ends[c];
      Sent(s, c, e.(offered := e.offered + {peer}), Message(peer, Offer, NoRole, sdp, "", ""))
    case EmitServerCandidate(c, peer, candidate, mid) =>
      Sent(s, c, s.ends[c], Message(peer, Candidate, NoRole, "", candidate, mid))
    case EmitAnswer(c, sdp) =>
      var e := s.ends[c];
      Sent(s, c, e.(answered := true), Message(e.connection.value.peer, Answer, NoRole, sdp, "", ""))
    case EmitClientCandidate(c, candidate, mid) =>
      var e := s.ends[c];
      Sent(s, c, e, Message(e.connection.value.peer, Candidate, NoRole, "", candidate, mid))
    case RelayMoves(l) => s.(relay := Apply(s.relay, l))
    case Deliver(c) => Delivered(s, c)
    case Store(c) => Stored(s, c)
    case Disconnect(c) => Dropped(s, c)
  }

  ghost predicate Next(s: System, a: Action, s': System) {
    Can(s, a) && s' == Do(s, a)
  }

  ghost predicate IsSystemRun(ss: seq<System>, acts: seq<Action>) {
    && |ss| == |acts| + 1
    && (exists maxConns :: ss[0] == Start(maxConns))
    && forall i :: 0 <= i < |acts| ==> Next(ss[i], acts[i], ss[i + 1])
  }

  // ---------- the invariant ----------

  ghost predicate Keyed(s: System) {
    s.relay.handlers.Keys == s.ends.Keys == s.outbox.Keys == s.handled.Keys == s.relay.inbox.Keys
  }

  ghost predicate UniqueNames(s: System) {
    forall c, d :: c in s.relay.handlers && d in s.relay.handlers && Name(s, c) == Name(s, d) ==> c == d
  }

  /** Ids are unique, an ended handler's connection is closed, and no endpoint runs ahead. */
  ghost predicate Shape(s: System)
    requires Keyed(s)
  {
    && UniqueNames(s)
    && (forall c :: c in s.relay.handlers && s.relay.handlers[c].pc.Ended? ==> c in s.relay.closed)
    && (forall c :: c in s.handled ==> s.handled[c] <= |s.relay.inbox[c]|)
  }

  /** The handler works on what its endpoint sent, in order, and knows whom it is for. */
  ghost predicate HandlerTracks(s: System, c: Conn)
    requires Keyed(s) && c in s.ends
  {
    var h := s.relay.handlers[c];
    && h.heard <= s.outbox[c]
    && (h.registered ==> h.role == RoleOf(s.ends[c]))
    && (Busy(h) ==> h.heard != [] && Carries(s, h, h.heard[|h.heard| - 1]))
  }

  /** The message in flight is the last one heard; past the look-up its target is settled. */
  ghost predicate Carries(s: System, h: Handler, last: Message)
    requires Busy(h)
  {
    match h.pc
    case Parsed(msg) => msg == last
    case Found(msg, target) =>
      msg == last && last.kind != Register && target.conn in s.relay.handlers && Name(s, target.conn) == last.id
    case Sending(msg, to) =>
      msg == last.(id := h.name) && last.kind != Register && to in s.relay.handlers && Name(s, to) == last.id
    case _ => true
  }

  /** What an endpoint may have sent. */
  ghost predicate SaidBy(e: Endpoint, name: string, m: Message) {
    && m.id != ""
    && match e
       case ClientEnd(_, target, _, _, _, met, _) =>
         || m == RegisterMessage(name, RoleClient)
         || (m.kind == Join && m.id == target)
         || (m.kind in {Answer, Candidate} && met && m.id == target)
       case ServerEnd(_, _, offered) =>
         || m == RegisterMessage(name, RoleServer)
         || (m.kind in {Offer, Candidate} && m.id in offered)
  }

  /** Each candidate for a peer comes after an offer to it. */
  ghost predicate OfferBefore(sent: seq<Message>, j: nat)
    requires j < |sent|
  {
    exists i :: 0 <= i < j && sent[i].kind == Offer && sent[i].id == sent[j].id
  }

  ghost predicate HasOffer(sent: seq<Message>, n: string) {
    exists m :: m in sent && m.kind == Offer && m.id == n
  }

  ghost predicate SaysInOrder(s: System, c: Conn)
    requires Keyed(s) && c in s.ends
  {
    && (forall m :: m in s.outbox[c] ==> SaidBy(s.ends[c], Name(s, c), m))
    && (s.ends[c].ServerEnd? ==>
          && (forall j :: 0 <= j < |s.outbox[c]| && s.outbox[c][j].kind == Candidate ==> OfferBefore(s.outbox[c], j))
          && (forall n :: n in s.ends[c].offered ==> HasOffer(s.outbox[c], n)))
  }

  /** `m` reached `c` from `d`, which had sent it addressed to `c`. */
  ghost predicate From(s: System, c: Conn, m: Message, d: Conn)
    requires Keyed(s) && c in s.ends
  {
    && d in s.ends && m.id == Name(s, d) && m.kind != Register && m.(id := Name(s, c)) in s.outbox[d]
    && s.relay.handlers[d].registered && s.relay.handlers[c].registered
    && !ClientToClient(s.relay.handlers[d], s.relay.handlers[c])
  }

  ghost predicate ArrivesFromSender(s: System, c: Conn)
    requires Keyed(s) && c in s.ends
  {
    forall m :: m in s.relay.inbox[c] ==> exists d :: From(s, c, m, d)
  }

  ghost predicate JoinAt(inbox: seq<Message>, k: nat, name: string) {
    k < |inbox| && inbox[k].kind == Join && inbox[k].id == name
  }

  /** The join of `name` was forwarded to server `c`, and `c` has handled it. */
  ghost predicate JoinHandled(s: System, c: Conn, name: string)
    requires Keyed(s) && c in s.ends
  {
    exists k :: 0 <= k < s.handled[c] && JoinAt(s.relay.inbox[c], k, name)
  }

  /** `d` is a registered client that asked for server `c`, and whose join `c` has handled. */
  ghost predicate Joiner(s: System, c: Conn, d: Conn)
    requires Keyed(s) && c in s.ends
  {
    && d in s.ends && s.ends[d].ClientEnd? && s.ends[d].target == Name(s, c)
    && s.relay.handlers[d].registered && JoinHandled(s, c, Name(s, d))
  }

  ghost predicate ServerOk(s: System, c: Conn)
    requires Keyed(s) && c in s.ends
  {
    s.ends[c].ServerEnd? ==>
      var server := s.ends[c].server;
      && s.ends[c].offered <= Owned(server)
      && (server.creating.Some? ==> server.creating.value.id !in server.clients)
      && (forall n :: n in Owned(server) ==> exists d :: Joiner(s, c, d) && Name(s, d) == n)
  }

  /** Server `d` has, or is creating, the connection for client `c`. */
  ghost predicate ServedBy(s: System, c: Conn, d: Conn)
    requires Keyed(s) && c in s.ends
  {
    d in s.ends && s.ends[d].ServerEnd? && Name(s, c) in Owned(s.ends[d].server)
  }

  /** The connection is the one to the target, and only `disconnect` takes it away. */
  ghost predicate ConnectionOk(e: Endpoint)
    requires e.ClientEnd?
  {
    && (e.met && !e.left ==> e.connection.Some?)
    && (e.connection.Some? ==>
          && e.met && e.connection.value.peer == e.target
          && forall m :: m in e.connection.value.applied ==> m.id == e.target)
  }

  ghost predicate ClientOk(s: System, c: Conn)
    requires Keyed(s) && c in s.ends
  {
    s.ends[c].ClientEnd? ==>
      var e := s.ends[c];
      && e.target != ""
      && (s.relay.inbox[c] != [] ==> s.relay.inbox[c][0].kind == Offer)
      && (s.handled[c] > 0 ==> e.met)
      && ConnectionOk(e)
      && (e.met ==> exists d :: ServedBy(s, c, d) && Name(s, d) == e.target)
  }

  ghost predicate Finished(h: Handler) {
    h.pc.Ending? || h.pc.Ended?
  }

  /** An offer the relay is done with has reached its client, unless an end is gone. */
  ghost predicate OffersArrive(s: System, c: Conn)
    requires Keyed(s) && c in s.ends
  {
    var h := s.relay.handlers[c];
    forall i, d | 0 <= i < |h.heard| && d in s.ends && OfferDone(h, i, Name(s, d)) ::
      Finished(h) || s.relay.handlers[d].pc.Ended? || s.relay.inbox[d] != []
  }

  ghost predicate OfferDone(h: Handler, i: nat, name: string)
    requires i < |h.heard|
  {
    h.heard[i].kind == Offer && h.heard[i].id == name && !(Busy(h) && i == |h.heard| - 1)
  }

  ghost predicate EndOk(s: System, c: Conn)
    requires Keyed(s) && c in s.ends
  {
    && HandlerTracks(s, c) && SaysInOrder(s, c) && ArrivesFromSender(s, c)
    && ServerOk(s, c) && ClientOk(s, c) && OffersArrive(s, c)
  }

  /** Nobody faults but clients that have disconnected. */
  ghost predicate FaultsExplained(s: System) {
    forall c :: c in s.faults ==> c in s.ends && s.ends[c].ClientEnd? && s.ends[c].left
  }

  ghost predicate Inv(s: System) {
    && Keyed(s) && Shape(s) && Ownership(s.relay) && FaultsExplained(s)
    && forall c {:trigger EndOk(s, c)} :: c in s.ends ==> EndOk(s, c)
  }

  // ---------- what only grows ----------

  ghost predicate EndGrows(e: Endpoint, e': Endpoint) {
    match e
    case ClientEnd(_, target, _, _, _, met, left) =>
      e'.ClientEnd? && e'.target == target && (met ==> e'.met) && (left ==> e'.left)
    case ServerEnd(_, server, offered) =>
      e'.ServerEnd? && Owned(server) <= Owned(e'.server) && offered <= e'.offered
  }

  ghost predicate Grows(s: System, s': System)
    requires Keyed(s) && Keyed(s')
  {
    && Extends(s.relay, s'.relay)
    && forall c :: c in s.ends ==>
      && c in s'.ends && EndGrows(s.ends[c], s'.ends[c])
      && s.outbox[c] <= s'.outbox[c] && s.relay.inbox[c] <= s'.relay.inbox[c] && s.handled[c] <= s'.handled[c]
  }

  lemma FaultsCarry(s: System, s': System)
    requires Keyed(s) && Keyed(s') && Grows(s, s') && FaultsExplained(s) && s'.faults == s.faults
    ensures FaultsExplained(s')
  {
  }

  lemma FromGrows(s: System, s': System, c: Conn, m: Message, d: Conn)
    requires Keyed(s) && Keyed(s') && Grows(s, s') && c in s.ends && From(s, c, m, d)
    ensures From(s', c, m, d)
  {
    var said := m.(id := Name(s, c));
    var k :| 0 <= k < |s.outbox[d]| && s.outbox[d][k] == said;
    assert s'.outbox[d][k] == said;
  }

  lemma JoinerGrows(s: System, s': System, c: Conn, d: Conn)
    requires Keyed(s) && Keyed(s') && Grows(s, s') && c in s.ends && Joiner(s, c, d)
    ensures Joiner(s', c, d) && Name(s', d) == Name(s, d)
  {
    var k :| 0 <= k < s.handled[c] && JoinAt(s.relay.inbox[c], k, Name(s, d));
    assert JoinAt(s'.relay.inbox[c], k, Name(s', d));
  }

  lemma ServedByGrows(s: System, s': System, c: Conn, d: Conn)
    requires Keyed(s) && Keyed(s') && Grows(s, s') && c in s.ends && ServedBy(s, c, d)
    ensures ServedBy(s', c, d) && Name(s', d) == Name(s, d) && Name(s', c) == Name(s, c)
  {
  }

  lemma SaidByGrows(e: Endpoint, e': Endpoint, name: string, m: Message)
    requires EndGrows(e, e') && SaidBy(e, name, m)
    ensures SaidBy(e', name, m)
  {
  }

  /** A server that does not move keeps its obligations while the rest of the system grows. */
  lemma ServerOkGrows(s: System, s': System, c: Conn)
    requires Keyed(s) && Keyed(s') && Grows(s, s') && c in s.ends && ServerOk(s, c)
    requires s'.ends[c] == s.ends[c]
    ensures ServerOk(s', c)
  {
    if s.ends[c].ServerEnd? {
      forall n | n in Owned(s.ends[c].server) ensures exists d :: Joiner(s', c, d) && Name(s', d) == n {
        var d :| Joiner(s, c, d) && Name(s, d) == n;
        JoinerGrows(s, s', c, d);
      }
    }
  }

  lemma ClientOkGrows(s: System, s': System, c: Conn)
    requires Keyed(s) && Keyed(s') && Grows(s, s') && c in s.ends && ClientOk(s, c)
    requires s'.ends[c] == s.ends[c] && s'.handled[c] == s.handled[c] && s'.relay.inbox[c] == s.relay.inbox[c]
    ensures ClientOk(s', c)
  {
    if s.ends[c].ClientEnd? && s.ends[c].met {
      var d :| ServedBy(s, c, d) && Name(s, d) == s.ends[c].target;
      ServedByGrows(s, s', c, d);
    }
  }

  lemma ArrivesGrows(s: System, s': System, c: Conn)
    requires Keyed(s) && Keyed(s') && Grows(s, s') && c in s.ends && ArrivesFromSender(s, c)
    requires s'.relay.inbox[c] == s.relay.inbox[c]
    ensures ArrivesFromSender(s', c)
  {
    forall m | m in s'.relay.inbox[c] ensures exists d :: From(s', c, m, d) {
      var d :| From(s, c, m, d);
      FromGrows(s, s', c, m, d);
    }
  }

  // ---------- endpoints sending ----------

  /** What the senders do: only `c`'s endpoint flags and outbox change, and it may say `m`. */
  ghost predicate MaySay(s: System, c: Conn, e: Endpoint, m: Message)
    requires Keyed(s)
  {
    && c in s.ends && EndGrows(s.ends[c], e) && SaidBy(e, Name(s, c), m)
    && (s.ends[c].ClientEnd? ==>
          e.connection == s.ends[c].connection && e.met == s.ends[c].met && e.left == s.ends[c].left)
    && (s.ends[c].ServerEnd? ==>
          && e.server == s.ends[c].server && e.offered <= Owned(e.server)
          && e.offered == s.ends[c].offered + (if m.kind == Offer then {m.id} else {})
          && (m.kind == Candidate ==> m.id in s.ends[c].offered))
  }

  lemma SentShape(s: System, c: Conn, e: Endpoint, m: Message)
    requires Keyed(s) && Shape(s) && MaySay(s, c, e, m)
    ensures Keyed(Sent(s, c, e, m)) && Shape(Sent(s, c, e, m)) && Grows(s, Sent(s, c, e, m))
  {
    var s' := Sent(s, c, e, m);
    SameRelayShape(s, s');
    assert Extends(s.relay, s'.relay);
  }

  lemma SameRelayShape(s: System, s': System)
    requires Keyed(s) && Shape(s) && Keyed(s') && s'.relay == s.relay
    requires forall c :: c in s'.handled ==> s'.handled[c] <= |s'.relay.inbox[c]|
    ensures Shape(s')
  {
    NamesStay(s, s');
  }

  lemma NamesStay(s: System, s': System)
    requires UniqueNames(s) && Extends(s.relay, s'.relay) && s'.relay.handlers.Keys == s.relay.handlers.Keys
    ensures UniqueNames(s')
  {
    forall x, y | x in s'.relay.handlers && y in s'.relay.handlers && Name(s', x) == Name(s', y) ensures x == y {
      assert Name(s, x) == Name(s, y);
    }
  }

  lemma OfferBeforeGrows(before: seq<Message>, m: Message, j: nat)
    requires j < |before| && OfferBefore(before, j)
    ensures OfferBefore(before + [m], j)
  {
    var i :| 0 <= i < j && before[i].kind == Offer && before[i].id == before[j].id;
    assert (before + [m])[i] == before[i];
  }

  lemma OfferBeforeNew(before: seq<Message>, m: Message, o: Message)
    requires o in before && o.kind == Offer && o.id == m.id
    ensures OfferBefore(before + [m], |before|)
  {
    var i :| 0 <= i < |before| && before[i] == o;
    assert (before + [m])[i] == o;
  }

  lemma SentOffers(s: System, c: Conn, e: Endpoint, m: Message)
    requires Keyed(s) && MaySay(s, c, e, m) && SaysInOrder(s, c) && e.ServerEnd?
    ensures var after := s.outbox[c] + [m];
      && (forall j :: 0 <= j < |after| && after[j].kind == Candidate ==> OfferBefore(after, j))
      && (forall n :: n in e.offered ==> HasOffer(after, n))
  {
    var before, after := s.outbox[c], s.outbox[c] + [m];
    forall j | 0 <= j < |after| && after[j].kind == Candidate ensures OfferBefore(after, j) {
      if j < |before| {
        OfferBeforeGrows(before, m, j);
      } else {
        assert HasOffer(before, m.id);
        var o :| o in before && o.kind == Offer && o.id == m.id;
        OfferBeforeNew(before, m, o);
      }
    }
    forall n | n in e.offered ensures HasOffer(after, n) {
      if n in s.ends[c].offered {
        assert HasOffer(before, n);
        var o :| o in before && o.kind == Offer && o.id == n;
        assert o in after;
      } else {
        assert m in after;
      }
    }
  }

  lemma SentSays(s: System, c: Conn, e: Endpoint, m: Message)
    requires Keyed(s) && MaySay(s, c, e, m) && SaysInOrder(s, c) && Keyed(Sent(s, c, e, m))
    ensures SaysInOrder(Sent(s, c, e, m), c)
  {
    if e.ServerEnd? {
      SentOffers(s, c, e, m);
    }
    forall x | x in s.outbox[c] ensures SaidBy(e, Name(s, c), x) {
      SaidByGrows(s.ends[c], e, Name(s, c), x);
    }
  }

  lemma SentMover(s: System, s': System, c: Conn, e: Endpoint, m: Message)
    requires Keyed(s) && MaySay(s, c, e, m) && s' == Sent(s, c, e, m) && Keyed(s') && Grows(s, s')
    requires ServerOk(s, c) && ClientOk(s, c)
    ensures ServerOk(s', c) && ClientOk(s', c)
  {
    if e.ServerEnd? {
      forall n | n in Owned(e.server) ensures exists d :: Joiner(s', c, d) && Name(s', d) == n {
        var d :| Joiner(s, c, d) && Name(s, d) == n;
        JoinerGrows(s, s', c, d);
      }
    } else if e.met {
      var d :| ServedBy(s, c, d) && Name(s, d) == e.target;
      ServedByGrows(s, s', c, d);
    }
  }

  lemma SentTracks(s: System, s': System, c: Conn, e: Endpoint, m: Message, d: Conn)
    requires Keyed(s) && MaySay(s, c, e, m) && s' == Sent(s, c, e, m) && Keyed(s') && d in s.ends
    requires HandlerTracks(s, d) && OffersArrive(s, d)
    ensures HandlerTracks(s', d) && OffersArrive(s', d)
  {
    var h := s.relay.handlers[d];
    forall i, x | 0 <= i < |h.heard| && x in s'.ends && OfferDone(h, i, Name(s', x))
      ensures Finished(h) || s'.relay.handlers[x].pc.Ended? || s'.relay.inbox[x] != []
    {
      assert OfferDone(h, i, Name(s, x));
    }
  }

  lemma SentKeeps(s: System, c: Conn, e: Endpoint, m: Message)
    requires Inv(s) && MaySay(s, c, e, m)
    ensures Inv(Sent(s, c, e, m))
  {
    var s' := Sent(s, c, e, m);
    SentShape(s, c, e, m);
    FaultsCarry(s, s');
    forall d | d in s'.ends ensures EndOk(s', d) {
      assert EndOk(s, d);
      SentTracks(s, s', c, e, m, d);
      ArrivesGrows(s, s', d);
      if d == c {
        SentSays(s, c, e, m);
        SentMover(s, s', c, e, m);
      } else {
        ServerOkGrows(s, s', d);
        ClientOkGrows(s, s', d);
      }
    }
  }
}
