/** The relay as a concurrent system: one handler per websocket, each a process whose steps are
    the reads, critical sections and writes of its loop, interleaved in any way. */
module Relay {
  import opened PeerRegistry

  datatype Kind = Offer | Answer | Candidate | Register | Join | Unknown

  datatype Message = Message(id: string, kind: Kind, role: Role, description: string, candidate: string, mid: string)

  datatype Delivery = Delivery(to: Conn, msg: Message)

  /** Where a handler is in its loop, with the locals that matter there. */
  datatype Pc =
    | Reading
    | Parsed(msg: Message)
    | Found(msg: Message, target: PeerInfo)
    | Sending(msg: Message, to: Conn)
    | Ending
    | Ended

  /** `role` is the role it registered with; `heard` and `sent` record what it has done. */
  datatype Handler = Handler(name: string, pc: Pc, registered: bool, role: Role,
                             heard: seq<Message>, sent: seq<Delivery>)

  /** `inbox` is what has been written to each connection; `arrivals` the registrations in order. */
  datatype State = State(registry: Registry, handlers: map<Conn, Handler>, closed: set<Conn>,
                         inbox: map<Conn, seq<Message>>, arrivals: seq<Conn>)

  datatype Label =
    | Accept(c: Conn, name: string)
    | Read(c: Conn, msg: Message)
    | ReadError(c: Conn)
    | Admit(c: Conn)
    | LookUp(c: Conn)
    | AskRole(c: Conn)
    | Write(c: Conn, ok: bool)
    | CleanUp(c: Conn)
    | Shutdown

  function Initial(maxConns: int): State {
    State(Registry(map[], [], maxConns), map[], {}, map[], [])
  }

  function Target(h: Handler, msg: Message): string {
    if msg.id == "" then h.name else msg.id
  }

  /** What a handler does with a message it has just read, before it takes any lock. */
  function Triage(h: Handler, msg: Message): Pc {
    if msg.kind == Unknown then Reading
    else if msg.kind == Register then
      if h.registered || msg.role == NoRole then Reading else Parsed(msg)
    else if !h.registered then Reading
    else Parsed(msg)
  }

  predicate Enabled(s: State, l: Label) {
    match l
    case Accept(c, name) => c !in s.handlers && name != ""
    case Read(c, msg) => c in s.handlers && s.handlers[c].pc == Reading
    case ReadError(c) => c in s.handlers && s.handlers[c].pc == Reading
    case Admit(c) => c in s.handlers && s.handlers[c].pc.Parsed? && s.handlers[c].pc.msg.kind == Register
    case LookUp(c) => c in s.handlers && s.handlers[c].pc.Parsed? && s.handlers[c].pc.msg.kind != Register
    case AskRole(c) => c in s.handlers && s.handlers[c].pc.Found?
    case Write(c, ok) =>
      c in s.handlers && s.handlers[c].pc.Sending? && s.handlers[c].pc.to in s.inbox
      && (ok ==> s.handlers[c].pc.to !in s.closed)
    case CleanUp(c) => c in s.handlers && s.handlers[c].pc == Ending
    case Shutdown => true
  }

  function At(s: State, c: Conn, pc: Pc): State
    requires c in s.handlers
  {
    s.(handlers := s.handlers[c := s.handlers[c].(pc := pc)])
  }

  function Apply(s: State, l: Label): State
    requires Enabled(s, l)
  {
    match l
    case Accept(c, name) =>
      s.(handlers := s.handlers[c := Handler(name, Reading, false, NoRole, [], [])], inbox := s.inbox[c := []])
    case Read(c, msg) =>
      var h := s.handlers[c];
      s.(handlers := s.handlers[c := h.(heard := h.heard + [msg], pc := Triage(h, msg))])
    case ReadError(c) => At(s, c, Ending)
    case Admit(c) =>
      var h := s.handlers[c];
      if Admits(s.registry, h.name) then
        s.(registry := Registered(s.registry, h.name, c, h.pc.msg.role),
           handlers := s.handlers[c := h.(pc := Reading, registered := true, role := h.pc.msg.role)],
           arrivals := s.arrivals + [c])
      else At(s, c, Reading)
    case LookUp(c) =>
      var h := s.handlers[c];
      var id := Target(h, h.pc.msg);
      if id in s.registry.peers then At(s, c, Found(h.pc.msg, s.registry.peers[id])) else At(s, c, Reading)
    case AskRole(c) =>
      var h := s.handlers[c];
      if RoleIn(s.registry, h.name) == RoleClient && h.pc.target.role == RoleClient then At(s, c, Reading)
      else At(s, c, Sending(h.pc.msg.(id := h.name), h.pc.target.conn))
    case Write(c, ok) =>
      var h := s.handlers[c];
      if !ok then At(s, c, Ending)
      else
        s.(handlers := s.handlers[c := h.(pc := Reading, sent := h.sent + [Delivery(h.pc.to, h.pc.msg)])],
           inbox := s.inbox[h.pc.to := s.inbox[h.pc.to] + [h.pc.msg]])
    case CleanUp(c) =>
      var h := s.handlers[c];
      var evicted := if h.registered && h.name in s.registry.peers then {s.registry.peers[h.name].conn} else {};
      At(s, c, Ended).(registry := if h.registered then Unregistered(s.registry, h.name) else s.registry,
                       closed := s.closed + evicted + {c})
    case Shutdown =>
      s.(closed := s.closed + set id | id in s.registry.peers :: s.registry.peers[id].conn)
  }

  ghost predicate Step(s: State, l: Label, s': State) {
    Enabled(s, l) && s' == Apply(s, l)
  }

  ghost predicate IsRun(ss: seq<State>, ls: seq<Label>) {
    && |ss| == |ls| + 1
    && (exists maxConns :: ss[0] == Initial(maxConns))
    && forall i :: 0 <= i < |ls| ==> Step(ss[i], ls[i], ss[i + 1])
  }

  // ---------- ownership ----------

  ghost predicate Live(h: Handler) {
    h.registered && !h.pc.Ended?
  }

  /** Both peers are registered as clients. */
  ghost predicate ClientToClient(sender: Handler, receiver: Handler) {
    sender.role == RoleClient && receiver.role == RoleClient
  }

  ghost predicate MaySend(s: State, h: Handler, to: Conn, msg: Message) {
    && h.registered && to in s.handlers && s.handlers[to].registered
    && !ClientToClient(h, s.handlers[to]) && msg.id == h.name
  }

  /** A looked-up entry names a handler that has registered, with the role it registered. */
  ghost predicate Snapshot(s: State, p: PeerInfo) {
    p.conn in s.handlers && s.handlers[p.conn].registered && s.handlers[p.conn].role == p.role
  }

  /** What every handler can rely on, whatever the others do. */
  ghost predicate HandlerOk(s: State, c: Conn)
    requires c in s.handlers
  {
    var h := s.handlers[c];
    && h.name != ""
    && (h.registered <==> h.role != NoRole)
    && (Live(h) ==> h.name in s.registry.peers && s.registry.peers[h.name] == PeerInfo(c, h.role))
    && (h.pc.Parsed? ==> if h.pc.msg.kind == Register then !h.registered && h.pc.msg.role != NoRole else h.registered)
    && (h.pc.Found? ==> h.registered && Snapshot(s, h.pc.target))
    && (h.pc.Sending? ==> MaySend(s, h, h.pc.to, h.pc.msg))
    && (forall d :: d in h.sent ==> MaySend(s, h, d.to, d.msg))
  }

  /** Each registered id is owned by the live handler of that id and connection. */
  ghost predicate EntriesOwned(s: State) {
    forall id :: id in s.registry.peers ==>
      var p := s.registry.peers[id];
      && p.conn in s.handlers && Live(s.handlers[p.conn])
      && s.handlers[p.conn].name == id && s.handlers[p.conn].role == p.role
  }

  ghost predicate Ownership(s: State) {
    && s.inbox.Keys == s.handlers.Keys
    && EntriesOwned(s)
    && (forall c {:trigger HandlerOk(s, c)} :: c in s.handlers ==> HandlerOk(s, c))
  }

  /** Handlers stay, with their names; a registered one stays registered in its role. */
  ghost predicate Extends(s: State, s': State) {
    forall c :: c in s.handlers ==>
      && c in s'.handlers && s'.handlers[c].name == s.handlers[c].name
      && (s.handlers[c].registered ==> s'.handlers[c].registered && s'.handlers[c].role == s.handlers[c].role)
  }

  lemma StepExtends(s: State, l: Label, s': State)
    requires Ownership(s) && Step(s, l, s')
    ensures Extends(s, s')
  {
    if l.Admit? {
      assert HandlerOk(s, l.c);
    } else {
      RegistrationStays(s, l, s');
    }
  }

  lemma RegistrationStays(s: State, l: Label, s': State)
    requires Step(s, l, s') && !l.Admit?
    ensures forall c :: c in s.handlers ==>
      && c in s'.handlers && s'.handlers[c].name == s.handlers[c].name
      && s'.handlers[c].registered == s.handlers[c].registered && s'.handlers[c].role == s.handlers[c].role
  {
  }

  /** A handler that does not move keeps what it relies on, if its own entry is left alone. */
  lemma OthersKeep(s: State, s': State, d: Conn)
    requires d in s.handlers && d in s'.handlers && s'.handlers[d] == s.handlers[d]
    requires HandlerOk(s, d) && Extends(s, s')
    requires Live(s.handlers[d]) ==> s.handlers[d].name in s'.registry.peers
    requires Live(s.handlers[d]) ==> s'.registry.peers[s.handlers[d].name] == s.registry.peers[s.handlers[d].name]
    ensures HandlerOk(s', d)
  {
    var h := s.handlers[d];
    forall x | x in h.sent ensures MaySend(s', h, x.to, x.msg) {
      assert MaySend(s, h, x.to, x.msg);
    }
  }

  lemma OtherEntries(s: State, l: Label, s': State, d: Conn)
    requires Ownership(s) && Step(s, l, s') && d in s.handlers && HandlerOk(s, d) && Live(s.handlers[d])
    requires l.Shutdown? || l.c != d
    ensures s.handlers[d].name in s'.registry.peers
    ensures s'.registry.peers[s.handlers[d].name] == s.registry.peers[s.handlers[d].name]
  {
    if l.CleanUp? {
      assert HandlerOk(s, l.c);
    }
  }

  lemma BystanderKeeps(s: State, l: Label, s': State, d: Conn)
    requires Ownership(s) && Step(s, l, s') && Extends(s, s') && d in s'.handlers
    requires l.Shutdown? || l.c != d
    ensures HandlerOk(s', d)
  {
    assert HandlerOk(s, d);
    if Live(s.handlers[d]) {
      OtherEntries(s, l, s', d);
    }
    OthersKeep(s, s', d);
  }

  /** The moving handler's own obligations, label by label. */
  lemma MoverKeeps(s: State, l: Label, s': State)
    requires Ownership(s) && Step(s, l, s') && Extends(s, s')
    requires l.Read? || l.ReadError? || l.Admit? || l.LookUp? || l.AskRole? || l.CleanUp?
    ensures HandlerOk(s', l.c)
  {
    if l.LookUp? {
      LookUpKeeps(s, l.c, s');
    } else if l.AskRole? {
      AskRoleKeeps(s, l.c, s');
    } else {
      assert HandlerOk(s, l.c);
      SentKeeps(s, s', s.handlers[l.c]);
    }
  }

  lemma LookUpKeeps(s: State, c: Conn, s': State)
    requires EntriesOwned(s) && c in s.handlers && HandlerOk(s, c) && Step(s, LookUp(c), s') && Extends(s, s')
    ensures HandlerOk(s', c)
  {
    var h := s.handlers[c];
    SentKeeps(s, s', h);
    var id := Target(h, h.pc.msg);
    if id in s.registry.peers {
      assert Snapshot(s', s.registry.peers[id]);
    }
  }

  lemma AskRoleKeeps(s: State, c: Conn, s': State)
    requires c in s.handlers && HandlerOk(s, c) && Step(s, AskRole(c), s') && Extends(s, s')
    ensures HandlerOk(s', c)
  {
    SentKeeps(s, s', s.handlers[c]);
  }

  lemma SentKeeps(s: State, s': State, h: Handler)
    requires Extends(s, s')
    requires forall d :: d in h.sent ==> MaySend(s, h, d.to, d.msg)
    ensures forall d :: d in h.sent ==> MaySend(s', h, d.to, d.msg)
  {
    forall d | d in h.sent ensures MaySend(s', h, d.to, d.msg) {
      assert MaySend(s, h, d.to, d.msg);
    }
  }

  lemma WriterKeeps(s: State, c: Conn, ok: bool, s': State)
    requires Ownership(s) && Step(s, Write(c, ok), s') && Extends(s, s')
    ensures HandlerOk(s', c)
  {
    var h := s.handlers[c];
    assert HandlerOk(s, c);
    SentKeeps(s, s', h);
    assert MaySend(s', h, h.pc.to, h.pc.msg);
  }

  lemma EntriesKeep(s: State, l: Label, s': State)
    requires Ownership(s) && Step(s, l, s')
    ensures EntriesOwned(s')
  {
    match l
    case Admit(c) => AdmitEntries(s, c, s');
    case CleanUp(c) => CleanUpEntries(s, c, s');
    case _ =>
      RegistrationStays(s, l, s');
      SameRoster(s, l, s');
  }

  lemma AdmitEntries(s: State, c: Conn, s': State)
    requires EntriesOwned(s) && Step(s, Admit(c), s')
    ensures EntriesOwned(s')
  {
    AdmitEffect(s, c, s');
  }

  lemma CleanUpEntries(s: State, c: Conn, s': State)
    requires EntriesOwned(s) && c in s.handlers && HandlerOk(s, c) && Step(s, CleanUp(c), s')
    ensures EntriesOwned(s')
  {
  }

  lemma StepKeepsOwnership(s: State, l: Label, s': State)
    requires Ownership(s) && Step(s, l, s')
    ensures Ownership(s')
  {
    StepExtends(s, l, s');
    EntriesKeep(s, l, s');
    forall d | d in s'.handlers ensures HandlerOk(s', d) {
      if l.Shutdown? || l.c != d {
        BystanderKeeps(s, l, s', d);
      } else {
        ActorKeeps(s, l, s');
      }
    }
  }

  lemma ActorKeeps(s: State, l: Label, s': State)
    requires Ownership(s) && Step(s, l, s') && Extends(s, s') && !l.Shutdown?
    ensures l.c in s'.handlers && HandlerOk(s', l.c)
  {
    if l.Write? {
      WriterKeeps(s, l.c, l.ok, s');
    } else if !l.Accept? {
      MoverKeeps(s, l, s');
    }
  }

  /** Ownership holds in every reachable state. */
  lemma {:induction false} OwnershipInRuns(ss: seq<State>, ls: seq<Label>, i: nat)
    requires IsRun(ss, ls) && i < |ss|
    ensures Ownership(ss[i])
    decreases i
  {
    if i > 0 {
      OwnershipInRuns(ss, ls, i - 1);
      StepKeepsOwnership(ss[i - 1], ls[i - 1], ss[i]);
    }
  }

  /** Each step of a run is taken from a state in which ownership holds. */
  lemma RunStep(ss: seq<State>, ls: seq<Label>, i: nat)
    requires IsRun(ss, ls) && i < |ls|
    ensures Ownership(ss[i]) && Step(ss[i], ls[i], ss[i + 1])
  {
    OwnershipInRuns(ss, ls, i);
  }

  /** A handler that asks for its own role finds the role it registered with. */
  lemma AskRoleSeesOwnRole(s: State, c: Conn, s': State)
    requires Ownership(s) && Step(s, AskRole(c), s')
    ensures RoleIn(s.registry, s.handlers[c].name) == s.handlers[c].role != NoRole
  {
    assert HandlerOk(s, c);
  }

  /** The deferred cleanup closes no connection and removes no entry but its handler's own, and
      always finds that entry when the handler had registered, even when ids are shared. */
  lemma CleanUpEvictsOnlyItself(s: State, c: Conn, s': State)
    requires Ownership(s) && Step(s, CleanUp(c), s')
    ensures var h := s.handlers[c];
      && (h.registered ==> h.name in s.registry.peers && s.registry.peers[h.name] == PeerInfo(c, h.role))
      && s'.registry.peers == s.registry.peers - (if h.registered then {h.name} else {})
      && s'.closed == s.closed + {c}
    ensures forall id :: id in s.registry.peers && s.registry.peers[id].conn != c ==> id in s'.registry.peers
  {
    assert HandlerOk(s, c);
  }

  /** Several sockets may use one id, but at most one of them is registered and not yet ended. */
  lemma OneOwnerPerId(s: State, c: Conn, d: Conn)
    requires Ownership(s) && c in s.handlers && d in s.handlers
    requires Live(s.handlers[c]) && Live(s.handlers[d]) && s.handlers[c].name == s.handlers[d].name
    ensures c == d
  {
    assert HandlerOk(s, c) && HandlerOk(s, d);
  }

  /** The three facts above, in every run. */
  lemma OwnRoleInRuns(ss: seq<State>, ls: seq<Label>, i: nat, c: Conn)
    requires IsRun(ss, ls) && i < |ls| && ls[i] == AskRole(c)
    ensures c in ss[i].handlers && RoleIn(ss[i].registry, ss[i].handlers[c].name) == ss[i].handlers[c].role != NoRole
  {
    RunStep(ss, ls, i);
    AskRoleSeesOwnRole(ss[i], c, ss[i + 1]);
  }

  lemma EvictsOnlyItselfInRuns(ss: seq<State>, ls: seq<Label>, i: nat, c: Conn)
    requires IsRun(ss, ls) && i < |ls| && ls[i] == CleanUp(c)
    ensures c in ss[i].handlers
    ensures var h, r := ss[i].handlers[c], ss[i].registry;
      && (h.registered ==> h.name in r.peers && r.peers[h.name] == PeerInfo(c, h.role))
      && ss[i + 1].registry.peers == r.peers - (if h.registered then {h.name} else {})
      && ss[i + 1].closed == ss[i].closed + {c}
      && forall id :: id in r.peers && r.peers[id].conn != c ==> id in ss[i + 1].registry.peers
  {
    RunStep(ss, ls, i);
    CleanUpEvictsOnlyItself(ss[i], c, ss[i + 1]);
  }

  lemma OneOwnerInRuns(ss: seq<State>, ls: seq<Label>, i: nat, c: Conn, d: Conn)
    requires IsRun(ss, ls) && i < |ss| && c in ss[i].handlers && d in ss[i].handlers
    requires Live(ss[i].handlers[c]) && Live(ss[i].handlers[d]) && ss[i].handlers[c].name == ss[i].handlers[d].name
    ensures c == d
  {
    OwnershipInRuns(ss, ls, i);
    OneOwnerPerId(ss[i], c, d);
  }

  /** A shutdown closes the connection of every registered handler that has not ended, and changes
      nothing else. */
  lemma ShutdownInRuns(ss: seq<State>, ls: seq<Label>, i: nat)
    requires IsRun(ss, ls) && i < |ls| && ls[i] == Shutdown
    ensures ss[i + 1] == ss[i].(closed := ss[i].closed + Registrants(ss[i]))
  {
    RunStep(ss, ls, i);
    OwnersAreRegistrants(ss[i]);
  }

  // ---------- admission ----------

  /** The handlers that have registered and not ended. */
  ghost function Registrants(s: State): set<Conn> {
    set c | c in s.handlers && s.handlers[c].registered && s.handlers[c].pc != Ended
  }

  function Owners(peers: map<string, PeerInfo>): set<Conn> {
    set id | id in peers :: peers[id].conn
  }

  /** Different ids have different owners, so there are as many of the one as of the other. */
  lemma {:induction false} AsManyOwners(peers: map<string, PeerInfo>)
    requires forall a, b :: a in peers && b in peers && peers[a].conn == peers[b].conn ==> a == b
    ensures |Owners(peers)| == |peers|
    decreases |peers|
  {
    if peers != map[] {
      var id :| id in peers;
      AsManyOwners(peers - {id});
      OneOwnerLess(peers, id);
    } else {
      assert Owners(peers) == {};
    }
  }

  lemma OneOwnerLess(peers: map<string, PeerInfo>, id: string)
    requires id in peers && forall a :: a in peers && peers[a].conn == peers[id].conn ==> a == id
    ensures |Owners(peers)| == |Owners(peers - {id})| + 1 && |peers| == |peers - {id}| + 1
  {
    var rest, last := peers - {id}, peers[id].conn;
    assert rest.Keys == peers.Keys - {id};
    forall c ensures c in Owners(peers) <==> c in Owners(rest) || c == last {
      if c in Owners(peers) && c != last {
        var a :| a in peers && peers[a].conn == c;
        assert a in rest && rest[a].conn == c;
      }
      if c in Owners(rest) {
        var a :| a in rest && rest[a].conn == c;
        assert a in peers && peers[a].conn == c;
      }
    }
    assert last !in Owners(rest);
    assert Owners(peers) == Owners(rest) + {last};
  }

  /** There are as many registered ids as handlers that have registered and not ended. */
  lemma RegistrantsCount(s: State)
    requires Ownership(s)
    ensures |Registrants(s)| == |s.registry.peers|
  {
    OwnersAreRegistrants(s);
    AsManyOwners(s.registry.peers);
  }

  lemma OwnersAreRegistrants(s: State)
    requires Ownership(s)
    ensures Owners(s.registry.peers) == Registrants(s)
  {
    forall c | c in Registrants(s) ensures c in Owners(s.registry.peers) {
      assert HandlerOk(s, c);
    }
  }

  /** In every run, a registration is refused exactly when a handler that has registered and not
      ended already has the name, or as many of them as the limit allows are there. */
  lemma RefusedInRuns(ss: seq<State>, ls: seq<Label>, i: nat, c: Conn)
    requires IsRun(ss, ls) && i < |ls| && ls[i] == Admit(c)
    ensures c in ss[i].handlers && c in ss[i + 1].handlers
    ensures !ss[i + 1].handlers[c].registered <==>
      || (exists d :: d in Registrants(ss[i]) && ss[i].handlers[d].name == ss[i].handlers[c].name)
      || 0 < ss[i].registry.maxConns <= |Registrants(ss[i])|
  {
    RunStep(ss, ls, i);
    var s, h := ss[i], ss[i].handlers[c];
    RegistrantsCount(s);
    AdmitEffect(s, c, ss[i + 1]);
    assert HandlerOk(s, c);
    if h.name in s.registry.peers {
      assert s.registry.peers[h.name].conn in Registrants(s);
    }
    forall d | d in Registrants(s) && s.handlers[d].name == h.name ensures h.name in s.registry.peers {
      assert HandlerOk(s, d);
    }
  }

  /** Nothing was ever forwarded from a client to a client, and every forwarded message carries
      its sender's own id. */
  lemma NoClientToClient(ss: seq<State>, ls: seq<Label>, i: nat, c: Conn, d: Delivery)
    requires IsRun(ss, ls) && i < |ss| && c in ss[i].handlers && d in ss[i].handlers[c].sent
    ensures d.to in ss[i].handlers && !ClientToClient(ss[i].handlers[c], ss[i].handlers[d.to])
    ensures ss[i].handlers[c].role != NoRole && ss[i].handlers[d.to].role != NoRole
    ensures d.msg.id == ss[i].handlers[c].name
  {
    OwnershipInRuns(ss, ls, i);
    assert HandlerOk(ss[i], c);
    assert MaySend(ss[i], ss[i].handlers[c], d.to, d.msg);
    assert HandlerOk(ss[i], d.to);
  }

  // ---------- registry agreement and registration order ----------

  /** The names of the servers still live, in the order in which they registered. */
  function Roster(arrivals: seq<Conn>, handlers: map<Conn, Handler>): seq<string>
    requires forall c :: c in arrivals ==> c in handlers
  {
    if arrivals == [] then []
    else
      var h := handlers[arrivals[|arrivals| - 1]];
      Roster(arrivals[..|arrivals| - 1], handlers) +
        if h.role == RoleServer && !h.pc.Ended? then [h.name] else []
  }

  /** The arrivals are the handlers that have registered, each once. */
  ghost predicate ArrivalsOk(s: State) {
    && (forall c :: c in s.arrivals <==> c in s.handlers && s.handlers[c].registered)
    && (forall i, j :: 0 <= i < j < |s.arrivals| ==> s.arrivals[i] != s.arrivals[j])
  }

  ghost predicate InOrder(s: State) {
    && Agrees(s.registry)
    && ArrivalsOk(s)
    && s.registry.servers == Roster(s.arrivals, s.handlers)
  }

  ghost predicate SameOnRoster(h: Handler, h': Handler) {
    h'.name == h.name && h'.role == h.role && h'.pc.Ended? == h.pc.Ended?
  }

  lemma {:induction false} RosterFrame(arrivals: seq<Conn>, hs: map<Conn, Handler>, hs': map<Conn, Handler>)
    requires forall c :: c in arrivals ==> c in hs && c in hs' && SameOnRoster(hs[c], hs'[c])
    ensures Roster(arrivals, hs') == Roster(arrivals, hs)
  {
    if arrivals != [] {
      RosterFrame(arrivals[..|arrivals| - 1], hs, hs');
    }
  }

  lemma {:induction false} RosterNames(arrivals: seq<Conn>, hs: map<Conn, Handler>, id: string)
    requires forall c :: c in arrivals ==> c in hs
    requires forall c :: c in arrivals && hs[c].role == RoleServer && !hs[c].pc.Ended? ==> hs[c].name != id
    ensures id !in Roster(arrivals, hs)
  {
    if arrivals != [] {
      RosterNames(arrivals[..|arrivals| - 1], hs, id);
    }
  }

  lemma {:induction false} RemoveFirstAppend(ids: seq<string>, last: string, id: string)
    ensures RemoveFirst(ids + [last], id) ==
      if id in ids then RemoveFirst(ids, id) + [last] else if last == id then ids else ids + [last]
  {
    if ids != [] {
      assert (ids + [last])[1..] == ids[1..] + [last];
      RemoveFirstAppend(ids[1..], last, id);
      assert ids == [ids[0]] + ids[1..];
    }
  }

  /** When server `c` ends, its name leaves the roster and the others keep their order. */
  lemma {:induction false} RosterLeave(arrivals: seq<Conn>, hs: map<Conn, Handler>, c: Conn, ended: Handler)
    requires forall d :: d in arrivals ==> d in hs
    requires forall i, j :: 0 <= i < j < |arrivals| ==> arrivals[i] != arrivals[j]
    requires c in hs && hs[c].role == RoleServer && !hs[c].pc.Ended? && ended == hs[c].(pc := Ended)
    requires forall d :: d in arrivals && d != c && !hs[d].pc.Ended? ==> hs[d].name != hs[c].name
    ensures Roster(arrivals, hs[c := ended]) == RemoveFirst(Roster(arrivals, hs), hs[c].name)
  {
    if arrivals != [] {
      var n, last := |arrivals| - 1, arrivals[|arrivals| - 1];
      var before := Roster(arrivals[..n], hs);
      RosterLeave(arrivals[..n], hs, c, ended);
      assert last in arrivals;
      if last == c {
        assert c !in arrivals[..n];
        RosterNames(arrivals[..n], hs, hs[c].name);
        RemoveFirstAbsent(before, hs[c].name);
        RemoveFirstAppend(before, hs[c].name, hs[c].name);
      } else if hs[last].role == RoleServer && !hs[last].pc.Ended? {
        assert Roster(arrivals, hs) == before + [hs[last].name];
        assert Roster(arrivals, hs[c := ended]) == RemoveFirst(before, hs[c].name) + [hs[last].name];
        assert hs[last].name != hs[c].name;
        RemoveFirstAppend(before, hs[last].name, hs[c].name);
        if hs[c].name !in before {
          RemoveFirstAbsent(before, hs[c].name);
        }
      } else {
        assert Roster(arrivals, hs) == before;
      }
    }
  }

  lemma AdmitArrival(s: State, c: Conn, s': State)
    requires Ownership(s) && ArrivalsOk(s) && Step(s, Admit(c), s')
    ensures ArrivalsOk(s') && c !in s.arrivals
  {
    assert HandlerOk(s, c);
  }

  lemma ArrivalsKeep(s: State, l: Label, s': State)
    requires ArrivalsOk(s) && Step(s, l, s') && !l.Admit?
    ensures ArrivalsOk(s')
  {
    assert s'.arrivals == s.arrivals;
  }

  /** What an admission does to the registry, to the arrivals and to the handlers. */
  lemma AdmitEffect(s: State, c: Conn, s': State)
    requires Step(s, Admit(c), s')
    ensures var h := s.handlers[c];
      if Admits(s.registry, h.name) then
        && s'.registry == Registered(s.registry, h.name, c, h.pc.msg.role) && s'.arrivals == s.arrivals + [c]
        && s'.handlers == s.handlers[c := h.(pc := Reading, registered := true, role := h.pc.msg.role)]
      else
        s'.registry == s.registry && s'.arrivals == s.arrivals && s'.handlers == s.handlers[c := h.(pc := Reading)]
  {
  }

  /** Look-up and role question touch nothing but their handler's place in the loop. */
  lemma LookUpEffect(s: State, c: Conn, s': State)
    requires Step(s, LookUp(c), s')
    ensures var h := s.handlers[c];
      var id := Target(h, h.pc.msg);
      s' == At(s, c, if id in s.registry.peers then Found(h.pc.msg, s.registry.peers[id]) else Reading)
  {
  }

  lemma AskRoleEffect(s: State, c: Conn, s': State)
    requires Step(s, AskRole(c), s')
    ensures var h := s.handlers[c];
      s' == At(s, c, if RoleIn(s.registry, h.name) == RoleClient && h.pc.target.role == RoleClient then Reading
                     else Sending(h.pc.msg.(id := h.name), h.pc.target.conn))
  {
  }

  lemma RosterArrive(arrivals: seq<Conn>, hs: map<Conn, Handler>, c: Conn)
    requires (forall d :: d in arrivals ==> d in hs) && c in hs && !hs[c].pc.Ended?
    ensures Roster(arrivals + [c], hs) ==
            Roster(arrivals, hs) + if hs[c].role == RoleServer then [hs[c].name] else []
  {
    assert (arrivals + [c])[..|arrivals|] == arrivals;
  }

  /** When `c` is admitted, the roster grows as the server list does. */
  lemma AdmitRoster(r: Registry, arrivals: seq<Conn>, hs: map<Conn, Handler>, c: Conn, h: Handler)
    requires (forall d :: d in arrivals ==> d in hs) && c !in arrivals && !h.pc.Ended?
    requires r.servers == Roster(arrivals, hs) && Admits(r, h.name)
    ensures Registered(r, h.name, c, h.role).servers == Roster(arrivals + [c], hs[c := h])
  {
    RosterFrame(arrivals, hs, hs[c := h]);
    RosterArrive(arrivals, hs[c := h], c);
  }

  lemma RefusedRoster(arrivals: seq<Conn>, hs: map<Conn, Handler>, c: Conn, h: Handler)
    requires (forall d :: d in arrivals ==> d in hs) && c !in arrivals
    ensures Roster(arrivals, hs[c := h]) == Roster(arrivals, hs)
  {
    RosterFrame(arrivals, hs, hs[c := h]);
  }

  lemma AdmitInOrder(s: State, c: Conn, s': State)
    requires Ownership(s) && InOrder(s) && Step(s, Admit(c), s')
    ensures InOrder(s')
  {
    var h := s.handlers[c];
    AdmitArrival(s, c, s');
    AdmitEffect(s, c, s');
    if Admits(s.registry, h.name) {
      RegisterAgrees(s.registry, h.name, c, h.pc.msg.role);
      AdmitRoster(s.registry, s.arrivals, s.handlers, c, s'.handlers[c]);
    } else {
      RefusedRoster(s.arrivals, s.handlers, c, s'.handlers[c]);
    }
  }

  lemma CleanUpRoster(s: State, c: Conn, s': State)
    requires Ownership(s) && InOrder(s) && Step(s, CleanUp(c), s')
    ensures s'.registry.servers == Roster(s.arrivals, s'.handlers)
  {
    var h := s.handlers[c];
    assert HandlerOk(s, c);
    if h.role == RoleServer {
      forall d | d in s.arrivals && d != c && !s.handlers[d].pc.Ended? ensures s.handlers[d].name != h.name {
        assert HandlerOk(s, d);
      }
      RosterLeave(s.arrivals, s.handlers, c, h.(pc := Ended));
    } else {
      RosterUnchanged(s.arrivals, s.handlers, s'.handlers, c);
    }
  }

  lemma CleanUpInOrder(s: State, c: Conn, s': State)
    requires Ownership(s) && InOrder(s) && Step(s, CleanUp(c), s')
    ensures InOrder(s')
  {
    ArrivalsKeep(s, CleanUp(c), s');
    CleanUpRoster(s, c, s');
    if s.handlers[c].registered {
      UnregisterAgrees(s.registry, s.handlers[c].name);
    }
  }

  lemma OthersInOrder(s: State, l: Label, s': State)
    requires Ownership(s) && InOrder(s) && Step(s, l, s') && !l.Admit? && !l.CleanUp?
    ensures InOrder(s')
  {
    ArrivalsKeep(s, l, s');
    SameRoster(s, l, s');
    RosterFrame(s.arrivals, s.handlers, s'.handlers);
  }

  lemma SameRoster(s: State, l: Label, s': State)
    requires Step(s, l, s') && !l.Admit? && !l.CleanUp?
    ensures s'.registry == s.registry && s'.arrivals == s.arrivals
    ensures forall c :: c in s.handlers ==> c in s'.handlers && SameOnRoster(s.handlers[c], s'.handlers[c])
  {
  }

  lemma {:induction false} RosterUnchanged(arrivals: seq<Conn>, hs: map<Conn, Handler>, hs': map<Conn, Handler>,
                                           c: Conn)
    requires forall d :: d in arrivals ==> d in hs && d in hs' && (d != c ==> hs'[d] == hs[d])
    requires c in hs && c in hs' && hs[c].role != RoleServer && hs'[c].role != RoleServer
    ensures Roster(arrivals, hs') == Roster(arrivals, hs)
  {
    if arrivals != [] {
      RosterUnchanged(arrivals[..|arrivals| - 1], hs, hs', c);
    }
  }

  lemma StepInOrder(s: State, l: Label, s': State)
    requires Ownership(s) && InOrder(s) && Step(s, l, s')
    ensures InOrder(s')
  {
    match l
    case Admit(c) => AdmitInOrder(s, c, s');
    case CleanUp(c) => CleanUpInOrder(s, c, s');
    case _ => OthersInOrder(s, l, s');
  }

  /** In every reachable state the server list is duplicate-free, names exactly the registered
      servers, keeps their registration order, and the connection limit holds. */
  lemma {:induction false} RegistryInRuns(ss: seq<State>, ls: seq<Label>, i: nat)
    requires IsRun(ss, ls) && i < |ss|
    ensures InOrder(ss[i])
    decreases i
  {
    if i > 0 {
      RegistryInRuns(ss, ls, i - 1);
      OwnershipInRuns(ss, ls, i - 1);
      StepInOrder(ss[i - 1], ls[i - 1], ss[i]);
    }
  }

  // ---------- forwarding order ----------

  /** `xs` is obtained from `ys` by leaving elements out. */
  ghost predicate Subsequence<T>(xs: seq<T>, ys: seq<T>) {
    if xs == [] then true
    else if ys == [] then false
    else
      var m, n := |xs| - 1, |ys| - 1;
      (xs[m] == ys[n] && Subsequence(xs[..m], ys[..n])) || Subsequence(xs, ys[..n])
  }

  lemma SubsequenceExtends<T>(xs: seq<T>, ys: seq<T>, y: T)
    requires Subsequence(xs, ys)
    ensures Subsequence(xs, ys + [y]) && Subsequence(xs + [y], ys + [y])
  {
    assert (ys + [y])[..|ys|] == ys;
    assert (xs + [y])[..|xs|] == xs;
  }

  /** What a handler read, as it would forward it: with its own id. */
  function Rewritten(name: string, heard: seq<Message>): seq<Message> {
    seq(|heard|, i requires 0 <= i < |heard| => heard[i].(id := name))
  }

  function Messages(sent: seq<Delivery>): seq<Message> {
    seq(|sent|, i requires 0 <= i < |sent| => sent[i].msg)
  }

  /** The message a handler is still working on is the last one it read. */
  ghost predicate InFlight(h: Handler) {
    && Busy(h)
    && h.heard != [] && h.pc.msg.(id := h.name) == h.heard[|h.heard| - 1].(id := h.name)
  }

  ghost predicate ForwardsInOrder(h: Handler) {
    if Busy(h)
    then InFlight(h) && Subsequence(Messages(h.sent), Rewritten(h.name, h.heard[..|h.heard| - 1]))
         && (h.pc.Sending? ==> h.pc.msg.id == h.name)
    else Subsequence(Messages(h.sent), Rewritten(h.name, h.heard))
  }

  lemma RewrittenExtends(name: string, heard: seq<Message>, msg: Message)
    ensures Rewritten(name, heard + [msg]) == Rewritten(name, heard) + [msg.(id := name)]
  {
  }

  lemma MessagesExtend(sent: seq<Delivery>, d: Delivery)
    ensures Messages(sent + [d]) == Messages(sent) + [d.msg]
  {
  }

  ghost predicate Busy(h: Handler) {
    h.pc.Parsed? || h.pc.Found? || h.pc.Sending?
  }

  /** Finishing with the message in flight, by dropping it or by forwarding it. */
  lemma FinishForward(h: Handler)
    requires Busy(h) && ForwardsInOrder(h)
    ensures Subsequence(Messages(h.sent), Rewritten(h.name, h.heard))
    ensures forall to :: h.pc.Sending? ==>
      Subsequence(Messages(h.sent + [Delivery(to, h.pc.msg)]), Rewritten(h.name, h.heard))
  {
    var n := |h.heard| - 1;
    assert h.heard == h.heard[..n] + [h.heard[n]];
    RewrittenExtends(h.name, h.heard[..n], h.heard[n]);
    SubsequenceExtends(Messages(h.sent), Rewritten(h.name, h.heard[..n]), h.heard[n].(id := h.name));
    forall to | h.pc.Sending?
      ensures Subsequence(Messages(h.sent + [Delivery(to, h.pc.msg)]), Rewritten(h.name, h.heard))
    {
      MessagesExtend(h.sent, Delivery(to, h.pc.msg));
    }
  }

  lemma ReadForwardsInOrder(h: Handler, msg: Message)
    requires !Busy(h) && ForwardsInOrder(h)
    ensures ForwardsInOrder(h.(heard := h.heard + [msg], pc := Triage(h, msg)))
  {
    RewrittenExtends(h.name, h.heard, msg);
    SubsequenceExtends(Messages(h.sent), Rewritten(h.name, h.heard), msg.(id := h.name));
    assert (h.heard + [msg])[..|h.heard|] == h.heard;
  }

  lemma StepForwardsInOrder(s: State, l: Label, s': State, c: Conn)
    requires Step(s, l, s') && c in s'.handlers
    requires c in s.handlers ==> ForwardsInOrder(s.handlers[c])
    ensures ForwardsInOrder(s'.handlers[c])
  {
    if c in s.handlers && !l.Shutdown? && l.c == c {
      MoverForwardsInOrder(s, l, s');
    }
  }

  lemma MoverForwardsInOrder(s: State, l: Label, s': State)
    requires Step(s, l, s') && !l.Shutdown? && l.c in s.handlers && ForwardsInOrder(s.handlers[l.c])
    ensures l.c in s'.handlers && ForwardsInOrder(s'.handlers[l.c])
  {
    var h := s.handlers[l.c];
    if l.Read? {
      ReadForwardsInOrder(h, l.msg);
    } else if l.Write? {
      WriteForwardsInOrder(s, l.c, l.ok, s');
    } else if l.ReadError? || l.CleanUp? {
      assert !Busy(h);
    } else {
      DecisionForwardsInOrder(h, s'.handlers[l.c]);
    }
  }

  /** A critical section forwards nothing: it drops the message in flight or keeps it. */
  lemma DecisionForwardsInOrder(h: Handler, h': Handler)
    requires Busy(h) && ForwardsInOrder(h)
    requires h'.name == h.name && h'.heard == h.heard && h'.sent == h.sent
    requires Busy(h') ==> h'.pc.msg.(id := h.name) == h.pc.msg.(id := h.name)
    requires h'.pc.Sending? ==> h'.pc.msg.id == h.name
    ensures ForwardsInOrder(h')
  {
    FinishForward(h);
  }

  lemma WriteForwardsInOrder(s: State, c: Conn, ok: bool, s': State)
    requires Step(s, Write(c, ok), s') && ForwardsInOrder(s.handlers[c])
    ensures ForwardsInOrder(s'.handlers[c])
  {
    FinishForward(s.handlers[c]);
  }

  /** In every run, what a handler has forwarded is a subsequence, in order, of what it read,
      with the id field replaced by its own id. */
  lemma {:induction false} ForwardedIsSubsequence(ss: seq<State>, ls: seq<Label>, i: nat, c: Conn)
    requires IsRun(ss, ls) && i < |ss| && c in ss[i].handlers
    ensures ForwardsInOrder(ss[i].handlers[c])
    ensures Subsequence(Messages(ss[i].handlers[c].sent), Rewritten(ss[i].handlers[c].name, ss[i].handlers[c].heard))
    decreases i
  {
    if i > 0 {
      if c in ss[i - 1].handlers {
        ForwardedIsSubsequence(ss, ls, i - 1, c);
      }
      StepForwardsInOrder(ss[i - 1], ls[i - 1], ss[i], c);
      if Busy(ss[i].handlers[c]) {
        FinishForward(ss[i].handlers[c]);
      }
    }
  }
}
