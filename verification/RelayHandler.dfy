/** The handler loop as the program writes it, run against the `PeerManager` object without
    interference, and its agreement with the steps of the concurrent relay. */
module RelayHandler {
  import opened PeerRegistry
  import opened Relay
  import opened RelayRefinement

  /** One frame read from the websocket: undecodable, or a message together with whether the
      network lets the forwarding write through. */
  datatype Frame = Garbage | Text(msg: Message, writable: bool)

  /** Between two iterations, or after a failed write. */
  ghost predicate Settled(s: State, c: Conn, name: string) {
    Ownership(s) && c in s.handlers && s.handlers[c].name == name && s.handlers[c].pc in {Reading, Ending}
  }

  /** A message that may be forwarded, taken through look-up, role question and write. */
  ghost function Routed(s: State, c: Conn, writable: bool): (t: State)
    requires Ownership(s) && Enabled(s, LookUp(c))
    ensures Settled(t, c, s.handlers[c].name)
  {
    var s2 := Apply(s, LookUp(c));
    StepKeepsOwnership(s, LookUp(c), s2);
    if s2.handlers[c].pc == Reading then s2
    else
      var s3 := Apply(s2, AskRole(c));
      StepKeepsOwnership(s2, AskRole(c), s3);
      if s3.handlers[c].pc == Reading then s3 else Written(s3, c, writable)
  }

  /** The write, which fails when the network does not let it through or the target is closed. */
  ghost function Written(s: State, c: Conn, writable: bool): (t: State)
    requires Ownership(s) && c in s.handlers && s.handlers[c].pc.Sending?
    ensures Settled(t, c, s.handlers[c].name)
  {
    assert HandlerOk(s, c);
    var l := Write(c, writable && s.handlers[c].pc.to !in s.closed);
    StepKeepsOwnership(s, l, Apply(s, l));
    Apply(s, l)
  }

  /** What a loop iteration does with a frame, as consecutive steps of the relay. */
  ghost function Turn(s: State, c: Conn, f: Frame): (t: State)
    requires Ownership(s) && c in s.handlers && s.handlers[c].pc == Reading
    ensures Settled(t, c, s.handlers[c].name)
  {
    if f.Garbage? then s
    else
      var s1 := Apply(s, Read(c, f.msg));
      StepKeepsOwnership(s, Read(c, f.msg), s1);
      if s1.handlers[c].pc == Reading then s1
      else if f.msg.kind == Register then
        StepKeepsOwnership(s1, Admit(c), Apply(s1, Admit(c)));
        Apply(s1, Admit(c))
      else Routed(s1, c, f.writable)
  }

  /** Between a look-up and its outcome: nothing but `c`'s progress and its delivery changes. */
  ghost predicate Follows(s: State, t: State, c: Conn, writable: bool, r: Pc)
    requires c in s.handlers
  {
    && c in t.handlers && t.registry == s.registry && t.closed == s.closed
    && t.handlers[c].registered == s.handlers[c].registered
    && (r == Reading ==> t.handlers[c].pc == Reading && t.handlers[c].sent == s.handlers[c].sent)
    && (r.Sending? && writable && r.to !in s.closed ==>
          t.handlers[c].pc == Reading && t.handlers[c].sent == s.handlers[c].sent + [Delivery(r.to, r.msg)])
    && (r.Sending? && !(writable && r.to !in s.closed) ==>
          t.handlers[c].pc == Ending && t.handlers[c].sent == s.handlers[c].sent)
  }

  lemma WrittenFollows(s: State, c: Conn, writable: bool)
    requires Ownership(s) && c in s.handlers && s.handlers[c].pc.Sending?
    ensures Follows(s, Written(s, c, writable), c, writable, s.handlers[c].pc)
  {
  }

  lemma RoutedFollows(s: State, c: Conn, writable: bool)
    requires Ownership(s) && Enabled(s, LookUp(c)) && s.handlers[c].registered
    ensures Follows(s, Routed(s, c, writable), c, writable, Route(s.registry, s.handlers[c]))
  {
    LookUpThenAsk(s, c);
    var s2 := Apply(s, LookUp(c));
    if s2.handlers[c].pc != Reading {
      StepKeepsOwnership(s, LookUp(c), s2);
      var s3 := Apply(s2, AskRole(c));
      StepKeepsOwnership(s2, AskRole(c), s3);
      if s3.handlers[c].pc != Reading {
        WrittenFollows(s3, c, writable);
      }
    }
  }

  /** A turn that routes a message takes the atomic router's decision. */
  lemma TurnRoutes(s: State, c: Conn, f: Frame)
    requires Ownership(s) && c in s.handlers && s.handlers[c].pc == Reading
    requires f.Text? && f.msg.kind != Register && Triage(s.handlers[c], f.msg).Parsed?
    ensures Follows(s, Turn(s, c, f), c, f.writable, Route(s.registry, s.handlers[c].(pc := Parsed(f.msg))))
    ensures s.handlers[c].registered
  {
    var s1 := Apply(s, Read(c, f.msg));
    StepKeepsOwnership(s, Read(c, f.msg), s1);
    RoutedFollows(s1, c, f.writable);
  }

  /** Look-up and role question together, nothing else moving, compute the atomic decision. */
  lemma LookUpThenAsk(s: State, c: Conn)
    requires Ownership(s) && Enabled(s, LookUp(c)) && s.handlers[c].registered
    ensures var s2 := Apply(s, LookUp(c));
      var r := Route(s.registry, s.handlers[c]);
      if s2.handlers[c].pc == Reading then r == Reading && s2 == At(s, c, Reading)
      else Enabled(s2, AskRole(c)) && Apply(s2, AskRole(c)) == At(s, c, r)
           && (r.Sending? ==> r.to in s.inbox && r.to in s.handlers)
  {
    var s2 := Apply(s, LookUp(c));
    if s2.handlers[c].pc != Reading {
      assert Apply(s2, AskRole(c)).handlers == s.handlers[c := s.handlers[c].(pc := Route(s.registry, s.handlers[c]))];
    }
  }

  /** A turn that reads a registration, or reads something it ignores. */
  lemma TurnRegisters(s: State, c: Conn, f: Frame)
    requires Ownership(s) && c in s.handlers && s.handlers[c].pc == Reading
    ensures var h, t := s.handlers[c], Turn(s, c, f);
      && (f.Garbage? || Triage(h, f.msg) == Reading ==>
            t.registry == s.registry && t.closed == s.closed && t.handlers[c].pc == Reading
            && t.handlers[c].registered == h.registered && t.handlers[c].sent == h.sent)
      && (f.Text? && f.msg.kind == Register && Triage(h, f.msg).Parsed? ==>
            t.registry == Registered(s.registry, h.name, c, f.msg.role) && t.closed == s.closed
            && t.handlers[c].pc == Reading && t.handlers[c].sent == h.sent
            && t.handlers[c].registered == Admits(s.registry, h.name))
  {
  }

  /** The relay passes messages on from a registered sender to a registered target, unless both are
      clients. */
  predicate Passes(registered: bool, id: string, to: string, peers: map<string, PeerInfo>) {
    && registered && to in peers
    && (id in peers && peers[id].role == RoleClient ==> peers[to].role != RoleClient)
  }

  /** One iteration of the loop. `failed` is the return after a failed write. */
  method Iterate(pm: PeerManager, id: string, conn: Conn, wasRegistered: bool, f: Frame, ghost s: State)
    returns (registered: bool, forwarded: seq<Delivery>, failed: bool)
    requires Ownership(s) && conn in s.handlers && s.handlers[conn].pc == Reading
    requires s.handlers[conn].name == id && s.handlers[conn].registered == wasRegistered
    requires pm.Model() == s.registry && pm.closed == s.closed
    modifies pm
    ensures f.Garbage? || f.msg.kind == Unknown ==>
      registered == wasRegistered && forwarded == [] && !failed && pm.Model() == old(pm.Model())
    ensures f.Text? && f.msg.kind == Register ==>
      && registered == (wasRegistered || (f.msg.role != NoRole && id !in old(pm.peers)
                                          && (pm.maxConns <= 0 || |old(pm.peers)| < pm.maxConns)))
      && forwarded == [] && !failed
    ensures f.Text? && f.msg.kind in {Offer, Answer, Candidate, Join} ==>
      var to := if f.msg.id == "" then id else f.msg.id;
      && registered == wasRegistered && pm.Model() == old(pm.Model())
      && forwarded == (if Passes(wasRegistered, id, to, old(pm.peers)) && f.writable
                            && old(pm.peers)[to].conn !in old(pm.closed)
                       then [Delivery(old(pm.peers)[to].conn, f.msg.(id := id))] else [])
      && (failed <==> Passes(wasRegistered, id, to, old(pm.peers)) && forwarded == [])
    ensures var t := Turn(s, conn, f);
      && pm.Model() == t.registry && pm.closed == t.closed
      && registered == t.handlers[conn].registered
      && t.handlers[conn].sent == s.handlers[conn].sent + forwarded
      && (failed <==> t.handlers[conn].pc == Ending)
  {
    registered, forwarded, failed := wasRegistered, [], false;
    TurnRegisters(s, conn, f);
    if f.Text? && f.msg.kind != Register && Triage(s.handlers[conn], f.msg).Parsed? {
      TurnRoutes(s, conn, f);
    }
    if f.Garbage? || f.msg.kind == Unknown {
      return;
    }
    var msg := f.msg;
    if msg.kind == Register {
      if registered || (msg.role != RoleClient && msg.role != RoleServer) {
        return;
      }
      var ok := pm.Register(id, conn, msg.role);
      if ok {
        registered := true;
      }
      return;
    }
    if !registered {
      return;
    }
    var targetID := msg.id;
    if targetID == "" {
      targetID := id;
    }
    var targetPeer, ok := pm.Get(targetID);
    if !ok {
      return;
    }
    var senderRole := pm.GetRole(id);
    if senderRole == RoleClient && targetPeer.role == RoleClient {
      return;
    }
    msg := msg.(id := id);
    if f.writable && targetPeer.conn !in pm.closed {
      forwarded := [Delivery(targetPeer.conn, msg)];
    } else {
      failed := true;
    }
  }

  /** The relay after `conn` alone has handled the frames; a failed write stops it. */
  ghost function Alone(s: State, c: Conn, frames: seq<Frame>): (t: State)
    requires Ownership(s) && c in s.handlers && s.handlers[c].pc == Reading
    ensures Settled(t, c, s.handlers[c].name)
  {
    if frames == [] then s
    else
      var n := |frames| - 1;
      var before := Alone(s, c, frames[..n]);
      if before.handlers[c].pc == Reading then Turn(before, c, frames[n]) else before
  }

  lemma {:induction false} StaysFailed(s: State, c: Conn, frames: seq<Frame>, i: nat)
    requires Ownership(s) && c in s.handlers && s.handlers[c].pc == Reading
    requires i <= |frames| && Alone(s, c, frames[..i]).handlers[c].pc == Ending
    ensures Alone(s, c, frames) == Alone(s, c, frames[..i])
  {
    if i == |frames| {
      assert frames[..i] == frames;
    } else {
      var n := |frames| - 1;
      assert frames[..n][..i] == frames[..i];
      StaysFailed(s, c, frames[..n], i);
    }
  }

  /** The whole life of a connection: the loop over its frames, then the deferred cleanup. */
  method ServeConnection(pm: PeerManager, id: string, conn: Conn, frames: seq<Frame>, ghost s: State)
    returns (forwarded: seq<Delivery>)
    requires Ownership(s) && conn in s.handlers && s.handlers[conn] == Handler(id, Reading, false, NoRole, [], [])
    requires pm.Model() == s.registry && pm.closed == s.closed
    modifies pm
    ensures var t := Alone(s, conn, frames);
      var ended := Apply(At(t, conn, Ending), CleanUp(conn));
      && forwarded == t.handlers[conn].sent
      && pm.Model() == ended.registry && pm.closed == ended.closed
  {
    var registered, failed := false, false;
    forwarded := [];
    ghost var t := s;
    var i := 0;
    while i < |frames| && !failed
      invariant 0 <= i <= |frames|
      invariant t == Alone(s, conn, frames[..i])
      invariant pm.Model() == t.registry && pm.closed == t.closed
      invariant registered == t.handlers[conn].registered && forwarded == t.handlers[conn].sent
      invariant failed <==> t.handlers[conn].pc == Ending
    {
      assert frames[..i + 1][..i] == frames[..i];
      var more: seq<Delivery>;
      registered, more, failed := Iterate(pm, id, conn, registered, frames[i], t);
      forwarded := forwarded + more;
      t := Turn(t, conn, frames[i]);
      i := i + 1;
    }
    StaysFailedOrDone(s, conn, frames, i);
    assert HandlerOk(t, conn);
    if registered {
      var orphan := pm.Unregister(id);
    }
    pm.closed := pm.closed + {conn};
  }

  lemma StaysFailedOrDone(s: State, c: Conn, frames: seq<Frame>, i: nat)
    requires Ownership(s) && c in s.handlers && s.handlers[c].pc == Reading
    requires i <= |frames| && (i == |frames| || Alone(s, c, frames[..i]).handlers[c].pc == Ending)
    ensures Alone(s, c, frames) == Alone(s, c, frames[..i])
  {
    if i == |frames| {
      assert frames[..i] == frames;
    } else {
      StaysFailed(s, c, frames, i);
    }
  }
}
