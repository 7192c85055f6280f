/** The relay looks a target up in one critical section and its own role in another. It behaves
    like a router that takes the whole decision at the moment of the look-up. */
module RelayRefinement {
  import opened PeerRegistry
  import opened Relay

  /** The atomic decision about a parsed message, from one view of the registry. */
  function Route(r: Registry, h: Handler): Pc
    requires h.pc.Parsed?
  {
    var id := Target(h, h.pc.msg);
    if id !in r.peers then Reading
    else if RoleIn(r, h.name) == RoleClient && r.peers[id].role == RoleClient then Reading
    else Sending(h.pc.msg.(id := h.name), r.peers[id].conn)
  }

  /** The atomic router never asks for a role later: its look-up decides. */
  ghost predicate AtomicStep(a: State, l: Label, a': State) {
    && !l.AskRole? && Enabled(a, l)
    && a' == if l.LookUp? then At(a, l.c, Route(a.registry, a.handlers[l.c])) else Apply(a, l)
  }

  /** A handler between look-up and role question has, for the atomic router, already decided. */
  function Decided(h: Handler): Handler {
    if !h.pc.Found? then h
    else if h.role == RoleClient && h.pc.target.role == RoleClient then h.(pc := Reading)
    else h.(pc := Sending(h.pc.msg.(id := h.name), h.pc.target.conn))
  }

  function Abstract(s: State): State {
    s.(handlers := map c | c in s.handlers :: Decided(s.handlers[c]))
  }

  lemma LookUpIsAtomic(s: State, c: Conn, s': State)
    requires Ownership(s) && Step(s, LookUp(c), s')
    ensures AtomicStep(Abstract(s), LookUp(c), Abstract(s'))
  {
    assert HandlerOk(s, c);
    var a, a' := Abstract(s), Abstract(s');
    var h := s.handlers[c];
    assert a.handlers[c] == h;
    assert Decided(s'.handlers[c]).pc == Route(s.registry, h);
    assert a'.handlers == a.handlers[c := h.(pc := Route(s.registry, h))];
  }

  lemma AskRoleIsSilent(s: State, c: Conn, s': State)
    requires Ownership(s) && Step(s, AskRole(c), s')
    ensures Abstract(s') == Abstract(s)
  {
    AskRoleSeesOwnRole(s, c, s');
    assert Decided(s'.handlers[c]) == Decided(s.handlers[c]);
    assert Abstract(s').handlers == Abstract(s).handlers;
  }

  lemma OthersAreTheSame(s: State, l: Label, s': State)
    requires Step(s, l, s') && !l.AskRole? && !l.LookUp?
    ensures AtomicStep(Abstract(s), l, Abstract(s'))
  {
    var a, a' := Abstract(s), Abstract(s');
    assert Enabled(a, l);
    if l.Shutdown? {
      assert a'.handlers == a.handlers;
    } else {
      assert !s'.handlers[l.c].pc.Found?;
      assert a'.handlers == a.handlers[l.c := s'.handlers[l.c]];
      assert l.c in s.handlers ==> a.handlers[l.c] == s.handlers[l.c];
    }
  }

  /** Every interleaved run of the relay is, step by step, a run of the atomic router: the
      question about the sender's role is silent and everything else is the same step. Both
      agree on the registry, on what was written to each connection and on what was forwarded. */
  lemma RelayRefinesAtomicRouter(ss: seq<State>, ls: seq<Label>, i: nat)
    requires IsRun(ss, ls) && i < |ls|
    ensures if ls[i].AskRole? then Abstract(ss[i + 1]) == Abstract(ss[i])
            else AtomicStep(Abstract(ss[i]), ls[i], Abstract(ss[i + 1]))
    ensures ss[0] == Abstract(ss[0])
    ensures Abstract(ss[i]).registry == ss[i].registry && Abstract(ss[i]).inbox == ss[i].inbox
    ensures forall c :: c in ss[i].handlers ==> Abstract(ss[i]).handlers[c].sent == ss[i].handlers[c].sent
  {
    RunStep(ss, ls, i);
    match ls[i]
    case LookUp(c) => LookUpIsAtomic(ss[i], c, ss[i + 1]);
    case AskRole(c) => AskRoleIsSilent(ss[i], c, ss[i + 1]);
    case _ => OthersAreTheSame(ss[i], ls[i], ss[i + 1]);
  }
}
