/** The order of what arrives: from any one sender, an endpoint is handed an ordered subsequence of
    what that sender addressed to it, with the ids rewritten. */
module EndToEndOrder {
  import opened PeerRegistry
  import opened Relay
  import opened EndToEnd
  import opened EndToEndSafety
  import opened EndToEndGuarantees

  // ---------- subsequences ----------

  /** The messages that carry `name`: in an inbox those from it, in an outbox those to it. */
  function Carrying(ms: seq<Message>, name: string): seq<Message> {
    if ms == [] then []
    else
      var n := |ms| - 1;
      Carrying(ms[..n], name) + if ms[n].id == name then [ms[n]] else []
  }

  lemma CarryingOneMore(ms: seq<Message>, m: Message, name: string)
    ensures Carrying(ms + [m], name) == Carrying(ms, name) + if m.id == name then [m] else []
  {
    assert (ms + [m])[..|ms|] == ms;
  }

  lemma {:induction false} CarryingNone(ms: seq<Message>, name: string)
    requires forall m :: m in ms ==> m.id != name
    ensures Carrying(ms, name) == []
  {
    if ms != [] {
      CarryingNone(ms[..|ms| - 1], name);
    }
  }

  lemma {:induction false} CarryingAll(ms: seq<Message>, name: string)
    requires forall m :: m in ms ==> m.id == name
    ensures Carrying(ms, name) == ms
  {
    if ms != [] {
      CarryingAll(ms[..|ms| - 1], name);
      assert ms == ms[..|ms| - 1] + [ms[|ms| - 1]];
    }
  }

  /** What `sender` said to `receiver`, as the relay passes it on. */
  function PassedOn(said: seq<Message>, sender: string, receiver: string): seq<Message> {
    Rewritten(sender, Carrying(said, receiver))
  }

  lemma PassedOnOneMore(said: seq<Message>, m: Message, sender: string, receiver: string)
    ensures PassedOn(said + [m], sender, receiver)
         == PassedOn(said, sender, receiver) + if m.id == receiver then [m.(id := sender)] else []
  {
    CarryingOneMore(said, m, receiver);
    if m.id == receiver {
      RewrittenExtends(sender, Carrying(said, receiver), m);
    }
  }

  /** `got` is an ordered subsequence of what `sender` said to `receiver`. */
  ghost predicate InOrderFrom(got: seq<Message>, said: seq<Message>, sender: string, receiver: string) {
    Subsequence(Carrying(got, sender), PassedOn(said, sender, receiver))
  }

  lemma SaysOneMore(got: seq<Message>, said: seq<Message>, m: Message, sender: string, receiver: string)
    requires InOrderFrom(got, said, sender, receiver)
    ensures InOrderFrom(got, said + [m], sender, receiver)
    ensures m.id == receiver ==> InOrderFrom(got + [m.(id := sender)], said + [m], sender, receiver)
  {
    PassedOnOneMore(said, m, sender, receiver);
    SubsequenceExtends(Carrying(got, sender), PassedOn(said, sender, receiver), m.(id := sender));
    CarryingOneMore(got, m.(id := sender), sender);
    assert PassedOn(said, sender, receiver) + [] == PassedOn(said, sender, receiver);
  }

  lemma {:induction false} SaysMore(got: seq<Message>, said: seq<Message>, more: seq<Message>,
                                    sender: string, receiver: string)
    requires InOrderFrom(got, said, sender, receiver) && said <= more
    ensures InOrderFrom(got, more, sender, receiver)
    decreases |more|
  {
    if |said| < |more| {
      var n := |more| - 1;
      assert more == more[..n] + [more[n]];
      SaysMore(got, said, more[..n], sender, receiver);
      SaysOneMore(got, more[..n], more[n], sender, receiver);
    } else {
      assert said == more;
    }
  }

  lemma {:induction false} HearsLess(got: seq<Message>, said: seq<Message>, k: nat, sender: string, receiver: string)
    requires InOrderFrom(got, said, sender, receiver) && k <= |got|
    ensures InOrderFrom(got[..k], said, sender, receiver)
    decreases |got|
  {
    if k == |got| {
      assert got[..k] == got;
    } else {
      var n := |got| - 1;
      assert got == got[..n] + [got[n]];
      CarryingOneMore(got[..n], got[n], sender);
      DropLast(Carrying(got[..n], sender), Carrying(got, sender), PassedOn(said, sender, receiver));
      HearsLess(got[..n], said, k, sender, receiver);
      assert got[..n][..k] == got[..k];
    }
  }

  lemma {:induction false} DropLast(xs: seq<Message>, longer: seq<Message>, ys: seq<Message>)
    requires Subsequence(longer, ys) && xs <= longer && |longer| <= |xs| + 1
    ensures Subsequence(xs, ys)
    decreases |ys|
  {
    if xs == longer || xs == [] {
    } else {
      var m, n := |longer| - 1, |ys| - 1;
      assert xs == longer[..m];
      if Subsequence(longer, ys[..n]) {
        DropLast(xs, longer, ys[..n]);
        Weaken(xs, ys);
      } else {
        Weaken(xs, ys);
      }
    }
  }

  lemma Weaken(xs: seq<Message>, ys: seq<Message>)
    requires ys != [] && Subsequence(xs, ys[..|ys| - 1])
    ensures Subsequence(xs, ys)
  {
    SubsequenceExtends(xs, ys[..|ys| - 1], ys[|ys| - 1]);
    assert ys == ys[..|ys| - 1] + [ys[|ys| - 1]];
  }

  // ---------- the invariant ----------

  /** What a handler has heard, without the message it is still working on. */
  ghost function DealtWith(h: Handler): seq<Message> {
    if Busy(h) && h.heard != [] then h.heard[..|h.heard| - 1] else h.heard
  }

  /** Endpoint `c` has received from `d` in order. */
  ghost predicate Ordered(s: System, c: Conn, d: Conn)
    requires Keyed(s) && c in s.ends && d in s.ends
  {
    InOrderFrom(s.relay.inbox[c], DealtWith(s.relay.handlers[d]), Name(s, d), Name(s, c))
  }

  /** What every step keeps for `c` and `d`: the inbox of the one, the account of the other grows. */
  lemma OrderedFrame(s: System, s': System, c: Conn, d: Conn)
    requires Keyed(s) && Keyed(s') && c in s.ends && d in s.ends && c in s'.ends && d in s'.ends
    requires Ordered(s, c, d) && Name(s', c) == Name(s, c) && Name(s', d) == Name(s, d)
    requires Carrying(s'.relay.inbox[c], Name(s, d)) == Carrying(s.relay.inbox[c], Name(s, d))
    requires DealtWith(s.relay.handlers[d]) <= DealtWith(s'.relay.handlers[d])
    ensures Ordered(s', c, d)
  {
    SaysMore(s.relay.inbox[c], DealtWith(s.relay.handlers[d]), DealtWith(s'.relay.handlers[d]), Name(s, d), Name(s, c));
  }

  /** A handler that moves never forgets what it has dealt with. */
  lemma DealtWithGrows(s: State, l: Label, s': State, d: Conn)
    requires Step(s, l, s') && d in s.handlers && d in s'.handlers
    requires Busy(s.handlers[d]) ==> s.handlers[d].heard != []
    ensures DealtWith(s.handlers[d]) <= DealtWith(s'.handlers[d])
  {
  }

  lemma OpenedOrdered(s: System, c: Conn, name: string, e: Endpoint, s': System, x: Conn, y: Conn)
    requires Inv(s) && Fresh(s, c, name) && s' == Opened(s, c, name, e) && Keyed(s') && x in s'.ends && y in s'.ends
    requires x in s.ends && y in s.ends ==> Ordered(s, x, y)
    ensures Ordered(s', x, y)
  {
    OpenedKeyed(s, c, name, e, s');
    AcceptAdds(s.relay, c, name);
    if x != c && y == c {
      assert EndOk(s, x);
      forall m | m in s.relay.inbox[x] ensures m.id != name {
        var d :| From(s, x, m, d);
      }
      CarryingNone(s.relay.inbox[x], name);
    }
  }

  lemma WriteIsDone(s: State, w: Conn, s': State)
    requires Step(s, Write(w, true), s') && s.handlers[w].heard != []
    ensures w in s'.handlers
    ensures DealtWith(s'.handlers[w]) == DealtWith(s.handlers[w]) + [LastHeard(s.handlers[w])]
  {
    var heard := s.handlers[w].heard;
    assert heard == heard[..|heard| - 1] + [LastHeard(s.handlers[w])];
  }

  /** What a write by `w` does: the last message heard reaches the endpoint it was addressed to. */
  lemma WriteEffect(s: System, w: Conn, s': System) returns (to: Conn, last: Message)
    requires Moves(s, Write(w, true), s') && w in s.ends && HandlerTracks(s, w) && SaysInOrder(s, w)
    requires HandlerOk(s.relay, w)
    ensures to in s.ends && last.id == Name(s, to)
    ensures s'.relay.inbox == s.relay.inbox[to := s.relay.inbox[to] + [last.(id := Name(s, w))]]
    ensures DealtWith(s'.relay.handlers[w]) == DealtWith(s.relay.handlers[w]) + [last]
  {
    LastSaid(s, w);
    WrittenIsFrom(s, w, s');
    WriteIsDone(s.relay, w, s'.relay);
    to, last := s.relay.handlers[w].pc.to, LastHeard(s.relay.handlers[w]);
  }

  /** The write by `w` of its message in flight. */
  lemma WrittenOrdered(s: System, w: Conn, s': System, x: Conn, y: Conn)
    requires Moves(s, Write(w, true), s') && w in s.ends && x in s.ends && y in s.ends && Shape(s) && Ordered(s, x, y)
    requires HandlerTracks(s, w) && SaysInOrder(s, w) && HandlerOk(s.relay, w)
    requires y != w ==> s'.relay.handlers[y] == s.relay.handlers[y]
    ensures Ordered(s', x, y)
  {
    var to, last := WriteEffect(s, w, s');
    WriteReaches(s, s', w, to, last, x, y);
  }

  lemma WriteReaches(s: System, s': System, w: Conn, to: Conn, last: Message, x: Conn, y: Conn)
    requires Keyed(s) && Keyed(s') && Shape(s) && Grows(s, s')
    requires w in s.ends && to in s.ends && x in s.ends && y in s.ends && Ordered(s, x, y) && last.id == Name(s, to)
    requires s'.relay.inbox == s.relay.inbox[to := s.relay.inbox[to] + [last.(id := Name(s, w))]]
    requires DealtWith(s'.relay.handlers[w]) == DealtWith(s.relay.handlers[w]) + [last]
    requires y != w ==> s'.relay.handlers[y] == s.relay.handlers[y]
    ensures x in s'.ends && y in s'.ends && Ordered(s', x, y)
  {
    if x == to {
      CarryingOneMore(s.relay.inbox[x], last.(id := Name(s, w)), Name(s, y));
    }
    if x == to && y == w {
      SaysOneMore(s.relay.inbox[x], DealtWith(s.relay.handlers[w]), last, Name(s, y), Name(s, x));
    } else {
      OrderedFrame(s, s', x, y);
    }
  }

  lemma UnwrittenOrdered(s: System, l: Label, s': System, x: Conn, y: Conn)
    requires Moves(s, l, s') && !(l.Write? && l.ok) && x in s.ends && y in s.ends && Ordered(s, x, y)
    requires HandlerTracks(s, y)
    ensures Ordered(s', x, y)
  {
    OnlyMoverChanges(s.relay, l, s'.relay);
    DealtWithGrows(s.relay, l, s'.relay, y);
    OrderedFrame(s, s', x, y);
  }

  /** What the invariant says about one endpoint and its handler. */
  lemma InvAt(s: System, c: Conn)
    requires Inv(s) && c in s.ends
    ensures Keyed(s) && Shape(s) && HandlerTracks(s, c) && SaysInOrder(s, c) && HandlerOk(s.relay, c)
  {
    assert EndOk(s, c);
  }

  lemma MovedOrdered(s: System, l: Label, s': System, x: Conn, y: Conn)
    requires Inv(s) && Moves(s, l, s') && x in s.ends && y in s.ends && Ordered(s, x, y)
    ensures Ordered(s', x, y)
  {
    if l.Write? && l.ok {
      MovedByWrite(s, l.c, s', x, y);
    } else {
      InvAt(s, y);
      UnwrittenOrdered(s, l, s', x, y);
    }
  }

  lemma MovedByWrite(s: System, w: Conn, s': System, x: Conn, y: Conn)
    requires Inv(s) && Moves(s, Write(w, true), s') && x in s.ends && y in s.ends && Ordered(s, x, y)
    ensures Ordered(s', x, y)
  {
    MoverIsThere(s, Write(w, true), s', y);
    InvAt(s, w);
    WrittenOrdered(s, w, s', x, y);
  }

  lemma MoverIsThere(s: System, l: Label, s': System, y: Conn)
    requires Moves(s, l, s') && l.Write? && y in s.ends
    ensures l.c in s.ends && (y != l.c ==> s'.relay.handlers[y] == s.relay.handlers[y])
  {
    OnlyMoverChanges(s.relay, l, s'.relay);
  }

  /** Everything but opening and the relay's own moves leaves the relay alone. */
  lemma RelayStays(s: System, a: Action, s': System)
    requires Next(s, a, s') && !a.OpenClient? && !a.OpenServer? && !a.RelayMoves?
    ensures s'.relay == s.relay
  {
  }

  lemma NextOrdered(s: System, a: Action, s': System, x: Conn, y: Conn)
    requires Inv(s) && Inv(s') && Next(s, a, s') && x in s'.ends && y in s'.ends
    requires x in s.ends && y in s.ends ==> Ordered(s, x, y)
    ensures Ordered(s', x, y)
  {
    if a.OpenClient? {
      OpenedOrdered(s, a.c, a.name, NewClient(a.target), s', x, y);
    } else if a.OpenServer? {
      OpenedOrdered(s, a.c, a.name, NewServer(), s', x, y);
    } else if a.RelayMoves? {
      MoveShape(s, a.l, s');
      MovedOrdered(s, a.l, s', x, y);
    } else {
      RelayStays(s, a, s');
    }
  }

  ghost predicate IfThereOrdered(s: System, c: Conn, d: Conn) {
    Keyed(s) && (c in s.ends && d in s.ends ==> Ordered(s, c, d))
  }

  lemma {:induction false} OrderedInRuns(ss: seq<System>, acts: seq<Action>, i: nat, c: Conn, d: Conn)
    requires IsSystemRun(ss, acts) && i < |ss|
    ensures IfThereOrdered(ss[i], c, d)
    decreases i
  {
    if i == 0 {
      NobodyAtStart(ss, acts, c, d);
    } else {
      OrderedInRuns(ss, acts, i - 1, c, d);
      OrderedNext(ss, acts, i - 1, c, d);
    }
  }

  lemma OrderedNext(ss: seq<System>, acts: seq<Action>, i: nat, c: Conn, d: Conn)
    requires IsSystemRun(ss, acts) && i < |acts| && IfThereOrdered(ss[i], c, d)
    ensures IfThereOrdered(ss[i + 1], c, d)
  {
    InvBefore(ss, acts, i);
    InvInRuns(ss, acts, i + 1);
    OrderedAfter(ss[i], acts[i], ss[i + 1], c, d);
  }

  lemma NobodyAtStart(ss: seq<System>, acts: seq<Action>, c: Conn, d: Conn)
    requires IsSystemRun(ss, acts)
    ensures IfThereOrdered(ss[0], c, d)
  {
  }

  lemma OrderedAfter(s: System, a: Action, s': System, c: Conn, d: Conn)
    requires Inv(s) && Inv(s') && Next(s, a, s') && IfThereOrdered(s, c, d)
    ensures IfThereOrdered(s', c, d)
  {
    if c in s'.ends && d in s'.ends {
      NextOrdered(s, a, s', c, d);
    }
  }

  lemma InvBefore(ss: seq<System>, acts: seq<Action>, i: nat)
    requires IsSystemRun(ss, acts) && i < |acts|
    ensures Inv(ss[i]) && Next(ss[i], acts[i], ss[i + 1])
  {
    InvInRuns(ss, acts, i);
  }

  // ---------- the results ----------

  /** In every run, what has been handed to `c` from `d`, up to any moment, is an ordered
      subsequence of what `d` has sent addressed to `c`, with the id replaced by `d`'s own. */
  lemma HandedInOrder(ss: seq<System>, acts: seq<Action>, i: nat, c: Conn, d: Conn, k: nat)
    requires IsSystemRun(ss, acts) && i < |ss| && c in ss[i].ends && d in ss[i].ends
    requires c in ss[i].relay.inbox && k <= |ss[i].relay.inbox[c]|
    ensures Keyed(ss[i])
    ensures InOrderFrom(ss[i].relay.inbox[c][..k], ss[i].outbox[d], Name(ss[i], d), Name(ss[i], c))
  {
    var s := ss[i];
    OrderedInRuns(ss, acts, i, c, d);
    InvInRuns(ss, acts, i);
    assert EndOk(s, d);
    SaysMore(s.relay.inbox[c], DealtWith(s.relay.handlers[d]), s.outbox[d], Name(s, d), Name(s, c));
    HearsLess(s.relay.inbox[c], s.outbox[d], k, Name(s, d), Name(s, c));
  }

  /** In every run, all that a client has been handed is an ordered subsequence of what its server
      has sent it. */
  lemma ClientHandedInOrder(ss: seq<System>, acts: seq<Action>, i: nat, c: Conn) returns (d: Conn)
    requires IsSystemRun(ss, acts) && i < |ss| && IsClient(ss[i], c)
    requires c in ss[i].relay.inbox && ss[i].relay.inbox[c] != []
    ensures Keyed(ss[i]) && IsServer(ss[i], d) && Name(ss[i], d) == ss[i].ends[c].target
    ensures Subsequence(ss[i].relay.inbox[c], PassedOn(ss[i].outbox[d], Name(ss[i], d), Name(ss[i], c)))
  {
    var s := ss[i];
    InvInRuns(ss, acts, i);
    d := ClientHears(s, c, s.relay.inbox[c][0]);
    forall m | m in s.relay.inbox[c] ensures m.id == Name(s, d) {
      var x := ClientHears(s, c, m);
    }
    HandedInOrder(ss, acts, i, c, d, |s.relay.inbox[c]|);
    assert s.relay.inbox[c][..|s.relay.inbox[c]|] == s.relay.inbox[c];
    CarryingAll(s.relay.inbox[c], Name(s, d));
  }
}
