/** The global invariant of the socket world and its preservation by every emulated call. */
module NetworkInvariant {
  import opened Common
  import opened Network

  // ----- configuration

  /** The address tables invert each other, and no host has the loopback address. */
  ghost predicate Configured(n: Net) {
    && (forall i :: i in n.byIp ==> n.byIp[i] in n.hosts && n.hosts[n.byIp[i]].ip == i)
    && (forall h :: h in n.hosts ==> n.hosts[h].ip in n.byIp && n.byIp[n.hosts[h].ip] == h && n.hosts[h].ip != LOOPBACK)
  }

  // ----- wiring of sockets and comms

  ghost predicate SocketWired(n: Net, s: SockId)
    requires s in n.sockets
  {
    var k := n.sockets[s];
    if k.comm.None? then !k.listening
    else
      && k.comm.value in n.comms
      && (k.listening <==> n.comms[k.comm.value].state == Listening)
      && (k.bound ==> k.listening)
      && (n.comms[k.comm.value].sock0 == s || n.comms[k.comm.value].sock1 == Some(s))
  }

  /** The connection waits in the queue of the listener in its slot 1. */
  ghost predicate Pending(n: Net, c: CommId)
    requires c in n.comms
  {
    && n.comms[c].sock1.Some? && n.comms[c].sock1.value in n.sockets
    && n.sockets[n.comms[c].sock1.value].bound
    && n.sockets[n.comms[c].sock1.value].comm.Some?
    && n.sockets[n.comms[c].sock1.value].comm.value in n.comms
    && c in n.comms[n.sockets[n.comms[c].sock1.value].comm.value].waiting
  }

  /** Both slots hold the sockets of the two ends. */
  ghost predicate Joined(n: Net, c: CommId)
    requires c in n.comms
  {
    && n.comms[c].sock1.Some? && n.comms[c].sock1.value in n.sockets
    && n.sockets[n.comms[c].sock1.value].comm == Some(c)
  }

  ghost predicate QueueWired(n: Net, c: CommId)
    requires c in n.comms
  {
    && Distinct(n.comms[c].waiting)
    && forall w :: w in n.comms[c].waiting ==>
      w in n.comms && n.comms[w].state != Listening && n.comms[w].sock1 == Some(n.comms[c].sock0)
  }

  ghost predicate CommWired(n: Net, c: CommId)
    requires c in n.comms
  {
    var k := n.comms[c];
    && k.sock0 in n.sockets && n.sockets[k.sock0].comm == Some(c)
    && if k.state == Listening then
         && k.sock1.None? && n.sockets[k.sock0].open && QueueWired(n, c)
         && (!n.sockets[k.sock0].bound ==> k.waiting == [])
       else
         && k.waiting == [] && k.sock1.Some? && k.sock1.value in n.sockets && k.sock1.value != k.sock0
         && (Pending(n, c) || Joined(n, c))
         && (k.state == Open ==> n.sockets[k.sock0].open && n.sockets[k.sock1.value].open)
         && (k.state == Closed ==> n.sockets[k.sock0].open != n.sockets[k.sock1.value].open)
         && (Pending(n, c) ==> n.sockets[k.sock1.value].open)
  }

  /** Sockets belong to hosts of the platform, and no identifier is used before its turn. */
  ghost predicate Allocated(n: Net) {
    && (forall s :: s in n.sockets ==> s < n.nextId && n.sockets[s].host in n.hosts)
    && (forall c :: c in n.comms ==> c < n.nextId)
  }

  ghost predicate Wired(n: Net) {
    && Allocated(n)
    && (forall s {:trigger SocketWired(n, s)} :: s in n.sockets ==> SocketWired(n, s))
    && (forall c {:trigger CommWired(n, c)} :: c in n.comms ==> CommWired(n, c))
  }

  // ----- which calls the world is ready for

  datatype Step =
    | SocketStep(proc: Proc, host: Host)
    | BindStep(s: SockId, ip: Ip, port: Port)
    | ListenStep(s: SockId)
    | ConnectStep(s: SockId, ip: Ip, port: Port, local: Port)
    | AcceptStep(l: SockId)
    | SendStep(s: SockId, data: Data)
    | CloseStep(s: SockId)

  ghost predicate Idle(n: Net, s: SockId) {
    s in n.sockets && n.sockets[s].open && !n.sockets[s].bound && n.sockets[s].comm.None?
  }

  /** The calls the code goes through with: on an open socket, reaching a socket that listens if any,
      with an unused local port; accept with a connection waiting, send on a connected socket. */
  ghost predicate Admitted(n: Net, step: Step)
    requires Wired(n) && Configured(n)
  {
    match step
    case SocketStep(_, h) => h in n.hosts
    case BindStep(s, _, _) => s in n.sockets && n.sockets[s].open
    case ListenStep(s) => s in n.sockets && n.sockets[s].open
    case ConnectStep(s, ip, p, local) =>
      && s in n.sockets && n.sockets[s].open
      && (n.Target(s, ip, p).Some? ==>
          && n.Target(s, ip, p).value in n.sockets && n.sockets[n.Target(s, ip, p).value].comm.Some?
          && local !in n.Ports(n.sockets[s].host))
    case AcceptStep(l) => Listener(n, l) && n.comms[n.sockets[l].comm.value].waiting != []
    case SendStep(s, _) => s in n.sockets && n.sockets[s].open && n.sockets[s].Connected()
    case CloseStep(s) => s in n.sockets && n.sockets[s].open
  }

  /** What the code relies on beyond that: a socket takes a port only once, a listener with connections
      waiting is neither closed nor made to listen again, a connected socket does not listen, and a
      listener is bound when it is closed, or nobody uses the port of its number. */
  ghost predicate Enabled(n: Net, step: Step)
    requires Wired(n) && Configured(n)
  {
    && Admitted(n, step)
    && match step
       case BindStep(s, _, p) => !n.sockets[s].Registered() || p in n.Ports(n.sockets[s].host)
       case ListenStep(s) => !n.sockets[s].Connected() && (n.sockets[s].comm.Some? ==> NothingWaits(n, s))
       case ConnectStep(s, ip, p, _) => !n.sockets[s].Registered() || n.Target(s, ip, p).None?
       case CloseStep(s) =>
         n.sockets[s].comm.Some? && n.sockets[s].listening ==>
           NothingWaits(n, s) && (n.sockets[s].bound || n.sockets[s].port !in n.Ports(n.sockets[s].host))
       case _ => true
  }

  ghost predicate NothingWaits(n: Net, l: SockId)
    requires Wired(n) && l in n.sockets && n.sockets[l].comm.Some?
  {
    assert SocketWired(n, l);
    n.comms[n.sockets[l].comm.value].waiting == []
  }

  ghost predicate Listener(n: Net, l: SockId)
    requires Wired(n)
    ensures Listener(n, l) ==> l in n.sockets && n.sockets[l].comm.Some? && n.sockets[l].comm.value in n.comms
  {
    assert l in n.sockets ==> SocketWired(n, l);
    l in n.sockets && n.sockets[l].open && n.sockets[l].bound && n.sockets[l].comm.Some?
  }

  /** The connection an accept takes. */
  ghost function FirstWaiting(n: Net, l: SockId): (c: CommId)
    requires Wired(n) && Configured(n) && Admitted(n, AcceptStep(l))
    ensures c == n.comms[n.sockets[l].comm.value].waiting[0] && c in n.comms[n.sockets[l].comm.value].waiting
    ensures c in n.comms && n.comms[c].sock0 in n.sockets
  {
    assert SocketWired(n, l) && CommWired(n, n.sockets[l].comm.value);
    var c := n.comms[n.sockets[l].comm.value].waiting[0];
    assert CommWired(n, c);
    c
  }

  ghost function Do(n: Net, step: Step): Net
    requires Wired(n) && Configured(n) && Admitted(n, step)
  {
    match step
    case SocketStep(proc, h) => n.DoSocket(proc, h)
    case BindStep(s, ip, p) => assert SocketWired(n, s); n.DoBind(s, ip, p)
    case ListenStep(s) => n.DoListen(s)
    case ConnectStep(s, ip, p, local) =>
      assert SocketWired(n, s);
      if n.Target(s, ip, p).None? then n else
        var l := n.Target(s, ip, p).value;
        assert SocketWired(n, l);
        n.DoDial(s, l, ip, p, local)
    case AcceptStep(l) => assert FirstWaiting(n, l) in n.comms; n.DoAccept(l)
    case SendStep(s, d) => assert SocketWired(n, s); n.DoSend(s, d)
    case CloseStep(s) =>
      assert SocketWired(n, s);
      assert n.sockets[s].comm.Some? ==> CommWired(n, n.sockets[s].comm.value);
      n.DoClose(s)
  }

  // ----- wiring is preserved

  /** A comm stays wired when nothing it refers to changes. */
  lemma CommFrame(n: Net, m: Net, c: CommId)
    requires c in n.comms && CommWired(n, c)
    requires c in m.comms && m.comms[c].(recv0 := EMPTY, recv1 := EMPTY) == n.comms[c].(recv0 := EMPTY, recv1 := EMPTY)
    requires SameSocket(n, m, n.comms[c].sock0)
    requires n.comms[c].sock1.Some? ==> SameSocket(n, m, n.comms[c].sock1.value)
    requires Pending(n, c) ==> Pending(m, c)
    requires forall w :: w in n.comms[c].waiting && w in n.comms ==>
      w in m.comms && (n.comms[w].state != Listening ==> m.comms[w].state != Listening) && m.comms[w].sock1 == n.comms[w].sock1
    ensures CommWired(m, c)
  {
    assert n.comms[c].sock1.Some? && n.sockets[n.comms[c].sock1.value].comm == Some(c) ==> !Pending(m, c);
  }

  ghost predicate SameSocket(n: Net, m: Net, s: SockId) {
    s in n.sockets && s in m.sockets && n.sockets[s] == m.sockets[s]
  }

  lemma SocketKeepsWired(n: Net, proc: Proc, h: Host)
    requires Wired(n) && Configured(n) && h in n.hosts
    ensures Wired(Do(n, SocketStep(proc, h)))
  {
    var m := n.DoSocket(proc, h);
    forall c | c in m.comms ensures CommWired(m, c) {
      assert CommWired(n, c);
      assert Pending(n, c) ==> Pending(m, c);
      CommFrame(n, m, c);
    }
    forall s | s in m.sockets ensures SocketWired(m, s) { assert s in n.sockets ==> SocketWired(n, s); }
  }

  /** Binding touches no connection but the listening one of the socket itself. */
  lemma BindKeepsComm(n: Net, s: SockId, ip: Ip, p: Port, c: CommId)
    requires Wired(n) && Configured(n) && Enabled(n, BindStep(s, ip, p)) && c in n.comms
    requires n.sockets[s].host in n.hosts && p !in n.Ports(n.sockets[s].host)
    ensures CommWired(n.DoBind(s, ip, p), c)
  {
    assert CommWired(n, c) && SocketWired(n, s);
    if n.sockets[s].comm != Some(c) {
      NotElsewhere(n, s, c);
      CommFrame(n, n.DoBind(s, ip, p), c);
    }
  }

  lemma BindKeepsWired(n: Net, s: SockId, ip: Ip, p: Port)
    requires Wired(n) && Configured(n) && Enabled(n, BindStep(s, ip, p))
    ensures Wired(Do(n, BindStep(s, ip, p)))
  {
    var m := n.DoBind(s, ip, p);
    if p !in n.Ports(n.sockets[s].host) {
      forall c | c in m.comms ensures CommWired(m, c) { BindKeepsComm(n, s, ip, p, c); }
      forall t | t in m.sockets ensures SocketWired(m, t) { assert SocketWired(n, t); }
    }
  }

  // ----- giving up a listening communication

  /** A socket that can take a new communication: it has none, or a listening one where nothing waits. */
  ghost predicate Detachable(n: Net, s: SockId)
    requires Wired(n)
  {
    s in n.sockets && !n.sockets[s].Connected() && (n.sockets[s].comm.Some? ==> NothingWaits(n, s))
  }

  lemma DetachKeepsComm(n: Net, s: SockId, c: CommId)
    requires Wired(n) && Detachable(n, s) && c in n.comms && n.sockets[s].comm != Some(c)
    ensures c in n.Detached(s).comms && CommWired(n.Detached(s), c)
  {
    assert CommWired(n, c) && SocketWired(n, s);
    if n.sockets[s].comm.Some? { assert CommWired(n, n.sockets[s].comm.value); }
    NotElsewhere(n, s, c);
    CommFrame(n, n.Detached(s), c);
  }

  lemma DetachKeepsSocket(n: Net, s: SockId, t: SockId)
    requires Wired(n) && Detachable(n, s) && t in n.sockets
    ensures SocketWired(n.Detached(s), t)
  {
    assert SocketWired(n, t) && SocketWired(n, s);
    if n.sockets[s].comm.Some? { assert CommWired(n, n.sockets[s].comm.value); }
  }

  lemma DetachKeepsWired(n: Net, s: SockId)
    requires Wired(n) && Detachable(n, s)
    ensures Wired(n.Detached(s))
  {
    var m := n.Detached(s);
    assert SocketWired(n, s);
    forall c | c in m.comms ensures CommWired(m, c) { DetachKeepsComm(n, s, c); }
    forall t | t in m.sockets ensures SocketWired(m, t) { DetachKeepsSocket(n, s, t); }
  }

  lemma ListenKeepsWired(n: Net, s: SockId)
    requires Wired(n) && s in n.sockets && n.sockets[s].open && n.sockets[s].comm.None?
    ensures Wired(n.DoListen(s))
  {
    var m := n.DoListen(s);
    forall c | c in m.comms && c in n.comms ensures CommWired(m, c) {
      assert CommWired(n, c);
      NotElsewhere(n, s, c);
      CommFrame(n, m, c);
    }
    forall t | t in m.sockets ensures SocketWired(m, t) { assert SocketWired(n, t); }
  }

  /** Listening and dialling start from the socket without its listening communication. */
  lemma ListenDetached(n: Net, s: SockId)
    requires Wired(n) && Detachable(n, s)
    ensures n.Detached(s).DoListen(s) == n.DoListen(s)
  {
    assert SocketWired(n, s);
  }

  lemma DialDetached(n: Net, s: SockId, l: SockId, ip: Ip, p: Port, local: Port)
    requires Wired(n) && Detachable(n, s) && s != l && l in n.sockets && n.sockets[l].comm.Some?
    ensures n.sockets[l].comm.value in n.comms && n.sockets[l].comm.value in n.Detached(s).comms
    ensures n.Detached(s).DoDial(s, l, ip, p, local) == n.DoDial(s, l, ip, p, local)
  {
    assert SocketWired(n, s) && SocketWired(n, l);
    if n.sockets[s].comm.Some? { assert CommWired(n, n.sockets[s].comm.value); }
    var m := n.Detached(s);
    assert m.Kept(s) == m.comms;
    assert m.RemoteIp(s, l) == n.RemoteIp(s, l) && m.ClientIp(s, ip) == n.ClientIp(s, ip);
    assert m.Queued(s, l) == n.Queued(s, l);
  }

  lemma SendKeepsWired(n: Net, s: SockId, d: Data)
    requires Wired(n) && Configured(n) && Enabled(n, SendStep(s, d))
    ensures Wired(Do(n, SendStep(s, d)))
  {
    assert SocketWired(n, s);
    var m := n.DoSend(s, d);
    forall c | c in m.comms ensures CommWired(m, c) {
      assert CommWired(n, c);
      CommFrame(n, m, c);
    }
    forall t | t in m.sockets ensures SocketWired(m, t) { assert SocketWired(n, t); }
  }

  /** A connect that reaches listener l of the given world. */
  ghost predicate Dialling(n: Net, s: SockId, l: SockId) {
    && Wired(n) && Configured(n) && Idle(n, s) && Listener(n, l)
  }

  lemma DialKeepsQueue(n: Net, s: SockId, l: SockId, ip: Ip, p: Port, local: Port)
    requires Dialling(n, s, l)
    ensures CommWired(n.DoDial(s, l, ip, p, local), n.sockets[l].comm.value)
  {
    var m, lc := n.DoDial(s, l, ip, p, local), n.sockets[l].comm.value;
    assert SocketWired(n, l) && CommWired(n, lc);
    var q := n.comms[lc].waiting;
    assert forall w :: w in q ==> w in n.comms && w != n.nextId;
    assert m.comms[lc].waiting == q + [n.nextId];
    assert forall i :: 0 <= i < |q| ==> q[i] in q;
    assert m.comms[lc].sock0 == l;
    forall w | w in m.comms[lc].waiting
      ensures w in m.comms && m.comms[w].state != Listening && m.comms[w].sock1 == Some(l)
    {
      assert w in q || w == n.nextId;
    }
  }

  lemma DialKeepsOther(n: Net, s: SockId, l: SockId, ip: Ip, p: Port, local: Port, c: CommId)
    requires Dialling(n, s, l) && c in n.comms && c != n.sockets[l].comm.value
    ensures CommWired(n.DoDial(s, l, ip, p, local), c)
  {
    var m := n.DoDial(s, l, ip, p, local);
    assert CommWired(n, c) && SocketWired(n, s);
    assert n.comms[c].sock0 != s && n.comms[c].sock1 != Some(s);
    assert Pending(n, c) ==> Pending(m, c);
    CommFrame(n, m, c);
  }

  lemma DialKeepsWired(n: Net, s: SockId, l: SockId, ip: Ip, p: Port, local: Port)
    requires Dialling(n, s, l)
    ensures Wired(n.DoDial(s, l, ip, p, local))
  {
    var m, lc := n.DoDial(s, l, ip, p, local), n.sockets[l].comm.value;
    DialKeepsQueue(n, s, l, ip, p, local);
    forall c | c in m.comms ensures CommWired(m, c) {
      if c in n.comms && c != lc {
        DialKeepsOther(n, s, l, ip, p, local, c);
      } else if c != lc {
        assert SocketWired(n, l);
        assert Pending(m, c);
      }
    }
    forall t | t in m.sockets ensures SocketWired(m, t) { assert SocketWired(n, t); }
  }

  ghost predicate Accepting(n: Net, l: SockId) {
    Wired(n) && Configured(n) && Enabled(n, AcceptStep(l))
  }

  lemma AcceptKeepsQueue(n: Net, l: SockId)
    requires Accepting(n, l)
    ensures CommWired(Do(n, AcceptStep(l)), n.sockets[l].comm.value)
  {
    var m, lc, c := Do(n, AcceptStep(l)), n.sockets[l].comm.value, FirstWaiting(n, l);
    assert SocketWired(n, l) && CommWired(n, lc);
    var q := n.comms[lc].waiting;
    assert m.comms[lc].waiting == q[1..];
    forall w | w in q[1..] ensures w in m.comms && m.comms[w].state != Listening && m.comms[w].sock1 == Some(l) {
      assert w in q && w != c;
    }
  }

  lemma AcceptJoins(n: Net, l: SockId)
    requires Accepting(n, l)
    ensures var m, c := Do(n, AcceptStep(l)), FirstWaiting(n, l);
      c in m.comms && CommWired(m, c) && Joined(m, c) && !Pending(m, c)
  {
    var m, lc, c := Do(n, AcceptStep(l)), n.sockets[l].comm.value, FirstWaiting(n, l);
    assert SocketWired(n, l) && CommWired(n, lc) && CommWired(n, c);
    assert Pending(n, c);
  }

  lemma AcceptKeepsOther(n: Net, l: SockId, c: CommId)
    requires Accepting(n, l) && c in n.comms && c != n.sockets[l].comm.value && c != FirstWaiting(n, l)
    ensures CommWired(Do(n, AcceptStep(l)), c)
  {
    var m := Do(n, AcceptStep(l));
    assert CommWired(n, c) && SocketWired(n, l) && CommWired(n, n.sockets[l].comm.value);
    assert FirstWaiting(n, l) in m.comms;
    if Pending(n, c) {
      var k := n.sockets[n.comms[c].sock1.value].comm.value;
      var q := n.comms[k].waiting;
      var i :| 0 <= i < |q| && q[i] == c;
      if k == n.sockets[l].comm.value {
        assert q[1..][i - 1] == c;
      }
      assert Pending(m, c);
    }
    CommFrame(n, m, c);
  }

  lemma AcceptKeepsSocket(n: Net, l: SockId, t: SockId)
    requires Accepting(n, l) && t in Do(n, AcceptStep(l)).sockets
    ensures SocketWired(Do(n, AcceptStep(l)), t)
  {
    var c := FirstWaiting(n, l);
    assert CommWired(n, c) && CommWired(n, n.sockets[l].comm.value) && SocketWired(n, l);
    if t in n.sockets { assert SocketWired(n, t); }
  }

  lemma AcceptAllocates(n: Net, l: SockId)
    requires Accepting(n, l)
    ensures Allocated(Do(n, AcceptStep(l)))
  {
    var c := FirstWaiting(n, l);
  }

  lemma AcceptKeepsWired(n: Net, l: SockId)
    requires Accepting(n, l)
    ensures Wired(Do(n, AcceptStep(l)))
  {
    var m, lc := Do(n, AcceptStep(l)), n.sockets[l].comm.value;
    AcceptKeepsQueue(n, l);
    AcceptJoins(n, l);
    forall c | c in m.comms ensures CommWired(m, c) {
      if c != lc && c != FirstWaiting(n, l) { AcceptKeepsOther(n, l, c); }
    }
    AcceptAllocates(n, l);
    forall t | t in m.sockets ensures SocketWired(m, t) { AcceptKeepsSocket(n, l, t); }
  }

  /** A connection with one end closed has been accepted, if its other end is being closed. */
  lemma ClosedIsJoined(n: Net, s: SockId)
    requires Wired(n) && s in n.sockets && n.sockets[s].open && n.sockets[s].comm.Some?
    requires n.sockets[s].comm.value in n.comms && n.comms[n.sockets[s].comm.value].state == Closed
    ensures Joined(n, n.sockets[s].comm.value)
    ensures var k := n.comms[n.sockets[s].comm.value];
      && k.sock0 in n.sockets && n.sockets[k.sock0].comm == n.sockets[s].comm
      && n.sockets[k.sock0].Connected() && n.sockets[k.sock1.value].Connected()
      && !n.sockets[k.sock0].bound && !n.sockets[k.sock1.value].bound
  {
    var c := n.sockets[s].comm.value;
    assert SocketWired(n, s) && CommWired(n, c);
    assert SocketWired(n, n.comms[c].sock0) && SocketWired(n, n.comms[c].sock1.value);
  }

  /** No other comm refers to a socket that is not a listener with connections waiting. */
  lemma NotElsewhere(n: Net, s: SockId, c: CommId)
    requires Wired(n) && s in n.sockets && c in n.comms && n.sockets[s].comm != Some(c)
    requires n.sockets[s].bound && n.sockets[s].comm.Some? ==> Listener(n, s) && n.comms[n.sockets[s].comm.value].waiting == []
    ensures n.comms[c].sock0 != s && n.comms[c].sock1 != Some(s)
  {
    assert CommWired(n, c);
  }

  /** The queue a connection waits in belongs to the listener in its slot 1. */
  lemma QueueOfListener(n: Net, c: CommId, k: CommId)
    requires Wired(n) && c in n.comms && Pending(n, c) && k in n.comms
    requires n.comms[k].sock0 != n.comms[c].sock1.value || n.comms[k].state != Listening
    ensures n.sockets[n.comms[c].sock1.value].comm.value != k
  {
    assert SocketWired(n, n.comms[c].sock1.value) && CommWired(n, k);
  }

  lemma CloseKeepsOther(n: Net, s: SockId, c: CommId)
    requires Wired(n) && Configured(n) && Enabled(n, CloseStep(s)) && c in n.comms && n.sockets[s].comm != Some(c)
    ensures c in Do(n, CloseStep(s)).comms && CommWired(Do(n, CloseStep(s)), c)
  {
    assert CommWired(n, c) && SocketWired(n, s);
    if n.sockets[s].comm.Some? {
      CloseKeepsQueue(n, s, c);
      CloseKeepsPending(n, s, c);
    }
    CloseKeepsSocket(n, s, c, n.comms[c].sock0);
    if n.comms[c].sock1.Some? { CloseKeepsSocket(n, s, c, n.comms[c].sock1.value); }
    CommFrame(n, Do(n, CloseStep(s)), c);
  }

  /** The ends of another connection are not touched by a close. */
  lemma CloseKeepsSocket(n: Net, s: SockId, c: CommId, t: SockId)
    requires Wired(n) && Configured(n) && Enabled(n, CloseStep(s)) && c in n.comms && n.sockets[s].comm != Some(c)
    requires t in n.sockets && (t == n.comms[c].sock0 || n.comms[c].sock1 == Some(t))
    ensures SameSocket(n, Do(n, CloseStep(s)), t)
  {
    assert SocketWired(n, s);
    NotElsewhere(n, s, c);
    if n.sockets[s].comm.Some? {
      var k := n.sockets[s].comm.value;
      assert CommWired(n, k);
      if n.comms[k].state == Closed {
        ClosedIsJoined(n, s);
        NotElsewhere(n, n.comms[k].sock0, c);
        NotElsewhere(n, n.comms[k].sock1.value, c);
      }
    }
  }

  lemma CloseKeepsPending(n: Net, s: SockId, c: CommId)
    requires Wired(n) && Configured(n) && Enabled(n, CloseStep(s)) && c in n.comms
    requires n.sockets[s].comm.Some? && n.sockets[s].comm != Some(c)
    ensures c in Do(n, CloseStep(s)).comms
    ensures Pending(n, c) ==> Pending(Do(n, CloseStep(s)), c)
  {
    var k := n.sockets[s].comm.value;
    assert CommWired(n, c) && SocketWired(n, s) && CommWired(n, k);
    NotElsewhere(n, s, c);
    if Pending(n, c) {
      if n.comms[k].state == Closed {
        ClosedIsJoined(n, s);
        NotElsewhere(n, n.comms[k].sock0, c);
        NotElsewhere(n, n.comms[k].sock1.value, c);
      }
      QueueOfListener(n, c, k);
    }
  }

  /** A connection that waits in a queue is not destroyed by a close. */
  lemma CloseKeepsQueue(n: Net, s: SockId, c: CommId)
    requires Wired(n) && Configured(n) && Enabled(n, CloseStep(s)) && c in n.comms
    requires n.sockets[s].comm.Some? && n.sockets[s].comm != Some(c)
    ensures var m := Do(n, CloseStep(s));
      forall w :: w in n.comms[c].waiting && w in n.comms ==>
        w in m.comms && (n.comms[w].state != Listening ==> m.comms[w].state != Listening)
        && m.comms[w].sock1 == n.comms[w].sock1
  {
    var k := n.sockets[s].comm.value;
    assert CommWired(n, c) && SocketWired(n, s) && CommWired(n, k);
    if k in n.comms[c].waiting {
      assert SocketWired(n, n.comms[c].sock0);
      if n.comms[k].state == Closed { ClosedIsJoined(n, s); }
    }
  }

  lemma CloseKeepsOwn(n: Net, s: SockId, c: CommId)
    requires Wired(n) && Configured(n) && Enabled(n, CloseStep(s)) && c in n.comms && n.sockets[s].comm == Some(c)
    ensures c in Do(n, CloseStep(s)).comms <==> n.comms[c].state == Open
    ensures n.comms[c].state == Open ==> CommWired(Do(n, CloseStep(s)), c)
  {
    assert SocketWired(n, s) && CommWired(n, c);
    if n.comms[c].state == Open && Pending(n, c) {
      assert Pending(Do(n, CloseStep(s)), c);
    }
  }

  lemma CloseKeepsSocketWired(n: Net, s: SockId, t: SockId)
    requires Wired(n) && Configured(n) && Enabled(n, CloseStep(s)) && t in Do(n, CloseStep(s)).sockets
    ensures t in n.sockets && SocketWired(Do(n, CloseStep(s)), t)
  {
    assert SocketWired(n, s) && SocketWired(n, t);
    if n.sockets[s].comm.Some? {
      var k := n.sockets[s].comm.value;
      assert CommWired(n, k);
      if n.comms[k].state == Closed { ClosedIsJoined(n, s); }
    }
  }

  lemma CloseKeepsAllocated(n: Net, s: SockId)
    requires Wired(n) && Configured(n) && Enabled(n, CloseStep(s))
    ensures Allocated(Do(n, CloseStep(s)))
  {
    assert SocketWired(n, s);
    if n.sockets[s].comm.Some? { assert CommWired(n, n.sockets[s].comm.value); }
  }

  lemma CloseKeepsWired(n: Net, s: SockId)
    requires Wired(n) && Configured(n) && Enabled(n, CloseStep(s))
    ensures Wired(Do(n, CloseStep(s)))
  {
    var m := Do(n, CloseStep(s));
    assert SocketWired(n, s);
    CloseKeepsAllocated(n, s);
    forall c | c in m.comms ensures CommWired(m, c) {
      if n.sockets[s].comm != Some(c) { CloseKeepsOther(n, s, c); } else { CloseKeepsOwn(n, s, c); }
    }
    forall t | t in m.sockets ensures SocketWired(m, t) { CloseKeepsSocketWired(n, s, t); }
  }
}
