/** The guards of the socket world are exact. The code goes through with more calls than the
    invariant allows: a second bind, listen or connect of a socket, closing a listener that has
    connections waiting. Each of them breaks what every allowed call keeps. */
module NetworkExact {
  import opened Common
  import opened Network
  import opened NetworkInvariant
  import opened NetworkPorts
  import opened NetworkHistory
  import opened NetworkRuns

  /** A connection whose two ends exist and refer to it, the second one unless it still waits at a
      bound socket. */
  ghost predicate Linked(n: Net, c: CommId)
    requires c in n.comms
  {
    var k := n.comms[c];
    k.state != Listening ==>
      && k.sock0 in n.sockets && n.sockets[k.sock0].comm == Some(c)
      && k.sock1.Some? && k.sock1.value in n.sockets
      && (n.sockets[k.sock1.value].bound || n.sockets[k.sock1.value].comm == Some(c))
  }

  ghost predicate AllLinked(n: Net) {
    forall c {:trigger Linked(n, c)} :: c in n.comms ==> Linked(n, c)
  }

  /** What was dialled at a socket is what was accepted on it, followed by its queue. */
  ghost predicate InOrder(n: Net) {
    forall l {:trigger QueueRemembered(n, l)} :: l in n.sockets ==> QueueRemembered(n, l)
  }

  /** The ports are accounted for, every connection has both its ends, and the queues are in order. */
  ghost predicate Sound(n: Net) {
    CountsOk(n) && AllLinked(n) && InOrder(n)
  }

  lemma InvSound(n: Net)
    requires Inv(n)
    ensures Sound(n)
  {
    forall c | c in n.comms ensures Linked(n, c) { assert CommWired(n, c); }
  }

  // ----- taking a port twice

  /** A registered socket that turns up on another port leaves its old one with a wrong count. */
  lemma MovedMiscounts(n: Net, m: Net, s: SockId)
    requires CountsOk(n) && s in n.sockets && n.sockets[s].Registered() && OthersSame(n, m, s)
    requires s in m.sockets && (m.sockets[s].host != n.sockets[s].host || m.sockets[s].port != n.sockets[s].port)
    requires Amount(m, n.sockets[s].host, n.sockets[s].port) == Amount(n, n.sockets[s].host, n.sockets[s].port)
    ensures !Counted(m, n.sockets[s].host, n.sockets[s].port)
  {
    var h, p := n.sockets[s].host, n.sockets[s].port;
    assert Counted(n, h, p);
    assert s in Users(n, h, p) && Users(m, h, p) == Users(n, h, p) - {s};
  }

  /** The port of a registered socket is in the table of its host. */
  lemma OwnPortUsed(n: Net, s: SockId)
    requires CountsOk(n) && s in n.sockets && n.sockets[s].Registered() && n.sockets[s].host in n.hosts
    ensures n.sockets[s].port in n.Ports(n.sockets[s].host)
  {
    assert Counted(n, n.sockets[s].host, n.sockets[s].port);
    assert s in Users(n, n.sockets[s].host, n.sockets[s].port);
  }

  /** A second bind leaves the first port counted and nobody on it. */
  lemma RebindMiscounts(n: Net, s: SockId, ip: Ip, p: Port)
    requires Wired(n) && CountsOk(n) && s in n.sockets && n.sockets[s].Registered()
    requires n.sockets[s].host in n.hosts && p !in n.Ports(n.sockets[s].host)
    ensures !Counted(n.DoBind(s, ip, p), n.sockets[s].host, n.sockets[s].port)
  {
    OwnPortUsed(n, s);
    MovedMiscounts(n, n.DoBind(s, ip, p), s);
  }

  /** So does a connect of a socket that has a port already. */
  lemma ReconnectMiscounts(n: Net, s: SockId, l: SockId, ip: Ip, p: Port, local: Port)
    requires Wired(n) && CountsOk(n) && s in n.sockets && n.sockets[s].Registered()
    requires n.sockets[s].host in n.hosts && local !in n.Ports(n.sockets[s].host)
    requires l in n.sockets && n.sockets[l].host in n.hosts && n.sockets[l].comm.Some? && n.sockets[l].comm.value in n.comms
    ensures !Counted(n.DoDial(s, l, ip, p, local), n.sockets[s].host, n.sockets[s].port)
  {
    OwnPortUsed(n, s);
    MovedMiscounts(n, n.DoDial(s, l, ip, p, local), s);
  }

  // ----- listening twice

  /** Listening again drops the queue: what waited in it waits in no queue any more. */
  lemma RelistenDropsQueue(n: Net, l: SockId, c: CommId, k: CommId)
    requires Wired(n) && Listener(n, l) && c in n.comms[n.sockets[l].comm.value].waiting && k in n.DoListen(l).comms
    ensures c !in n.DoListen(l).comms[k].waiting
  {
    var lc := n.sockets[l].comm.value;
    assert SocketWired(n, l) && CommWired(n, lc);
    if k in n.comms { assert CommWired(n, k); }
  }

  lemma RelistenLosesOrder(n: Net, l: SockId)
    requires Wired(n) && Listener(n, l) && QueueRemembered(n, l) && !NothingWaits(n, l)
    ensures !QueueRemembered(n.DoListen(l), l)
  {
    assert SocketWired(n, l);
    assert Queue(n.DoListen(l), l) == [] && |Queue(n, l)| > 0;
  }

  /** A connected socket that listens is no end of its connection any more. */
  lemma ListenUnlinks(n: Net, s: SockId)
    requires Wired(n) && s in n.sockets && n.sockets[s].Connected()
    ensures n.sockets[s].comm.value in n.DoListen(s).comms && !Linked(n.DoListen(s), n.sockets[s].comm.value)
  {
    assert SocketWired(n, s) && CommWired(n, n.sockets[s].comm.value);
  }

  // ----- closing a listener

  /** Closing a listener leaves a connection that waited there without its other end. */
  lemma CloseUnlinks(n: Net, l: SockId)
    requires Wired(n) && Configured(n) && Listener(n, l) && !NothingWaits(n, l)
    ensures !AllLinked(Do(n, CloseStep(l)))
  {
    assert SocketWired(n, l);
    var lc := n.sockets[l].comm.value;
    assert CommWired(n, lc);
    var c := n.comms[lc].waiting[0];
    assert c in n.comms[lc].waiting;
    assert !Linked(Do(n, CloseStep(l)), c);
  }

  /** Closing a listener that was never bound takes a place off the port whose number it was created
      with, which is 0: if that port is in use, it is counted once too little. */
  lemma UnboundCloseMiscounts(n: Net, s: SockId)
    requires Wired(n) && Configured(n) && CountsOk(n) && s in n.sockets && n.sockets[s].open
    requires !n.sockets[s].bound && n.sockets[s].listening && n.sockets[s].port in n.Ports(n.sockets[s].host)
    ensures !Counted(Do(n, CloseStep(s)), n.sockets[s].host, n.sockets[s].port)
  {
    var m, h, p := Do(n, CloseStep(s)), n.sockets[s].host, n.sockets[s].port;
    assert SocketWired(n, s) && CommWired(n, n.sockets[s].comm.value) && Counted(n, h, p);
    UnregisterDown(n, m, h, p, s);
    assert Users(m, h, p) == Users(n, h, p);
  }

  // ----- the guards are exact

  lemma BrokenByBind(n: Net, s: SockId, ip: Ip, p: Port)
    requires Inv(n) && Admitted(n, BindStep(s, ip, p)) && !Enabled(n, BindStep(s, ip, p))
    ensures !Sound(Do(n, BindStep(s, ip, p)))
  {
    assert SocketWired(n, s);
    RebindMiscounts(n, s, ip, p);
  }

  lemma BrokenByConnect(n: Net, s: SockId, ip: Ip, p: Port, local: Port)
    requires Inv(n) && Admitted(n, ConnectStep(s, ip, p, local)) && !Enabled(n, ConnectStep(s, ip, p, local))
    ensures !Sound(Do(n, ConnectStep(s, ip, p, local)))
  {
    var l := n.Target(s, ip, p).value;
    assert SocketWired(n, s) && SocketWired(n, l);
    ReconnectMiscounts(n, s, l, ip, p, local);
  }

  lemma BrokenByListen(n: Net, s: SockId)
    requires Inv(n) && Admitted(n, ListenStep(s)) && !Enabled(n, ListenStep(s))
    ensures !Sound(Do(n, ListenStep(s)))
  {
    assert SocketWired(n, s);
    if n.sockets[s].Connected() {
      ListenUnlinks(n, s);
    } else {
      assert CommWired(n, n.sockets[s].comm.value) && QueueRemembered(n, s);
      RelistenLosesOrder(n, s);
    }
  }

  lemma BrokenByClose(n: Net, s: SockId)
    requires Inv(n) && Admitted(n, CloseStep(s)) && !Enabled(n, CloseStep(s))
    ensures !Sound(Do(n, CloseStep(s)))
  {
    assert SocketWired(n, s) && CommWired(n, n.sockets[s].comm.value);
    if NothingWaits(n, s) { UnboundCloseMiscounts(n, s); } else { CloseUnlinks(n, s); }
  }

  /** A call the code goes through with keeps ports, connections and queues sound if and only if its
      guard holds: a socket takes a port once, unless the second time is refused; a socket with a
      connection of its own does not listen, and one with connections waiting does not listen again or
      close; a listener that is closed is bound, or the port of its number is unused. */
  lemma StepExact(n: Net, step: Step)
    requires Inv(n) && Admitted(n, step)
    ensures Sound(Do(n, step)) <==> Enabled(n, step)
  {
    if Enabled(n, step) {
      StepKeepsInv(n, step);
      InvSound(Do(n, step));
    } else {
      match step
      case BindStep(s, ip, p) => BrokenByBind(n, s, ip, p);
      case ListenStep(s) => BrokenByListen(n, s);
      case ConnectStep(s, ip, p, local) => BrokenByConnect(n, s, ip, p, local);
      case CloseStep(s) => BrokenByClose(n, s);
    }
  }

  /** The code goes through with every call of the sequence, and the world is sound after each. */
  ghost predicate SoundThroughout(n: Net, steps: seq<Step>)
    requires Inv(n)
    decreases |steps|
  {
    steps == [] ||
    (&& Admitted(n, steps[0]) && Sound(Do(n, steps[0]))
     && (StepExact(n, steps[0]); StepKeepsInv(n, steps[0]); SoundThroughout(Do(n, steps[0]), steps[1..])))
  }

  /** The runs that stay sound are exactly the runs all of whose calls meet their guards. */
  lemma {:induction false} RunExact(n: Net, steps: seq<Step>)
    requires Inv(n)
    ensures SoundThroughout(n, steps) <==> Legal(n, steps)
    decreases |steps|
  {
    if steps != [] && Admitted(n, steps[0]) {
      StepExact(n, steps[0]);
      if Enabled(n, steps[0]) {
        StepKeepsInv(n, steps[0]);
        RunExact(Do(n, steps[0]), steps[1..]);
      }
    }
  }

  // ----- what a second bind does to addresses

  /** From every world with a listener nobody waits for, and a socket that reaches it: bind the
      listener again, dial its old port and accept. The accepted socket is not on the dialled port. */
  lemma RebindDisagrees(n: Net, s: SockId, l: SockId, ip: Ip, p: Port, again: Ip, q: Port, local: Port)
    requires Inv(n) && Idle(n, s) && Listener(n, l) && NothingWaits(n, l) && n.Target(s, ip, p) == Some(l)
    requires n.sockets[l].host in n.hosts && q !in n.Ports(n.sockets[l].host)
    ensures var m := n.DoBind(l, again, q);
      && s in m.sockets && m.sockets[s].host in m.hosts && l in m.sockets && m.sockets[l].host in m.hosts
      && m.sockets[l].comm.Some? && m.sockets[l].comm.value in m.comms
      && (forall i :: i in m.byIp ==> m.byIp[i] in m.hosts) && m.Target(s, ip, p) == Some(l)
      && var d := m.DoDial(s, l, ip, p, local);
         && l in d.sockets && d.sockets[l].host in d.hosts
         && d.sockets[l].comm.Some? && d.sockets[l].comm.value in d.comms
         && d.comms[d.sockets[l].comm.value].waiting == [n.nextId] && d.comms[n.nextId].sock0 in d.sockets
         && var a := d.DoAccept(l);
            && n.nextId in a.hist.dials && n.nextId in a.hist.served
            && a.hist.dials[n.nextId].port == p && a.hist.served[n.nextId].port == q != p
  {
    TargetIsListener(n, s, ip, p);
    assert SocketWired(n, s) && SocketWired(n, l);
    OwnPortUsed(n, l);
    var m := n.DoBind(l, again, q);
    assert m.Target(s, ip, p) == Some(l);
  }
}
