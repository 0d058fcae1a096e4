/** Port accounting: the port tables count exactly the sockets that use each port, at most one live
    socket is bound to a port, and a connecting client has its port to itself. */
module NetworkPorts {
  import opened Common
  import opened Network
  import opened NetworkInvariant

  /** The sockets bound to, connected from or accepted on a port and not yet released. */
  ghost function Users(n: Net, h: Host, p: Port): set<SockId> {
    set s | s in n.sockets && n.sockets[s].Registered() && n.sockets[s].host == h && n.sockets[s].port == p
  }

  ghost predicate Present(n: Net, h: Host, p: Port) {
    h in n.hosts && p in n.Ports(h)
  }

  ghost function Amount(n: Net, h: Host, p: Port): int {
    if Present(n, h, p) then n.Ports(h)[p].amount else 0
  }

  /** The table has an entry exactly when the port has users, and the entry counts them. */
  ghost predicate Counted(n: Net, h: Host, p: Port) {
    && Amount(n, h, p) == |Users(n, h, p)|
    && (Present(n, h, p) <==> Amount(n, h, p) >= 1)
  }

  /** The table entry of a bound socket's port names it, with the sides it can be reached from. */
  ghost predicate HoldsPort(n: Net, s: SockId)
    requires s in n.sockets
  {
    var k := n.sockets[s];
    && k.host in n.hosts && k.port in n.Ports(k.host)
    && var d := n.Ports(k.host)[k.port];
       && d.bind && d.bindSocket == Some(s)
       && d.local == (k.ip == ANY || k.ip == LOOPBACK) && d.remote == (k.ip != LOOPBACK)
  }

  /** A socket named by a table entry is live and bound there. */
  ghost predicate EntryBound(n: Net, h: Host, p: Port) {
    h in n.hosts && p in n.Ports(h) && n.Ports(h)[p].bindSocket.Some? ==>
      var s := n.Ports(h)[p].bindSocket.value;
      s in n.sockets && n.sockets[s].bound && n.sockets[s].host == h && n.sockets[s].port == p
  }

  /** The socket is the dialling end of a connection. */
  ghost predicate Client(n: Net, s: SockId) {
    && s in n.sockets && n.sockets[s].Connected()
    && n.sockets[s].comm.value in n.comms && n.comms[n.sockets[s].comm.value].sock0 == s
  }

  ghost predicate Alone(n: Net, s: SockId)
    requires s in n.sockets
  {
    Users(n, n.sockets[s].host, n.sockets[s].port) == {s}
  }

  ghost predicate CountsOk(n: Net) {
    forall h, p {:trigger Counted(n, h, p)} :: Counted(n, h, p)
  }

  ghost predicate BindingsOk(n: Net) {
    && (forall s {:trigger HoldsPort(n, s)} :: s in n.sockets && n.sockets[s].bound ==> HoldsPort(n, s))
    && (forall h, p {:trigger EntryBound(n, h, p)} :: EntryBound(n, h, p))
  }

  ghost predicate ClientsOk(n: Net) {
    forall s {:trigger Alone(n, s)} :: Client(n, s) ==> Alone(n, s)
  }

  ghost predicate PortsOk(n: Net) {
    CountsOk(n) && BindingsOk(n) && ClientsOk(n)
  }

  // ----- one socket joins or leaves a port

  /** m differs from n in socket s only, as far as ports are concerned. */
  ghost predicate OthersSame(n: Net, m: Net, s: SockId) {
    forall t {:trigger t in n.sockets} {:trigger t in m.sockets} :: t != s ==>
      && (t in n.sockets <==> t in m.sockets)
      && (t in n.sockets ==>
        && n.sockets[t].Registered() == m.sockets[t].Registered()
        && n.sockets[t].host == m.sockets[t].host && n.sockets[t].port == m.sockets[t].port)
  }

  lemma JoinUsers(n: Net, m: Net, s: SockId, h: Host, p: Port)
    requires OthersSame(n, m, s)
    requires s in n.sockets ==> !n.sockets[s].Registered()
    requires s in m.sockets && m.sockets[s].Registered()
    ensures Users(m, h, p) ==
      if m.sockets[s].host == h && m.sockets[s].port == p then Users(n, h, p) + {s} else Users(n, h, p)
    ensures s !in Users(n, h, p)
  {
  }

  lemma LeaveUsers(n: Net, m: Net, s: SockId, h: Host, p: Port)
    requires OthersSame(n, m, s)
    requires s in n.sockets && n.sockets[s].Registered()
    requires s !in m.sockets
    ensures Users(m, h, p) == Users(n, h, p) - {s}
    ensures s in Users(n, h, p) <==> n.sockets[s].host == h && n.sockets[s].port == p
  {
  }

  lemma SameUsers(n: Net, m: Net, h: Host, p: Port)
    requires OthersSame(n, m, n.nextId)
    requires n.nextId in n.sockets ==> !n.sockets[n.nextId].Registered()
    requires n.nextId in m.sockets ==> !m.sockets[n.nextId].Registered()
    ensures Users(m, h, p) == Users(n, h, p)
  {
  }

  // ----- register_port and unset_socket

  /** The table counts one socket more on (h, p) and is otherwise the same. */
  ghost predicate CountsUp(n: Net, m: Net, h: Host, p: Port) {
    forall g, q {:trigger Amount(m, g, q)} {:trigger Present(m, g, q)} ::
      && Amount(m, g, q) == Amount(n, g, q) + (if g == h && q == p then 1 else 0)
      && (Present(m, g, q) <==> Present(n, g, q) || (g == h && q == p))
  }

  lemma RegisterUp(n: Net, m: Net, h: Host, p: Port)
    requires h in n.hosts && m.hosts == n.Register(h, p)
    ensures CountsUp(n, m, h, p)
  {
  }

  lemma SetPortUp(n: Net, m: Net, h: Host, p: Port, d: PortDesc)
    requires h in n.hosts && p !in n.Ports(h) && d.amount == 1 && m.hosts == n.SetPort(h, p, d)
    ensures CountsUp(n, m, h, p)
  {
  }

  /** The table counts one socket less on (h, p), drops the entry with the last one, and is
      otherwise the same. */
  ghost predicate CountsDown(n: Net, m: Net, h: Host, p: Port) {
    forall g, q {:trigger Amount(m, g, q)} {:trigger Present(m, g, q)} ::
      && Amount(m, g, q) == Amount(n, g, q) - (if g == h && q == p then 1 else 0)
      && (Present(m, g, q) <==> Present(n, g, q) && !(g == h && q == p && Amount(n, g, q) == 1))
  }

  lemma UnregisterDown(n: Net, m: Net, h: Host, p: Port, s: SockId)
    requires Present(n, h, p) && m.hosts == n.Unregister(h, p, s)
    ensures CountsDown(n, m, h, p)
  {
  }

  /** Nothing about ports changed. */
  lemma QuietKeepsPorts(n: Net, m: Net)
    requires PortsOk(n) && OthersSame(n, m, n.nextId)
    requires n.nextId in n.sockets ==> !n.sockets[n.nextId].Registered()
    requires n.nextId in m.sockets ==> !m.sockets[n.nextId].Registered()
    requires m.hosts == n.hosts
    requires forall t :: t in m.sockets && t != n.nextId ==>
      n.sockets[t].bound == m.sockets[t].bound && n.sockets[t].ip == m.sockets[t].ip
    requires forall t :: Client(m, t) ==> Client(n, t)
    ensures PortsOk(m)
  {
    forall h, p ensures Counted(m, h, p) {
      assert Counted(n, h, p);
      SameUsers(n, m, h, p);
    }
    forall s | s in m.sockets && m.sockets[s].bound ensures HoldsPort(m, s) { assert HoldsPort(n, s); }
    forall h, p ensures EntryBound(m, h, p) { assert EntryBound(n, h, p); }
    forall s | Client(m, s) ensures Alone(m, s) {
      assert Alone(n, s);
      SameUsers(n, m, n.sockets[s].host, n.sockets[s].port);
    }
  }

  /** A socket that was on no port is now counted on one more. */
  lemma JoinCounts(n: Net, m: Net, s: SockId, h: Host, p: Port)
    requires CountsOk(n) && OthersSame(n, m, s) && CountsUp(n, m, h, p)
    requires s in n.sockets ==> !n.sockets[s].Registered()
    requires s in m.sockets && m.sockets[s].Registered() && m.sockets[s].host == h && m.sockets[s].port == p
    ensures CountsOk(m)
  {
    forall g, q ensures Counted(m, g, q) {
      assert Counted(n, g, q);
      JoinUsers(n, m, s, g, q);
    }
  }

  /** The other clients of a world keep their ports to themselves when s joins a port they are not on. */
  lemma JoinLeavesAlone(n: Net, m: Net, s: SockId, t: SockId)
    requires OthersSame(n, m, s) && t != s && t in n.sockets && Alone(n, t)
    requires s in n.sockets ==> !n.sockets[s].Registered()
    requires s in m.sockets && m.sockets[s].Registered()
    requires m.sockets[s].host != n.sockets[t].host || m.sockets[s].port != n.sockets[t].port
    ensures Alone(m, t)
  {
    JoinUsers(n, m, s, n.sockets[t].host, n.sockets[t].port);
  }

  lemma BindKeepsPorts(n: Net, s: SockId, ip: Ip, p: Port)
    requires Wired(n) && Configured(n) && PortsOk(n) && Enabled(n, BindStep(s, ip, p))
    ensures PortsOk(Do(n, BindStep(s, ip, p)))
  {
    var m, h := n.DoBind(s, ip, p), n.sockets[s].host;
    if p !in n.Ports(h) {
      SetPortUp(n, m, h, p, m.Ports(h)[p]);
      JoinCounts(n, m, s, h, p);
      BindKeepsBindings(n, s, ip, p);
      assert Counted(n, h, p);
      forall t | Client(m, t) ensures Alone(m, t) {
        assert Client(n, t) && Alone(n, t) && t in Users(n, n.sockets[t].host, n.sockets[t].port);
        JoinLeavesAlone(n, m, s, t);
      }
    }
  }

  lemma BindKeepsBindings(n: Net, s: SockId, ip: Ip, p: Port)
    requires s in n.sockets && n.sockets[s].host in n.hosts && !n.sockets[s].bound && BindingsOk(n)
    ensures BindingsOk(n.DoBind(s, ip, p))
  {
    var m := n.DoBind(s, ip, p);
    if p !in n.Ports(n.sockets[s].host) {
      forall t | t in m.sockets && m.sockets[t].bound ensures HoldsPort(m, t) {
        if t != s { assert HoldsPort(n, t); }
      }
      forall g, q ensures EntryBound(m, g, q) { assert EntryBound(n, g, q); }
    }
  }

  /** Counting one more socket on a port leaves the bindings alone. */
  lemma RegisterKeepsBindings(n: Net, m: Net, h: Host, p: Port)
    requires BindingsOk(n) && h in n.hosts && m.hosts == n.Register(h, p)
    requires forall t :: t in n.sockets && n.sockets[t].bound ==> t in m.sockets && m.sockets[t] == n.sockets[t]
    requires forall t :: t in m.sockets && m.sockets[t].bound ==> t in n.sockets && n.sockets[t].bound
    ensures BindingsOk(m)
  {
    forall t | t in m.sockets && m.sockets[t].bound ensures HoldsPort(m, t) { assert HoldsPort(n, t); }
    forall g, q ensures EntryBound(m, g, q) { assert EntryBound(n, g, q); }
  }

  lemma DialKeepsPorts(n: Net, s: SockId, l: SockId, ip: Ip, p: Port, local: Port)
    requires Dialling(n, s, l) && PortsOk(n) && local !in n.Ports(n.sockets[s].host)
    ensures PortsOk(n.DoDial(s, l, ip, p, local))
  {
    var m, h := n.DoDial(s, l, ip, p, local), n.sockets[s].host;
    assert OthersSame(n, m, s);
    RegisterUp(n, m, h, local);
    JoinCounts(n, m, s, h, local);
    RegisterKeepsBindings(n, m, h, local);
    assert Counted(n, h, local);
    forall t | Client(m, t) ensures Alone(m, t) {
      if t == s {
        JoinUsers(n, m, s, h, local);
      } else {
        assert SocketWired(n, t);
        assert Client(n, t) && Alone(n, t) && t in Users(n, n.sockets[t].host, n.sockets[t].port);
        JoinLeavesAlone(n, m, s, t);
      }
    }
  }

  lemma AcceptKeepsPorts(n: Net, l: SockId)
    requires Accepting(n, l) && PortsOk(n)
    ensures PortsOk(Do(n, AcceptStep(l)))
  {
    var m, h, p := Do(n, AcceptStep(l)), n.sockets[l].host, n.sockets[l].port;
    assert CommWired(n, FirstWaiting(n, l));
    assert OthersSame(n, m, n.nextId);
    RegisterUp(n, m, h, p);
    JoinCounts(n, m, n.nextId, h, p);
    RegisterKeepsBindings(n, m, h, p);
    forall t | Client(m, t) ensures Alone(m, t) {
      assert t in n.sockets;
      assert SocketWired(n, t);
      assert Client(n, t) && Alone(n, t);
      assert t != l && l in Users(n, h, p);
      JoinLeavesAlone(n, m, n.nextId, t);
    }
  }

  // ----- close

  lemma LeaveCounts(n: Net, m: Net, s: SockId)
    requires CountsOk(n) && OthersSame(n, m, s)
    requires s in n.sockets && n.sockets[s].Registered() && s !in m.sockets
    requires CountsDown(n, m, n.sockets[s].host, n.sockets[s].port)
    ensures CountsOk(m)
  {
    forall g, q ensures Counted(m, g, q) {
      assert Counted(n, g, q);
      LeaveUsers(n, m, s, g, q);
    }
  }

  /** Releasing a registered socket keeps the accounting; only its own port entry changes. */
  lemma ReleaseKeepsPorts(n: Net, s: SockId)
    requires PortsOk(n) && s in n.sockets && n.sockets[s].Registered() && n.sockets[s].host in n.hosts
    ensures PortsOk(n.Release(s))
  {
    var m, h, p := n.Release(s), n.sockets[s].host, n.sockets[s].port;
    assert Counted(n, h, p);
    assert s in Users(n, h, p);
    UnregisterDown(n, m, h, p, s);
    LeaveCounts(n, m, s);
    ReleaseKeepsBindings(n, s);
    forall t | Client(m, t) ensures Alone(m, t) {
      assert Client(n, t) && Alone(n, t) && t in Users(n, n.sockets[t].host, n.sockets[t].port);
      LeaveUsers(n, m, s, n.sockets[t].host, n.sockets[t].port);
    }
  }

  lemma ReleaseKeepsBindings(n: Net, s: SockId)
    requires BindingsOk(n) && s in n.sockets && n.sockets[s].host in n.hosts && CountsOk(n) && n.sockets[s].Registered()
    ensures BindingsOk(n.Release(s))
  {
    var m, h, p := n.Release(s), n.sockets[s].host, n.sockets[s].port;
    forall t | t in m.sockets && m.sockets[t].bound ensures HoldsPort(m, t) {
      assert HoldsPort(n, t);
      if n.sockets[t].host == h && n.sockets[t].port == p {
        assert Counted(n, h, p);
        assert {s, t} <= Users(n, h, p);
        SubsetCount({s, t}, Users(n, h, p));
      }
    }
    forall g, q ensures EntryBound(m, g, q) {
      assert EntryBound(n, g, q);
      if g == h && q == p && n.sockets[s].bound { assert HoldsPort(n, s); }
    }
  }

  /** Forgetting comms, or changing their states and queues, is of no concern to ports. */
  lemma CommsOnly(n: Net, comms: map<CommId, Comm>)
    requires PortsOk(n)
    requires forall c :: c in comms ==> c in n.comms && comms[c].sock0 == n.comms[c].sock0
    ensures PortsOk(n.(comms := comms))
  {
    var m := n.(comms := comms);
    forall g, q ensures Counted(m, g, q) {
      assert Counted(n, g, q);
      assert Users(m, g, q) == Users(n, g, q);
    }
    forall t | t in m.sockets && m.sockets[t].bound ensures HoldsPort(m, t) { assert HoldsPort(n, t); }
    forall g, q ensures EntryBound(m, g, q) { assert EntryBound(n, g, q); }
    forall t | Client(m, t) ensures Alone(m, t) {
      assert Alone(n, t);
      assert Users(m, n.sockets[t].host, n.sockets[t].port) == Users(n, n.sockets[t].host, n.sockets[t].port);
    }
  }

  /** Dropping a socket that is on no port is of no concern to ports. */
  lemma DropKeepsPorts(n: Net, s: SockId)
    requires PortsOk(n) && s in n.sockets && !n.sockets[s].Registered()
    ensures PortsOk(n.(sockets := n.sockets - {s}))
  {
    var m := n.(sockets := n.sockets - {s});
    forall g, q ensures Counted(m, g, q) {
      assert Counted(n, g, q);
      assert Users(m, g, q) == Users(n, g, q);
    }
    forall t | t in m.sockets && m.sockets[t].bound ensures HoldsPort(m, t) { assert HoldsPort(n, t); }
    forall g, q ensures EntryBound(m, g, q) { assert EntryBound(n, g, q); }
    forall t | Client(m, t) ensures Alone(m, t) {
      assert Client(n, t) && Alone(n, t);
      assert Users(m, n.sockets[t].host, n.sockets[t].port) == Users(n, n.sockets[t].host, n.sockets[t].port);
    }
  }

  lemma CloseKeepsPorts(n: Net, s: SockId)
    requires Wired(n) && Configured(n) && PortsOk(n) && Enabled(n, CloseStep(s))
    ensures PortsOk(Do(n, CloseStep(s)))
  {
    var m := Do(n, CloseStep(s));
    assert SocketWired(n, s);
    if n.sockets[s].comm.None? {
      QuietKeepsPorts(n, m);
    } else {
      var c := n.sockets[s].comm.value;
      var k := n.comms[c];
      assert CommWired(n, c);
      match k.state
      case Open =>
        QuietKeepsPorts(n, m);
      case Listening =>
        if n.sockets[s].bound {
          ReleaseKeepsPorts(n, k.sock0);
        } else {
          DropKeepsPorts(n, s);
          assert n.Release(s) == n.(sockets := n.sockets - {s});
        }
        CommsOnly(n.Release(k.sock0), n.comms - {c});
      case Closed =>
        ClosedIsJoined(n, s);
        ReleaseKeepsPorts(n, k.sock0);
        ReleaseKeepsPorts(n.Release(k.sock0), k.sock1.value);
        CommsOnly(n.Release(k.sock0).Release(k.sock1.value), n.comms - {c});
    }
  }

  lemma DetachKeepsPorts(n: Net, s: SockId)
    requires Wired(n) && PortsOk(n) && Detachable(n, s)
    ensures PortsOk(n.Detached(s))
  {
    assert SocketWired(n, s);
    forall t | Client(n.Detached(s), t) ensures Client(n, t) { assert SocketWired(n, t); }
    QuietKeepsPorts(n, n.Detached(s));
  }

  lemma ListenKeepsPorts(n: Net, s: SockId)
    requires Wired(n) && Configured(n) && PortsOk(n) && Enabled(n, ListenStep(s))
    ensures PortsOk(n.DoListen(s))
  {
    assert SocketWired(n, s);
    var m := n.DoListen(s);
    forall t | Client(m, t) ensures Client(n, t) { assert SocketWired(n, t); }
    QuietKeepsPorts(n, m);
  }

  /** What a socket without a port reaches is another one. */
  lemma ReachesListener(n: Net, s: SockId, ip: Ip, p: Port, local: Port)
    requires Wired(n) && Configured(n) && PortsOk(n) && Enabled(n, ConnectStep(s, ip, p, local)) && n.Target(s, ip, p).Some?
    ensures Detachable(n, s) && Wired(n.Detached(s)) && PortsOk(n.Detached(s)) && Configured(n.Detached(s))
    ensures var l := n.Target(s, ip, p).value;
      && s != l && Dialling(n.Detached(s), s, l) && n.Detached(s).Target(s, ip, p) == Some(l)
      && Do(n, ConnectStep(s, ip, p, local)) == n.Detached(s).DoDial(s, l, ip, p, local)
  {
    var l := n.Target(s, ip, p).value;
    TargetIsListener(n, s, ip, p);
    assert SocketWired(n, s);
    if n.sockets[s].comm.Some? { assert CommWired(n, n.sockets[s].comm.value); }
    DetachKeepsWired(n, s);
    DetachKeepsPorts(n, s);
    DialDetached(n, s, l, ip, p, local);
  }

  lemma ConnectKeepsPorts(n: Net, s: SockId, ip: Ip, p: Port, local: Port)
    requires Wired(n) && Configured(n) && PortsOk(n) && Enabled(n, ConnectStep(s, ip, p, local)) && n.Target(s, ip, p).Some?
    ensures PortsOk(Do(n, ConnectStep(s, ip, p, local)))
  {
    ReachesListener(n, s, ip, p, local);
    DialKeepsPorts(n.Detached(s), s, n.Target(s, ip, p).value, ip, p, local);
  }

  /** Every call keeps the port accounting. */
  lemma StepKeepsPorts(n: Net, step: Step)
    requires Wired(n) && Configured(n) && PortsOk(n) && Enabled(n, step)
    ensures PortsOk(Do(n, step))
  {
    match step
    case SocketStep(proc, h) => QuietKeepsPorts(n, Do(n, step));
    case BindStep(s, ip, p) => BindKeepsPorts(n, s, ip, p);
    case ListenStep(s) => ListenKeepsPorts(n, s);
    case ConnectStep(s, ip, p, local) => if n.Target(s, ip, p).Some? { ConnectKeepsPorts(n, s, ip, p, local); }
    case AcceptStep(l) => AcceptKeepsPorts(n, l);
    case SendStep(s, d) =>
      assert SocketWired(n, s);
      QuietKeepsPorts(n, Do(n, step));
    case CloseStep(s) => CloseKeepsPorts(n, s);
  }

  /** Socket l is bound where a connect of socket s to (ip, p) looks: on the same host to an address
      with the loopback side, or on the host with that address to one with the network side. */
  ghost predicate Answers(n: Net, s: SockId, l: SockId, ip: Ip, p: Port)
    requires Wired(n) && s in n.sockets
  {
    && l in n.sockets && n.sockets[l].bound && n.sockets[l].port == p
    && if ip == LOOPBACK then n.sockets[l].host == n.sockets[s].host && n.sockets[l].ip in {ANY, LOOPBACK}
       else n.hosts[n.sockets[l].host].ip == ip && n.sockets[l].ip != LOOPBACK
  }

  /** What a connect reaches is a socket bound where it looks; if it has a communication, it listens. */
  lemma TargetIsListener(n: Net, s: SockId, ip: Ip, p: Port)
    requires Wired(n) && Configured(n) && PortsOk(n) && s in n.sockets && n.Target(s, ip, p).Some?
    ensures var l := n.Target(s, ip, p).value;
      Answers(n, s, l, ip, p) && (n.sockets[l].comm.Some? ==> Listener(n, l))
  {
    var h := if ip == LOOPBACK then n.sockets[s].host else n.byIp[ip];
    assert EntryBound(n, h, p);
    var l := n.Target(s, ip, p).value;
    assert HoldsPort(n, l) && SocketWired(n, l);
    if n.sockets[l].comm.Some? { assert CommWired(n, n.sockets[l].comm.value); }
  }

  /** A connect reaches a socket exactly when that socket is bound where it looks, so it is refused
      exactly when no socket is, however many sockets share the port. */
  lemma TargetExact(n: Net, s: SockId, ip: Ip, p: Port)
    requires Wired(n) && Configured(n) && PortsOk(n) && s in n.sockets
    ensures forall l: SockId :: n.Target(s, ip, p) == Some(l) <==> Answers(n, s, l, ip, p)
    ensures n.Target(s, ip, p).None? <==> !exists l: SockId :: Answers(n, s, l, ip, p)
  {
    if n.Target(s, ip, p).Some? { TargetIsListener(n, s, ip, p); }
    forall l: SockId | Answers(n, s, l, ip, p) ensures n.Target(s, ip, p) == Some(l) { assert HoldsPort(n, l); }
  }
}
