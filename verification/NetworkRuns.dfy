/** The properties of whole runs of the socket world. */
module NetworkRuns {
  import opened Common
  import opened Network
  import opened NetworkInvariant
  import opened NetworkPorts
  import opened NetworkHistory

  ghost predicate Inv(n: Net) {
    Wired(n) && Configured(n) && PortsOk(n) && Remembered(n)
  }

  lemma StepKeepsWired(n: Net, step: Step)
    requires Wired(n) && Configured(n) && PortsOk(n) && Enabled(n, step)
    ensures Wired(Do(n, step))
  {
    match step
    case SocketStep(proc, h) => SocketKeepsWired(n, proc, h);
    case BindStep(s, ip, p) => BindKeepsWired(n, s, ip, p);
    case ListenStep(s) =>
      DetachKeepsWired(n, s);
      ListenDetached(n, s);
      ListenKeepsWired(n.Detached(s), s);
    case ConnectStep(s, ip, p, local) =>
      if n.Target(s, ip, p).Some? {
        ReachesListener(n, s, ip, p, local);
        DialKeepsWired(n.Detached(s), s, n.Target(s, ip, p).value, ip, p, local);
      }
    case AcceptStep(l) => AcceptKeepsWired(n, l);
    case SendStep(s, d) => SendKeepsWired(n, s, d);
    case CloseStep(s) => CloseKeepsWired(n, s);
  }

  lemma ConnectKeepsRemembered(n: Net, s: SockId, ip: Ip, p: Port, local: Port)
    requires Inv(n) && Enabled(n, ConnectStep(s, ip, p, local)) && n.Target(s, ip, p).Some?
    ensures Remembered(Do(n, ConnectStep(s, ip, p, local)))
  {
    var m, l := n.Detached(s), n.Target(s, ip, p).value;
    ReachesListener(n, s, ip, p, local);
    DetachKeepsRemembered(n, s);
    TargetIsListener(m, s, ip, p);
    DialKeepsRemembered(m, s, l, ip, p, local);
  }

  lemma StepKeepsRemembered(n: Net, step: Step)
    requires Inv(n) && Enabled(n, step)
    ensures Remembered(Do(n, step))
  {
    match step
    case SocketStep(proc, h) => SocketKeepsRemembered(n, proc, h);
    case BindStep(s, ip, p) => BindKeepsRemembered(n, s, ip, p);
    case ListenStep(s) =>
      DetachKeepsWired(n, s);
      DetachKeepsRemembered(n, s);
      ListenDetached(n, s);
      ListenKeepsRemembered(n.Detached(s), s);
    case ConnectStep(s, ip, p, local) => if n.Target(s, ip, p).Some? { ConnectKeepsRemembered(n, s, ip, p, local); }
    case AcceptStep(l) => AcceptKeepsRemembered(n, l);
    case SendStep(s, d) => SendKeepsRemembered(n, s, d);
    case CloseStep(s) => CloseKeepsRemembered(n, s);
  }

  /** No call changes the platform. */
  lemma StepKeepsPlatform(n: Net, step: Step)
    requires Wired(n) && Configured(n) && Enabled(n, step)
    ensures Do(n, step).byIp == n.byIp && SameIps(n.hosts, Do(n, step).hosts)
  {
    if step.CloseStep? {
      CloseKeepsHosts(n, step.s);
      assert SocketWired(n, step.s);
      if n.sockets[step.s].comm.Some? { assert CommWired(n, n.sockets[step.s].comm.value); }
    }
  }

  /** Every emulated call keeps the global invariant. */
  lemma StepKeepsInv(n: Net, step: Step)
    requires Inv(n) && Enabled(n, step)
    ensures Inv(Do(n, step))
  {
    StepKeepsWired(n, step);
    StepKeepsPorts(n, step);
    StepKeepsRemembered(n, step);
    StepKeepsPlatform(n, step);
  }

  // ----- runs

  /** The world before the first call: a platform, and nothing else. */
  ghost predicate Initial(n: Net) {
    && Configured(n) && n.sockets == map[] && n.comms == map[]
    && n.hist == History(map[], map[], map[], map[])
    && forall h :: h in n.hosts ==> n.Ports(h) == map[]
  }

  lemma InitialInv(n: Net)
    requires Initial(n)
    ensures Inv(n)
  {
    forall h, p ensures Counted(n, h, p) { assert Users(n, h, p) == {}; }
    forall l ensures AcceptedInOrder(n.hist, l) { assert Of(n.hist.accepted, l) == []; }
  }

  /** Every call of the sequence is made when its guard holds. */
  ghost predicate Legal(n: Net, steps: seq<Step>)
    requires Inv(n)
    decreases |steps|
  {
    steps == [] || (Enabled(n, steps[0]) && (StepKeepsInv(n, steps[0]); Legal(Do(n, steps[0]), steps[1..])))
  }

  ghost function After(n: Net, steps: seq<Step>): (m: Net)
    requires Inv(n) && Legal(n, steps)
    ensures Inv(m)
    decreases |steps|
  {
    if steps == [] then n else
      StepKeepsInv(n, steps[0]);
      After(Do(n, steps[0]), steps[1..])
  }

  ghost predicate Run(n: Net, steps: seq<Step>, m: Net) {
    Initial(n) && (InitialInv(n); Legal(n, steps) && After(n, steps) == m)
  }

  /** A world that some run reaches. */
  ghost predicate Reachable(m: Net) {
    exists n, steps :: Run(n, steps, m)
  }

  lemma ReachableInv(m: Net)
    requires Reachable(m)
    ensures Inv(m)
  {
    var n, steps :| Run(n, steps, m);
    InitialInv(n);
  }

  // ----- first in, first out

  /** In every run the k-th accept on a listener joins the k-th connection dialled to it, and the
      connections dialled but not accepted wait in order. */
  lemma AcceptsInDialOrder(m: Net, l: SockId)
    requires Reachable(m)
    ensures Of(m.hist.accepted, l) <= Of(m.hist.dialled, l)
    ensures l in m.sockets ==> Of(m.hist.dialled, l) == Of(m.hist.accepted, l) + Queue(m, l)
    ensures forall c :: c in Of(m.hist.dialled, l) ==> c in m.hist.dials && m.hist.dials[c].listener == l
  {
    ReachableInv(m);
    assert AcceptedInOrder(m.hist, l);
    if l in m.sockets { assert QueueRemembered(m, l); }
  }

  // ----- the two ends of a connection

  /** comm_get_peer. */
  ghost function Peer(n: Net, s: SockId): Option<SockId>
    requires s in n.sockets && n.sockets[s].comm.Some? && n.sockets[s].comm.value in n.comms
  {
    var k := n.comms[n.sockets[s].comm.value];
    if k.sock0 == s then k.sock1 else Some(k.sock0)
  }

  /** The slots comm_get_own_recv and comm_get_peer_recv select. */
  ghost function OwnSlot(n: Net, s: SockId): nat
    requires s in n.sockets && n.sockets[s].comm.Some? && n.sockets[s].comm.value in n.comms
  {
    if n.comms[n.sockets[s].comm.value].sock0 == s then 0 else 1
  }

  ghost function PeerSlot(n: Net, s: SockId): nat
    requires s in n.sockets && n.sockets[s].comm.Some? && n.sockets[s].comm.value in n.comms
  {
    if n.comms[n.sockets[s].comm.value].sock0 == s then 1 else 0
  }

  /** In every run, the two ends of an accepted connection are each other's peers, and what one
      sends goes to the slot the other receives from. */
  lemma PeersSymmetric(m: Net, c: CommId)
    requires Reachable(m) && c in m.hist.served && c in m.comms
    ensures var a, b := m.hist.dials[c].client, m.hist.served[c].server;
      && a != b && a in m.sockets && b in m.sockets && m.sockets[a].comm == m.sockets[b].comm == Some(c)
      && Peer(m, a) == Some(b) && Peer(m, b) == Some(a)
      && PeerSlot(m, a) == OwnSlot(m, b) && PeerSlot(m, b) == OwnSlot(m, a) && OwnSlot(m, a) != OwnSlot(m, b)
  {
    ReachableInv(m);
    assert CommWired(m, c) && CommRemembered(m, c);
  }

  // ----- addresses

  /** In every run, accept reports the address the client was given, which is its own host's unless it
      dialled the loopback address, and the accepted socket has the dialled port. The address of the
      accepted socket is the dialled one exactly when the listener was bound to the wildcard, the
      loopback address or its host's own address. */
  lemma AddressesAgree(m: Net, c: CommId)
    requires Reachable(m) && c in m.hist.served
    ensures c in m.hist.dials
    ensures var d, v := m.hist.dials[c], m.hist.served[c];
      && (v.reportedIp, v.reportedPort) == (d.clientIp, d.clientPort)
      && d.clientHost in m.hosts && d.clientIp == (if d.ip == LOOPBACK then LOOPBACK else m.hosts[d.clientHost].ip)
      && v.port == d.port
      && (v.ip == d.ip <==> d.listenIp in {ANY, LOOPBACK, d.hostIp})
  {
    ReachableInv(m);
    assert Home(m.hosts, m.hist.dials[c]);
    assert DialFits(m.hist.dials[c]) && ServedFits(m.hist.dials[c], m.hist.served[c]);
  }

  /** While a connection lives, its sockets carry the addresses the history records. */
  lemma LiveAddresses(m: Net, c: CommId)
    requires Reachable(m) && c in m.hist.served && c in m.comms
    ensures var d, v := m.hist.dials[c], m.hist.served[c];
      && d.client in m.sockets && v.server in m.sockets && m.sockets[d.client].host == d.clientHost
      && (m.sockets[d.client].ip, m.sockets[d.client].port) == (d.clientIp, d.clientPort)
      && (m.sockets[v.server].ip, m.sockets[v.server].port) == (v.ip, v.port)
  {
    ReachableInv(m);
    PeersSymmetric(m, c);
    assert CommWired(m, c) && CommRemembered(m, c);
  }

  ghost predicate StepsTo(n: Net, step: Step, m: Net) {
    Inv(n) && Enabled(n, step) && m == Do(n, step) && Inv(m)
  }

  /** Binding a fresh socket and listening on it makes it the target of its host's address. */
  lemma Serve(n: Net, l: SockId, ip: Ip, p: Port) returns (n1: Net, n2: Net)
    requires Inv(n) && Idle(n, l) && ip != LOOPBACK
    requires n.sockets[l].host in n.hosts && p !in n.Ports(n.sockets[l].host)
    ensures StepsTo(n, BindStep(l, ip, p), n1) && StepsTo(n1, ListenStep(l), n2)
    ensures n2.nextId == n.nextId + 1 && n2.byIp == n.byIp
    ensures n2.hosts == n.SetPort(n.sockets[l].host, p, PortDesc(1, true, ip == ANY, true, Some(l)))
    ensures n2.sockets == n.sockets[l :=
      n.sockets[l].(bound := true, ip := ip, port := p, comm := Some(n.nextId), listening := true)]
    ensures n2.comms == n.comms[n.nextId := Comm(0, 0, l, EMPTY, None, EMPTY, Listening, [])]
  {
    n1 := BindIdle(n, l, ip, p);
    n2 := ListenBound(n1, l);
  }

  lemma BindIdle(n: Net, l: SockId, ip: Ip, p: Port) returns (m: Net)
    requires Inv(n) && Idle(n, l) && ip != LOOPBACK
    requires n.sockets[l].host in n.hosts && p !in n.Ports(n.sockets[l].host)
    ensures StepsTo(n, BindStep(l, ip, p), m)
    ensures m.nextId == n.nextId && m.byIp == n.byIp && m.comms == n.comms
    ensures m.hosts == n.SetPort(n.sockets[l].host, p, PortDesc(1, true, ip == ANY, true, Some(l)))
    ensures m.sockets == n.sockets[l := n.sockets[l].(bound := true, ip := ip, port := p)]
  {
    StepKeepsInv(n, BindStep(l, ip, p));
    m := Do(n, BindStep(l, ip, p));
  }

  lemma ListenBound(n: Net, l: SockId) returns (m: Net)
    requires Inv(n) && l in n.sockets && n.sockets[l].open && n.sockets[l].comm.None?
    ensures StepsTo(n, ListenStep(l), m)
    ensures m.nextId == n.nextId + 1 && m.byIp == n.byIp && m.hosts == n.hosts
    ensures m.sockets == n.sockets[l := n.sockets[l].(comm := Some(n.nextId), listening := true)]
    ensures m.comms == n.comms[n.nextId := Comm(0, 0, l, EMPTY, None, EMPTY, Listening, [])]
  {
    StepKeepsInv(n, ListenStep(l));
    m := Do(n, ListenStep(l));
  }

  /** Dialling an idle listener and accepting records the dial and the service. */
  lemma DialAndAccept(n: Net, s: SockId, l: SockId, ip: Ip, p: Port, local: Port) returns (n1: Net, n2: Net)
    requires Inv(n) && Idle(n, s) && n.sockets[s].host in n.hosts && local !in n.Ports(n.sockets[s].host)
    requires Listener(n, l) && n.comms[n.sockets[l].comm.value].waiting == [] && n.Target(s, ip, p) == Some(l)
    ensures StepsTo(n, ConnectStep(s, ip, p, local), n1) && StepsTo(n1, AcceptStep(l), n2)
    ensures n.nextId in n2.hist.dials && n.nextId in n2.hist.served
    ensures n2.hist.dials[n.nextId].ip == ip && n2.hist.dials[n.nextId].listenIp == n.sockets[l].ip
  {
    StepKeepsInv(n, ConnectStep(s, ip, p, local));
    n1 := Do(n, ConnectStep(s, ip, p, local));
    assert n1.comms[n1.sockets[l].comm.value].waiting == [n.nextId];
    StepKeepsInv(n1, AcceptStep(l));
    n2 := Do(n1, AcceptStep(l));
  }

  /** From every world with two idle sockets, four steps lead to an accepted socket whose address is
      not the dialled one: its listener is bound to an address that is not its host's. */
  lemma ForeignBindDisagrees(n: Net, s: SockId, l: SockId, foreign: Ip, p: Port, local: Port)
    returns (n1: Net, n2: Net, n3: Net, n4: Net)
    requires Inv(n) && Idle(n, s) && Idle(n, l) && s != l
    requires n.sockets[s].host in n.hosts && local !in n.Ports(n.sockets[s].host)
    requires n.sockets[l].host in n.hosts && p !in n.Ports(n.sockets[l].host)
    requires n.sockets[s].host == n.sockets[l].host ==> local != p
    requires foreign !in {ANY, LOOPBACK, n.hosts[n.sockets[l].host].ip}
    ensures StepsTo(n, BindStep(l, foreign, p), n1) && StepsTo(n1, ListenStep(l), n2)
    ensures StepsTo(n2, ConnectStep(s, n.hosts[n.sockets[l].host].ip, p, local), n3) && StepsTo(n3, AcceptStep(l), n4)
    ensures n.nextId + 1 in n4.hist.served && n.nextId + 1 in n4.hist.dials
    ensures n4.hist.served[n.nextId + 1].ip != n4.hist.dials[n.nextId + 1].ip == n.hosts[n.sockets[l].host].ip
  {
    var ip := n.hosts[n.sockets[l].host].ip;
    n1, n2 := Serve(n, l, foreign, p);
    assert n2.Target(s, ip, p) == Some(l);
    n3, n4 := DialAndAccept(n2, s, l, ip, p, local);
    assert DialFits(n4.hist.dials[n2.nextId]) && ServedFits(n4.hist.dials[n2.nextId], n4.hist.served[n2.nextId]);
  }

  /** The peer address a connect records is the dialled one exactly when the listener was bound to
      it, or was bound to the wildcard and the dialled address is the loopback address just in case
      both ends belong to one process. */
  lemma RecordedPeerAddress(n: Net, s: SockId, l: SockId, ip: Ip, p: Port, local: Port)
    requires Inv(n) && Dialling(n, s, l) && Reaches(n, s, l, ip, p)
    ensures var k := n.DoDial(s, l, ip, p, local).comms[n.nextId];
      && k.remotePort == p
      && (k.remoteIp == ip <==>
        if n.sockets[l].ip == ANY then (ip == LOOPBACK <==> n.sockets[l].proc == n.sockets[s].proc)
        else n.sockets[l].ip == ip)
  {
    assert SocketWired(n, l);
  }

  lemma DialListener(n: Net, s: SockId, l: SockId, ip: Ip, p: Port, local: Port) returns (m: Net)
    requires Inv(n) && Idle(n, s) && n.sockets[s].host in n.hosts && local !in n.Ports(n.sockets[s].host)
    requires Listener(n, l) && n.sockets[l].host in n.hosts && n.Target(s, ip, p) == Some(l)
    ensures StepsTo(n, ConnectStep(s, ip, p, local), m)
    ensures n.nextId in m.comms && m.comms[n.nextId].remoteIp == n.RemoteIp(s, l)
  {
    StepKeepsInv(n, ConnectStep(s, ip, p, local));
    m := Do(n, ConnectStep(s, ip, p, local));
  }

  /** A wildcard listener is reached over the loopback address, but goes by its host's address for
      other processes. */
  lemma ServeWildcard(n: Net, s: SockId, l: SockId, p: Port, local: Port) returns (n1: Net, n2: Net)
    requires Inv(n) && Idle(n, s) && Idle(n, l)
    requires n.sockets[s].proc != n.sockets[l].proc && n.sockets[s].host == n.sockets[l].host
    requires n.sockets[s].host in n.hosts && local != p
    requires local !in n.Ports(n.sockets[s].host) && p !in n.Ports(n.sockets[s].host)
    ensures StepsTo(n, BindStep(l, ANY, p), n1) && StepsTo(n1, ListenStep(l), n2) && n2.nextId == n.nextId + 1
    ensures Idle(n2, s) && n2.sockets[s].host in n2.hosts && local !in n2.Ports(n2.sockets[s].host)
    ensures Listener(n2, l) && n2.sockets[l].host in n2.hosts
    ensures n2.Target(s, LOOPBACK, p) == Some(l) && n2.RemoteIp(s, l) != LOOPBACK
  {
    n1, n2 := Serve(n, l, ANY, p);
  }

  /** From every world with two idle sockets of different processes on one host, three steps lead to a
      connection to the loopback address that records another peer address. */
  lemma WildcardPeerDisagrees(n: Net, s: SockId, l: SockId, p: Port, local: Port)
    returns (n1: Net, n2: Net, n3: Net)
    requires Inv(n) && Idle(n, s) && Idle(n, l)
    requires n.sockets[s].proc != n.sockets[l].proc && n.sockets[s].host == n.sockets[l].host
    requires n.sockets[s].host in n.hosts && local != p
    requires local !in n.Ports(n.sockets[s].host) && p !in n.Ports(n.sockets[s].host)
    ensures StepsTo(n, BindStep(l, ANY, p), n1) && StepsTo(n1, ListenStep(l), n2)
    ensures StepsTo(n2, ConnectStep(s, LOOPBACK, p, local), n3)
    ensures n.nextId + 1 in n3.comms && n3.comms[n.nextId + 1].remoteIp != LOOPBACK
  {
    n1, n2 := ServeWildcard(n, s, l, p, local);
    n3 := DialListener(n2, s, l, LOOPBACK, p, local);
  }

  // ----- ports

  /** In every run, a port has a table entry exactly when sockets use it, the entry counts them, and
      at most one of them is bound there. */
  lemma PortAccounting(m: Net, h: Host, p: Port)
    requires Reachable(m) && h in m.hosts
    ensures p in m.Ports(h) <==> Users(m, h, p) != {}
    ensures p in m.Ports(h) ==> m.Ports(h)[p].amount == |Users(m, h, p)|
    ensures forall s, t :: s in Users(m, h, p) && t in Users(m, h, p) && m.sockets[s].bound && m.sockets[t].bound ==> s == t
  {
    ReachableInv(m);
    assert Counted(m, h, p);
    forall s, t | s in Users(m, h, p) && t in Users(m, h, p) && m.sockets[s].bound && m.sockets[t].bound ensures s == t {
      assert HoldsPort(m, s) && HoldsPort(m, t);
    }
  }

  /** In every run, connected clients of one host have distinct local ports. */
  lemma ClientPortsDistinct(m: Net, s: SockId, t: SockId)
    requires Reachable(m) && Client(m, s) && t in m.sockets && m.sockets[t].Registered() && s != t
    ensures m.sockets[s].host != m.sockets[t].host || m.sockets[s].port != m.sockets[t].port
  {
    ReachableInv(m);
    assert Alone(m, s);
    assert t in Users(m, m.sockets[t].host, m.sockets[t].port);
  }

  /** Closing the socket bound to a port gives up its place there exactly when it was listening. */
  lemma BoundClose(n: Net, s: SockId)
    requires Inv(n) && Enabled(n, CloseStep(s)) && n.sockets[s].bound
    ensures var m := Do(n, CloseStep(s));
      Users(m, n.sockets[s].host, n.sockets[s].port) ==
        if n.sockets[s].comm.Some? then Users(n, n.sockets[s].host, n.sockets[s].port) - {s}
        else Users(n, n.sockets[s].host, n.sockets[s].port)
  {
    assert SocketWired(n, s);
    if n.sockets[s].comm.Some? { assert CommWired(n, n.sockets[s].comm.value); }
  }

  /** A socket that was bound and closed without ever listening. */
  ghost predicate Abandoned(n: Net, s: SockId) {
    s in n.sockets && n.sockets[s].bound && n.sockets[s].comm.None? && !n.sockets[s].open
  }

  lemma AbandonedStays(n: Net, step: Step, s: SockId)
    requires Inv(n) && Enabled(n, step) && Abandoned(n, s)
    ensures s in Do(n, step).sockets && Do(n, step).sockets[s] == n.sockets[s]
  {
    if step.CloseStep? {
      assert SocketWired(n, step.s);
      if n.sockets[step.s].comm.Some? { assert CommWired(n, n.sockets[step.s].comm.value); }
    }
  }

  /** An abandoned socket occupies its port in every continuation. */
  lemma {:induction false} AbandonedForever(n: Net, steps: seq<Step>, s: SockId)
    requires Inv(n) && Legal(n, steps) && Abandoned(n, s)
    ensures var m := After(n, steps);
      Abandoned(m, s) && m.sockets[s].host in m.hosts && m.sockets[s].port in m.Ports(m.sockets[s].host)
    decreases |steps|
  {
    if steps == [] {
      assert Counted(n, n.sockets[s].host, n.sockets[s].port) && SocketWired(n, s);
      assert s in Users(n, n.sockets[s].host, n.sockets[s].port);
    } else {
      StepKeepsInv(n, steps[0]);
      AbandonedStays(n, steps[0], s);
      AbandonedForever(Do(n, steps[0]), steps[1..], s);
    }
  }

  // ----- data

  /** Accepting a connection keeps what its client had already sent. */
  lemma AcceptKeepsData(n: Net, l: SockId)
    requires Inv(n) && Enabled(n, AcceptStep(l))
    ensures var m, c := Do(n, AcceptStep(l)), FirstWaiting(n, l);
      c in m.comms && m.comms[c].recv0 == n.comms[c].recv0 && m.comms[c].recv1 == n.comms[c].recv1
  {
    var c := FirstWaiting(n, l);
    assert CommWired(n, n.sockets[l].comm.value) && CommWired(n, c);
  }

  /** A send changes no other connection, no socket and no port table. */
  lemma SendIsLocal(n: Net, s: SockId, d: Data)
    requires Inv(n) && Enabled(n, SendStep(s, d))
    ensures var m := Do(n, SendStep(s, d));
      && m.sockets == n.sockets && m.hosts == n.hosts && m.comms.Keys == n.comms.Keys
      && forall c :: c in n.comms && n.sockets[s].comm != Some(c) ==> m.comms[c] == n.comms[c]
  {
    assert SocketWired(n, s);
  }

  // ----- end of a connection

  /** In every run, a connection lives as long as one of its ends is open: the last close releases
      both sockets. */
  lemma AliveWhileOpen(m: Net, c: CommId)
    requires Reachable(m) && c in m.hist.served && c in m.comms
    ensures m.hist.dials[c].client in m.sockets && m.hist.served[c].server in m.sockets
    ensures m.sockets[m.hist.dials[c].client].open || m.sockets[m.hist.served[c].server].open
  {
    ReachableInv(m);
    PeersSymmetric(m, c);
    assert CommWired(m, c) && CommRemembered(m, c);
  }

  lemma LastCloseReleases(n: Net, s: SockId)
    requires Inv(n) && Enabled(n, CloseStep(s)) && n.sockets[s].Connected()
    ensures n.sockets[s].comm.value in n.comms && Peer(n, s).Some? && Peer(n, s).value in n.sockets
    ensures var m, t, c := Do(n, CloseStep(s)), Peer(n, s).value, n.sockets[s].comm.value;
      if n.sockets[t].open then c in m.comms && s in m.sockets && t in m.sockets
      else c !in m.comms && s !in m.sockets && t !in m.sockets
  {
    var c := n.sockets[s].comm.value;
    assert SocketWired(n, s) && CommWired(n, c);
    if n.comms[c].state == Closed { ClosedIsJoined(n, s); }
  }
}
