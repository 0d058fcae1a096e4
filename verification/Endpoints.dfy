/** The network as its programs see it: endpoints with an owner, an address, a role and what they have
    sent. There are no communications, no slots and no port tables here. The socket world is proved to
    behave like this network, call by call and over every run. */
module Endpoints {
  import opened Common
  import opened Network
  import opened NetworkInvariant
  import opened NetworkPorts
  import opened NetworkHistory
  import opened NetworkRuns

  datatype Role =
    | Unused
    | Bound
    | Listens(bound: bool, backlog: seq<SockId>)
    | Waits(listener: SockId)
    | Linked(peer: SockId)

  datatype Endpoint = Endpoint(proc: Proc, host: Host, ip: Ip, port: Port, open: bool, role: Role, sent: seq<Data>)

  /** The endpoints, the addresses of the hosts, and the next identifier to be given out. */
  datatype View = View(ends: map<SockId, Endpoint>, addr: map<Host, Ip>, next: nat)

  // ----- the calls

  /** The endpoint occupies port p of host h. */
  predicate Holds(e: Endpoint, h: Host, p: Port) {
    e.host == h && e.port == p && e.role != Unused && (e.role.Listens? ==> e.role.bound)
  }

  ghost predicate InUse(v: View, h: Host, p: Port) {
    exists t :: t in v.ends && Holds(v.ends[t], h, p)
  }

  /** A connect of endpoint s to (ip, p) finds endpoint l. */
  ghost predicate Finds(v: View, s: SockId, l: SockId, ip: Ip, p: Port) {
    && s in v.ends && l in v.ends && (v.ends[l].role.Bound? || (v.ends[l].role.Listens? && v.ends[l].role.bound))
    && v.ends[l].port == p
    && if ip == LOOPBACK then v.ends[l].host == v.ends[s].host && v.ends[l].ip in {ANY, LOOPBACK}
       else v.ends[l].host in v.addr && v.addr[v.ends[l].host] == ip && v.ends[l].ip != LOOPBACK
  }

  /** The endpoints a call names exist. */
  ghost predicate Ready(v: View, step: Step) {
    match step
    case SocketStep(_, h) => h in v.addr
    case BindStep(s, _, _) => s in v.ends
    case ListenStep(s) => s in v.ends
    case ConnectStep(s, _, _, _) => s in v.ends && v.ends[s].host in v.addr
    case AcceptStep(l) =>
      && l in v.ends && v.ends[l].host in v.addr && v.ends[l].role.Listens?
      && v.ends[l].role.backlog != [] && v.ends[l].role.backlog[0] in v.ends
    case SendStep(s, _) => s in v.ends
    case CloseStep(s) => s in v.ends
  }

  /** The endpoint with an address of its own. */
  function Named(e: Endpoint, ip: Ip, p: Port): Endpoint {
    e.(ip := ip, port := p, role := if e.role.Listens? then Listens(true, e.role.backlog) else Bound)
  }

  function Opened(e: Endpoint): Endpoint {
    e.(role := Listens(e.role.Bound? || (e.role.Listens? && e.role.bound), []))
  }

  function Calling(e: Endpoint, l: SockId, ip: Ip, p: Port): Endpoint {
    e.(ip := ip, port := p, role := Waits(l))
  }

  function Called(e: Endpoint, s: SockId): Endpoint {
    if e.role.Listens? then e.(role := Listens(e.role.bound, e.role.backlog + [s])) else e
  }

  /** The address a client is given. */
  function OwnIp(v: View, s: SockId, ip: Ip): Ip
    requires s in v.ends && v.ends[s].host in v.addr
  {
    if ip == LOOPBACK then LOOPBACK else v.addr[v.ends[s].host]
  }

  /** Endpoint s calls listener l. */
  function Rung(v: View, s: SockId, l: SockId, ip: Ip, local: Port): View
    requires s in v.ends && v.ends[s].host in v.addr && l in v.ends
  {
    v.(ends := v.ends[s := Calling(v.ends[s], l, OwnIp(v, s, ip), local)][l := Called(v.ends[l], s)],
       next := v.next + 1)
  }

  /** What accept makes for listener e and client a. */
  function Serving(v: View, e: Endpoint, a: SockId): Endpoint
    requires a in v.ends && e.host in v.addr
  {
    var ip := if e.ip != ANY then e.ip else if v.ends[a].ip == LOOPBACK then LOOPBACK else v.addr[e.host];
    Endpoint(e.proc, e.host, ip, e.port, true, Linked(a), [])
  }

  ghost function Next(v: View, step: Step): View
    requires Ready(v, step)
  {
    match step
    case SocketStep(proc, h) =>
      v.(ends := v.ends[v.next := Endpoint(proc, h, 0xFFFF_FFFF, 0, true, Unused, [])], next := v.next + 1)
    case BindStep(s, ip, p) =>
      if InUse(v, v.ends[s].host, p) then v else v.(ends := v.ends[s := Named(v.ends[s], ip, p)])
    case ListenStep(s) =>
      v.(ends := v.ends[s := Opened(v.ends[s])], next := v.next + 1)
    case ConnectStep(s, ip, p, local) =>
      if l: SockId :| Finds(v, s, l, ip, p) then Rung(v, s, l, ip, local) else v
    case AcceptStep(l) =>
      var e := v.ends[l];
      var a := e.role.backlog[0];
      v.(ends := v.ends[l := e.(role := Listens(e.role.bound, e.role.backlog[1..]))]
                       [a := v.ends[a].(role := Linked(v.next))]
                       [v.next := Serving(v, e, a)],
         next := v.next + 1)
    case SendStep(s, d) =>
      v.(ends := v.ends[s := v.ends[s].(sent := v.ends[s].sent + [d])])
    case CloseStep(s) =>
      var e := v.ends[s];
      if e.role.Listens? then v.(ends := v.ends - {s})
      else if e.role.Linked? && e.role.peer in v.ends && !v.ends[e.role.peer].open then
        v.(ends := v.ends - {s, e.role.peer})
      else v.(ends := v.ends[s := e.(open := false)])
  }

  // ----- the socket world seen as endpoints

  ghost predicate Sound(n: Net, s: SockId) {
    s in n.sockets && (n.sockets[s].comm.Some? ==> n.sockets[s].comm.value in n.comms)
  }

  ghost function Dialler(n: Net, c: CommId): SockId {
    if c in n.comms then n.comms[c].sock0 else 0
  }

  /** The clients whose connections wait in the queue. */
  ghost function Clients(n: Net, queue: seq<CommId>): seq<SockId> {
    seq(|queue|, i requires 0 <= i < |queue| => Dialler(n, queue[i]))
  }

  ghost function RoleOf(n: Net, s: SockId): Role
    requires Sound(n, s)
  {
    if n.sockets[s].comm.None? then (if n.sockets[s].bound then Bound else Unused)
    else
      var c := n.sockets[s].comm.value;
      var k := n.comms[c];
      if n.sockets[s].listening then Listens(n.sockets[s].bound, Clients(n, k.waiting))
      else if k.sock0 != s then Linked(k.sock0)
      else if k.sock1.None? then Unused
      else if Joined(n, c) then Linked(k.sock1.value)
      else Waits(k.sock1.value)
  }

  /** What the socket has sent: the data in the receive queue of the other slot. */
  ghost function Posted(n: Net, s: SockId): seq<Data>
    requires Sound(n, s)
  {
    if !n.sockets[s].Connected() then []
    else if n.comms[n.sockets[s].comm.value].sock0 == s then n.comms[n.sockets[s].comm.value].recv1.data
    else n.comms[n.sockets[s].comm.value].recv0.data
  }

  ghost function EndOf(n: Net, s: SockId): Endpoint
    requires Sound(n, s)
  {
    var k := n.sockets[s];
    Endpoint(k.proc, k.host, k.ip, k.port, k.open, RoleOf(n, s), Posted(n, s))
  }

  ghost function EndsOf(n: Net): (ends: map<SockId, Endpoint>)
    requires Wired(n)
  {
    assert forall s :: s in n.sockets ==> SocketWired(n, s);
    map s | s in n.sockets :: EndOf(n, s)
  }

  ghost function Seen(n: Net): View
    requires Wired(n)
  {
    View(EndsOf(n), map h | h in n.hosts :: n.hosts[h].ip, n.nextId)
  }

  lemma EndsAre(m: Net, ends: map<SockId, Endpoint>)
    requires Wired(m) && ends.Keys == m.sockets.Keys
    requires forall t :: t in m.sockets ==> Sound(m, t) && EndOf(m, t) == ends[t]
    ensures EndsOf(m) == ends
  {
  }

  lemma SameAddresses(n: Net, m: Net)
    requires Wired(n) && Wired(m) && SameIps(n.hosts, m.hosts)
    ensures Seen(n).addr == Seen(m).addr
  {
  }

  /** The connection of a socket has the same ends and the same clients waiting. */
  ghost predicate Alike(n: Net, m: Net, c: CommId) {
    && c in n.comms && c in m.comms && m.comms[c].sock0 == n.comms[c].sock0 && m.comms[c].sock1 == n.comms[c].sock1
    && m.comms[c].waiting == n.comms[c].waiting && Joined(m, c) == Joined(n, c)
    && forall w :: w in n.comms[c].waiting ==> Dialler(m, w) == Dialler(n, w)
  }

  lemma EndFrame(n: Net, m: Net, t: SockId)
    requires Sound(n, t) && t in m.sockets && m.sockets[t] == n.sockets[t]
    requires n.sockets[t].comm.Some? ==> Alike(n, m, n.sockets[t].comm.value)
    requires n.sockets[t].Connected() ==>
      var c := n.sockets[t].comm.value;
      if n.comms[c].sock0 == t then m.comms[c].recv1.data == n.comms[c].recv1.data
      else m.comms[c].recv0.data == n.comms[c].recv0.data
    ensures Sound(m, t) && EndOf(m, t) == EndOf(n, t)
  {
    if n.sockets[t].comm.Some? {
      var q := n.comms[n.sockets[t].comm.value].waiting;
      assert Clients(m, q) == Clients(n, q);
    }
  }

  // ----- socket

  lemma SocketSeenAt(n: Net, proc: Proc, h: Host, t: SockId)
    requires Wired(n) && t in n.sockets
    ensures Sound(n, t) && Sound(n.DoSocket(proc, h), t) && EndOf(n.DoSocket(proc, h), t) == EndOf(n, t)
  {
    assert SocketWired(n, t);
    if n.sockets[t].comm.Some? {
      assert CommWired(n, n.sockets[t].comm.value);
      assert Alike(n, n.DoSocket(proc, h), n.sockets[t].comm.value);
    }
    EndFrame(n, n.DoSocket(proc, h), t);
  }

  lemma SocketSeen(n: Net, proc: Proc, h: Host)
    requires Wired(n) && Configured(n) && h in n.hosts
    ensures Wired(n.DoSocket(proc, h)) && Ready(Seen(n), SocketStep(proc, h))
    ensures Seen(n.DoSocket(proc, h)) == Next(Seen(n), SocketStep(proc, h))
  {
    var m := n.DoSocket(proc, h);
    SocketKeepsWired(n, proc, h);
    forall t | t in n.sockets ensures Sound(m, t) && EndOf(m, t) == EndOf(n, t) { SocketSeenAt(n, proc, h, t); }
    EndsAre(m, Next(Seen(n), SocketStep(proc, h)).ends);
  }

  // ----- send

  lemma SendSeenAt(n: Net, s: SockId, d: Data, t: SockId)
    requires Wired(n) && Configured(n) && Enabled(n, SendStep(s, d)) && t in n.sockets
    ensures var m := Do(n, SendStep(s, d));
      && Sound(m, t) && Sound(n, t)
      && EndOf(m, t) == if t == s then EndOf(n, t).(sent := EndOf(n, t).sent + [d]) else EndOf(n, t)
  {
    var m := Do(n, SendStep(s, d));
    assert SocketWired(n, s) && SocketWired(n, t);
    var c := n.sockets[s].comm.value;
    assert CommWired(n, c);
    if t != s {
      if n.sockets[t].comm.Some? { assert Alike(n, m, n.sockets[t].comm.value); }
      EndFrame(n, m, t);
    } else {
      assert Clients(m, n.comms[c].waiting) == Clients(n, n.comms[c].waiting);
    }
  }

  lemma SendSeen(n: Net, s: SockId, d: Data)
    requires Wired(n) && Configured(n) && Enabled(n, SendStep(s, d))
    ensures Wired(Do(n, SendStep(s, d))) && Ready(Seen(n), SendStep(s, d))
    ensures Seen(Do(n, SendStep(s, d))) == Next(Seen(n), SendStep(s, d))
  {
    var m := Do(n, SendStep(s, d));
    SendKeepsWired(n, s, d);
    assert SocketWired(n, s);
    forall t | t in n.sockets ensures Sound(m, t) && EndOf(m, t) == Next(Seen(n), SendStep(s, d)).ends[t] {
      SendSeenAt(n, s, d, t);
    }
    EndsAre(m, Next(Seen(n), SendStep(s, d)).ends);
  }

  // ----- bind

  /** A port has a table entry exactly when an endpoint occupies it. */
  lemma InUseExact(n: Net, h: Host, p: Port)
    requires Wired(n) && PortsOk(n) && h in n.hosts
    ensures InUse(Seen(n), h, p) <==> p in n.Ports(h)
  {
    assert Counted(n, h, p);
    forall t | t in n.sockets ensures t in Users(n, h, p) <==> Holds(Seen(n).ends[t], h, p) {
      assert SocketWired(n, t);
      if n.sockets[t].comm.Some? { assert CommWired(n, n.sockets[t].comm.value); }
    }
    if Users(n, h, p) == {} {
      assert forall t :: t in n.sockets ==> t !in Users(n, h, p);
    } else {
      var t :| t in Users(n, h, p);
      assert t in Seen(n).ends;
    }
  }

  lemma BindSeenAt(n: Net, s: SockId, ip: Ip, p: Port, t: SockId)
    requires Wired(n) && Configured(n) && Enabled(n, BindStep(s, ip, p)) && t in n.sockets
    requires n.sockets[s].host in n.hosts && p !in n.Ports(n.sockets[s].host)
    ensures Sound(n, t) && Sound(n.DoBind(s, ip, p), t)
    ensures EndOf(n.DoBind(s, ip, p), t) == if t == s then Named(EndOf(n, t), ip, p) else EndOf(n, t)
  {
    var m := n.DoBind(s, ip, p);
    assert SocketWired(n, t);
    if n.sockets[t].comm.Some? {
      var c := n.sockets[t].comm.value;
      assert CommWired(n, c);
      assert Alike(n, m, c);
      assert Clients(m, n.comms[c].waiting) == Clients(n, n.comms[c].waiting);
    }
    if t != s { EndFrame(n, m, t); }
  }

  lemma BindSeen(n: Net, s: SockId, ip: Ip, p: Port)
    requires Wired(n) && Configured(n) && PortsOk(n) && Enabled(n, BindStep(s, ip, p))
    ensures Wired(Do(n, BindStep(s, ip, p))) && Ready(Seen(n), BindStep(s, ip, p))
    ensures Seen(Do(n, BindStep(s, ip, p))) == Next(Seen(n), BindStep(s, ip, p))
  {
    var m := Do(n, BindStep(s, ip, p));
    BindKeepsWired(n, s, ip, p);
    InUseExact(n, n.sockets[s].host, p);
    if p !in n.Ports(n.sockets[s].host) {
      forall t | t in n.sockets ensures Sound(m, t) && EndOf(m, t) == Next(Seen(n), BindStep(s, ip, p)).ends[t] {
        BindSeenAt(n, s, ip, p, t);
      }
      EndsAre(m, Next(Seen(n), BindStep(s, ip, p)).ends);
      SameAddresses(n, m);
    }
  }

  // ----- listen

  /** Giving up its own listening communication is seen by nobody else. */
  lemma DetachSeenAt(n: Net, s: SockId, t: SockId)
    requires Wired(n) && Detachable(n, s) && t in n.sockets && t != s
    ensures Sound(n, t) && Sound(n.Detached(s), t) && EndOf(n.Detached(s), t) == EndOf(n, t)
  {
    assert SocketWired(n, t) && SocketWired(n, s);
    if n.sockets[s].comm.Some? { assert CommWired(n, n.sockets[s].comm.value); }
    if n.sockets[t].comm.Some? {
      assert CommWired(n, n.sockets[t].comm.value);
      assert Alike(n, n.Detached(s), n.sockets[t].comm.value);
    }
    EndFrame(n, n.Detached(s), t);
  }

  lemma ListenSeenAt(n: Net, s: SockId, t: SockId)
    requires Wired(n) && s in n.sockets && n.sockets[s].comm.None? && t in n.sockets
    ensures Sound(n, t) && Sound(n.DoListen(s), t)
    ensures t != s ==> EndOf(n.DoListen(s), t) == EndOf(n, t)
    ensures t == s ==> EndOf(n.DoListen(s), t) == EndOf(n, t).(role := Listens(n.sockets[s].bound, []))
  {
    var m := n.DoListen(s);
    assert SocketWired(n, t);
    if t != s {
      if n.sockets[t].comm.Some? {
        assert CommWired(n, n.sockets[t].comm.value);
        assert Alike(n, m, n.sockets[t].comm.value);
      }
      EndFrame(n, m, t);
    } else {
      assert Clients(m, []) == [];
    }
  }

  lemma RelistenSeenAt(n: Net, s: SockId, t: SockId)
    requires Wired(n) && Detachable(n, s) && t in n.sockets
    ensures Sound(n, t) && Sound(n.DoListen(s), t)
    ensures EndOf(n.DoListen(s), t) == if t == s then Opened(EndOf(n, t)) else EndOf(n, t)
  {
    assert SocketWired(n, s);
    DetachKeepsWired(n, s);
    ListenDetached(n, s);
    if t != s { DetachSeenAt(n, s, t); }
    ListenSeenAt(n.Detached(s), s, t);
  }

  lemma ListenKeepsAll(n: Net, s: SockId)
    requires Wired(n) && Configured(n) && Enabled(n, ListenStep(s))
    ensures Wired(n.DoListen(s))
  {
    DetachKeepsWired(n, s);
    ListenDetached(n, s);
    ListenKeepsWired(n.Detached(s), s);
  }

  lemma ListenSeen(n: Net, s: SockId)
    requires Wired(n) && Configured(n) && Enabled(n, ListenStep(s))
    ensures Wired(n.DoListen(s)) && Ready(Seen(n), ListenStep(s))
    ensures Seen(n.DoListen(s)) == Next(Seen(n), ListenStep(s))
  {
    ListenKeepsAll(n, s);
    forall t | t in n.sockets
      ensures Sound(n.DoListen(s), t) && EndOf(n.DoListen(s), t) == Next(Seen(n), ListenStep(s)).ends[t]
    {
      RelistenSeenAt(n, s, t);
    }
    EndsAre(n.DoListen(s), Next(Seen(n), ListenStep(s)).ends);
  }

  // ----- connect

  /** A connect finds the endpoint that the port tables name. */
  lemma FindsExact(n: Net, s: SockId, l: SockId, ip: Ip, p: Port)
    requires Wired(n) && Configured(n) && PortsOk(n) && s in n.sockets
    ensures Finds(Seen(n), s, l, ip, p) <==> n.Target(s, ip, p) == Some(l)
  {
    TargetExact(n, s, ip, p);
    if l in n.sockets {
      assert SocketWired(n, l);
      if n.sockets[l].comm.Some? { assert CommWired(n, n.sockets[l].comm.value); }
    }
  }

  lemma DialSeenAt(n: Net, s: SockId, l: SockId, ip: Ip, p: Port, local: Port, t: SockId)
    requires Dialling(n, s, l) && t in n.sockets
    ensures Sound(n, t) && Sound(n.DoDial(s, l, ip, p, local), t)
    ensures EndOf(n.DoDial(s, l, ip, p, local), t) ==
      if t == s then Calling(EndOf(n, t), l, OwnIp(Seen(n), s, ip), local)
      else if t == l then Called(EndOf(n, t), s)
      else EndOf(n, t)
  {
    var m, lc := n.DoDial(s, l, ip, p, local), n.sockets[l].comm.value;
    assert SocketWired(n, t) && SocketWired(n, l) && CommWired(n, lc);
    if t == l {
      DialSeenQueue(n, m, n.comms[lc].waiting, n.nextId, s);
    } else if t != s {
      if n.sockets[t].comm.Some? {
        assert CommWired(n, n.sockets[t].comm.value);
        assert Alike(n, m, n.sockets[t].comm.value);
      }
      EndFrame(n, m, t);
    }
  }

  lemma DialSeenQueue(n: Net, m: Net, queue: seq<CommId>, c: CommId, s: SockId)
    requires c in m.comms && m.comms[c].sock0 == s
    requires forall w :: w in queue ==> Dialler(m, w) == Dialler(n, w)
    ensures Clients(m, queue + [c]) == Clients(n, queue) + [s]
  {
  }

  lemma ConnectSeenAt(n: Net, s: SockId, l: SockId, ip: Ip, p: Port, local: Port, t: SockId)
    requires Wired(n) && Detachable(n, s) && Dialling(n.Detached(s), s, l) && s != l && t in n.sockets
    ensures Sound(n, t) && Sound(n.Detached(s).DoDial(s, l, ip, p, local), t)
    ensures EndOf(n.Detached(s).DoDial(s, l, ip, p, local), t) ==
      if t == s then Calling(EndOf(n, t), l, OwnIp(Seen(n), s, ip), local)
      else if t == l then Called(EndOf(n, t), s)
      else EndOf(n, t)
  {
    assert SocketWired(n, s);
    if t != s { DetachSeenAt(n, s, t); }
    DialSeenAt(n.Detached(s), s, l, ip, p, local, t);
  }

  lemma TwoChanged(n: Net, m: Net, s: SockId, l: SockId, own: Ip, local: Port)
    requires Wired(n) && Wired(m) && m.sockets.Keys == n.sockets.Keys && s in n.sockets && l in n.sockets && s != l
    requires forall t :: t in n.sockets ==>
      && Sound(n, t) && Sound(m, t)
      && EndOf(m, t) ==
        if t == s then Calling(EndOf(n, t), l, own, local) else if t == l then Called(EndOf(n, t), s) else EndOf(n, t)
    ensures EndsOf(m) == EndsOf(n)[s := Calling(EndsOf(n)[s], l, own, local)][l := Called(EndsOf(n)[l], s)]
  {
  }

  lemma ConnectEnds(n: Net, s: SockId, l: SockId, ip: Ip, p: Port, local: Port)
    requires Wired(n) && Detachable(n, s) && Dialling(n.Detached(s), s, l) && s != l
    requires Wired(n.Detached(s).DoDial(s, l, ip, p, local))
    ensures EndsOf(n.Detached(s).DoDial(s, l, ip, p, local)) ==
      EndsOf(n)[s := Calling(EndsOf(n)[s], l, OwnIp(Seen(n), s, ip), local)][l := Called(EndsOf(n)[l], s)]
  {
    var m, own := n.Detached(s).DoDial(s, l, ip, p, local), OwnIp(Seen(n), s, ip);
    forall t | t in n.sockets
      ensures Sound(n, t) && Sound(m, t)
      ensures EndOf(m, t) ==
        if t == s then Calling(EndOf(n, t), l, own, local) else if t == l then Called(EndOf(n, t), s) else EndOf(n, t)
    {
      ConnectSeenAt(n, s, l, ip, p, local, t);
    }
    TwoChanged(n, m, s, l, own, local);
  }

  lemma ConnectReached(n: Net, s: SockId, l: SockId, ip: Ip, p: Port, local: Port)
    requires Wired(n) && Detachable(n, s) && Dialling(n.Detached(s), s, l) && s != l
    requires Wired(n.Detached(s).DoDial(s, l, ip, p, local))
    ensures Seen(n.Detached(s).DoDial(s, l, ip, p, local)) == Rung(Seen(n), s, l, ip, local)
  {
    ConnectEnds(n, s, l, ip, p, local);
    SameAddresses(n, n.Detached(s).DoDial(s, l, ip, p, local));
  }

  lemma ConnectFinds(n: Net, s: SockId, ip: Ip, p: Port, local: Port)
    requires Wired(n) && Configured(n) && PortsOk(n) && s in n.sockets
    ensures Ready(Seen(n), ConnectStep(s, ip, p, local))
    ensures n.Target(s, ip, p).Some? ==> n.Target(s, ip, p).value in n.sockets
    ensures Next(Seen(n), ConnectStep(s, ip, p, local)) ==
      if n.Target(s, ip, p).None? then Seen(n) else Rung(Seen(n), s, n.Target(s, ip, p).value, ip, local)
  {
    assert SocketWired(n, s);
    forall l: SockId ensures Finds(Seen(n), s, l, ip, p) <==> n.Target(s, ip, p) == Some(l) {
      FindsExact(n, s, l, ip, p);
    }
    if n.Target(s, ip, p).Some? { assert Finds(Seen(n), s, n.Target(s, ip, p).value, ip, p); }
  }

  lemma ConnectSeen(n: Net, s: SockId, ip: Ip, p: Port, local: Port)
    requires Wired(n) && Configured(n) && PortsOk(n) && Enabled(n, ConnectStep(s, ip, p, local))
    ensures Wired(Do(n, ConnectStep(s, ip, p, local))) && Ready(Seen(n), ConnectStep(s, ip, p, local))
    ensures Seen(Do(n, ConnectStep(s, ip, p, local))) == Next(Seen(n), ConnectStep(s, ip, p, local))
  {
    ConnectFinds(n, s, ip, p, local);
    if n.Target(s, ip, p).Some? {
      ReachesListener(n, s, ip, p, local);
      DialKeepsWired(n.Detached(s), s, n.Target(s, ip, p).value, ip, p, local);
      ConnectReached(n, s, n.Target(s, ip, p).value, ip, p, local);
    }
  }

  // ----- accept

  lemma AcceptSeenAt(n: Net, l: SockId, t: SockId)
    requires Accepting(n, l) && t in n.sockets
    ensures Sound(n, t) && Sound(n, l) && Sound(Do(n, AcceptStep(l)), t)
    ensures EndOf(Do(n, AcceptStep(l)), t) ==
      if t == l then EndOf(n, t).(role := Listens(true, Clients(n, n.comms[n.sockets[l].comm.value].waiting)[1..]))
      else if t == n.comms[FirstWaiting(n, l)].sock0 then EndOf(n, t).(role := Linked(n.nextId))
      else EndOf(n, t)
  {
    var m, lc, c := Do(n, AcceptStep(l)), n.sockets[l].comm.value, FirstWaiting(n, l);
    assert SocketWired(n, t) && SocketWired(n, l) && CommWired(n, lc) && CommWired(n, c);
    if t == l {
      var q := n.comms[lc].waiting;
      assert Clients(m, q[1..]) == Clients(n, q)[1..];
    } else if t != n.comms[c].sock0 {
      if n.sockets[t].comm.Some? {
        assert CommWired(n, n.sockets[t].comm.value);
        assert Alike(n, m, n.sockets[t].comm.value);
      }
      EndFrame(n, m, t);
    }
  }

  lemma AcceptSeenNew(n: Net, l: SockId)
    requires Accepting(n, l) && Remembered(n)
    ensures var c := FirstWaiting(n, l);
      && Sound(n, l) && Sound(Do(n, AcceptStep(l)), n.nextId)
      && EndOf(Do(n, AcceptStep(l)), n.nextId) == Serving(Seen(n), EndOf(n, l), n.comms[c].sock0)
  {
    var c := FirstWaiting(n, l);
    assert SocketWired(n, l) && CommWired(n, n.sockets[l].comm.value) && CommWired(n, c) && CommRemembered(n, c);
    PendingOrJoined(n, c);
  }

  /** The listener as seen has the clients of its queue in its backlog. */
  lemma AcceptReady(n: Net, l: SockId)
    requires Accepting(n, l)
    ensures Ready(Seen(n), AcceptStep(l)) && n.comms[FirstWaiting(n, l)].sock0 != l
    ensures Seen(n).ends[l].role == Listens(true, Clients(n, n.comms[n.sockets[l].comm.value].waiting))
    ensures Seen(n).ends[l].role.backlog[0] == n.comms[FirstWaiting(n, l)].sock0
  {
    assert SocketWired(n, l) && CommWired(n, n.sockets[l].comm.value) && CommWired(n, FirstWaiting(n, l));
  }

  lemma AcceptEnds(n: Net, m: Net, l: SockId, a: SockId, backlog: seq<SockId>, server: Endpoint)
    requires Wired(n) && Wired(m) && l in n.sockets && a in n.sockets && a != l
    requires m.sockets.Keys == n.sockets.Keys + {n.nextId}
    requires Sound(m, n.nextId) && EndOf(m, n.nextId) == server
    requires forall t :: t in n.sockets ==>
      && Sound(n, t) && Sound(m, t)
      && EndOf(m, t) ==
        if t == l then EndOf(n, t).(role := Listens(true, backlog))
        else if t == a then EndOf(n, t).(role := Linked(n.nextId))
        else EndOf(n, t)
    ensures EndsOf(m) ==
      EndsOf(n)[l := EndsOf(n)[l].(role := Listens(true, backlog))]
               [a := EndsOf(n)[a].(role := Linked(n.nextId))]
               [n.nextId := server]
  {
  }

  lemma AcceptChanges(n: Net, l: SockId, a: SockId, backlog: seq<SockId>)
    requires Accepting(n, l) && Remembered(n) && Wired(Do(n, AcceptStep(l)))
    requires a in n.sockets && a != l && a == n.comms[FirstWaiting(n, l)].sock0
    requires backlog == Clients(n, n.comms[n.sockets[l].comm.value].waiting)[1..]
    ensures EndsOf(Do(n, AcceptStep(l))) ==
      EndsOf(n)[l := EndsOf(n)[l].(role := Listens(true, backlog))]
               [a := EndsOf(n)[a].(role := Linked(n.nextId))]
               [n.nextId := Serving(Seen(n), EndsOf(n)[l], a)]
  {
    var m := Do(n, AcceptStep(l));
    AcceptSeenNew(n, l);
    forall t | t in n.sockets
      ensures Sound(n, t) && Sound(m, t)
      ensures EndOf(m, t) ==
        if t == l then EndOf(n, t).(role := Listens(true, backlog))
        else if t == a then EndOf(n, t).(role := Linked(n.nextId))
        else EndOf(n, t)
    {
      AcceptSeenAt(n, l, t);
    }
    AcceptEnds(n, m, l, a, backlog, Serving(Seen(n), EndsOf(n)[l], a));
  }

  lemma AcceptSeen(n: Net, l: SockId)
    requires Accepting(n, l) && Remembered(n)
    ensures Wired(Do(n, AcceptStep(l))) && Ready(Seen(n), AcceptStep(l))
    ensures Seen(Do(n, AcceptStep(l))) == Next(Seen(n), AcceptStep(l))
  {
    AcceptKeepsWired(n, l);
    AcceptReady(n, l);
    AcceptChanges(n, l, Seen(n).ends[l].role.backlog[0], Seen(n).ends[l].role.backlog[1..]);
    SameAddresses(n, Do(n, AcceptStep(l)));
  }

  // ----- close

  lemma CloseAlike(n: Net, s: SockId, c: CommId)
    requires Wired(n) && Configured(n) && Enabled(n, CloseStep(s)) && c in Do(n, CloseStep(s)).comms
    ensures Alike(n, Do(n, CloseStep(s)), c)
  {
    assert SocketWired(n, s);
    CloseUntouched(n, s, c);
    assert CommWired(n, c);
    if n.sockets[s].comm.Some? && n.sockets[s].comm != Some(c) { CloseKeepsQueue(n, s, c); }
  }

  lemma CloseSeenAt(n: Net, s: SockId, t: SockId)
    requires Wired(n) && Configured(n) && Enabled(n, CloseStep(s)) && t in Do(n, CloseStep(s)).sockets
    ensures Sound(n, t) && Sound(Do(n, CloseStep(s)), t)
    ensures EndOf(Do(n, CloseStep(s)), t) == if t == s then EndOf(n, t).(open := false) else EndOf(n, t)
  {
    var m := Do(n, CloseStep(s));
    CloseKeepsSocketWired(n, s, t);
    assert SocketWired(n, t) && SocketWired(n, s);
    if n.sockets[t].comm.Some? { CloseAlike(n, s, n.sockets[t].comm.value); }
    if t != s { EndFrame(n, m, t); }
  }

  /** A close takes away a listener, or both ends of a connection whose other end is closed. */
  lemma CloseRemoves(n: Net, s: SockId)
    requires Wired(n) && Configured(n) && Enabled(n, CloseStep(s))
    ensures Sound(n, s)
    ensures var r := RoleOf(n, s);
      && (r.Linked? ==> r.peer in n.sockets)
      && Do(n, CloseStep(s)).sockets.Keys ==
        if r.Listens? then n.sockets.Keys - {s}
        else if r.Linked? && !n.sockets[r.peer].open then n.sockets.Keys - {s, r.peer}
        else n.sockets.Keys
  {
    assert SocketWired(n, s);
    if n.sockets[s].comm.Some? {
      var c := n.sockets[s].comm.value;
      assert CommWired(n, c);
      if n.comms[c].state == Closed { ClosedIsJoined(n, s); }
      if n.comms[c].state != CommState.Listening { PendingOrJoined(n, c); }
    }
  }

  lemma CloseEnds(n: Net, m: Net, s: SockId)
    requires Wired(n) && Wired(m) && Sound(n, s) && m.sockets.Keys <= n.sockets.Keys
    requires forall t :: t in m.sockets ==>
      Sound(n, t) && Sound(m, t) && EndOf(m, t) == if t == s then EndOf(n, t).(open := false) else EndOf(n, t)
    requires var r := RoleOf(n, s);
      && (r.Linked? ==> r.peer in n.sockets)
      && m.sockets.Keys ==
        if r.Listens? then n.sockets.Keys - {s}
        else if r.Linked? && !n.sockets[r.peer].open then n.sockets.Keys - {s, r.peer}
        else n.sockets.Keys
    ensures Ready(Seen(n), CloseStep(s)) && EndsOf(m) == Next(Seen(n), CloseStep(s)).ends
  {
    var e := EndsOf(n)[s];
    assert e == EndOf(n, s) && e.role == RoleOf(n, s);
    var gone :=
      if e.role.Listens? then {s} else if e.role.Linked? && !n.sockets[e.role.peer].open then {s, e.role.peer} else {};
    assert EndsOf(m) == if gone == {} then EndsOf(n)[s := e.(open := false)] else EndsOf(n) - gone;
  }

  lemma CloseKeepsNext(n: Net, s: SockId)
    requires Wired(n) && Configured(n) && Enabled(n, CloseStep(s))
    ensures Do(n, CloseStep(s)).nextId == n.nextId
  {
  }

  lemma CloseChanges(n: Net, s: SockId)
    requires Wired(n) && Configured(n) && Enabled(n, CloseStep(s)) && Wired(Do(n, CloseStep(s)))
    ensures Ready(Seen(n), CloseStep(s)) && EndsOf(Do(n, CloseStep(s))) == Next(Seen(n), CloseStep(s)).ends
  {
    var m := Do(n, CloseStep(s));
    CloseRemoves(n, s);
    forall t | t in m.sockets
      ensures Sound(n, t) && Sound(m, t)
      ensures EndOf(m, t) == if t == s then EndOf(n, t).(open := false) else EndOf(n, t)
    {
      CloseSeenAt(n, s, t);
    }
    CloseEnds(n, m, s);
  }

  lemma CloseSeen(n: Net, s: SockId)
    requires Wired(n) && Configured(n) && Enabled(n, CloseStep(s))
    ensures Wired(Do(n, CloseStep(s))) && Ready(Seen(n), CloseStep(s))
    ensures Seen(Do(n, CloseStep(s))) == Next(Seen(n), CloseStep(s))
  {
    CloseKeepsWired(n, s);
    CloseKeepsHosts(n, s);
    CloseChanges(n, s);
    SameAddresses(n, Do(n, CloseStep(s)));
    CloseKeepsNext(n, s);
  }

  // ----- every call and every run

  /** Every call does to the endpoints what the reference network does. */
  lemma StepRefines(n: Net, step: Step)
    requires Inv(n) && Enabled(n, step)
    ensures Inv(Do(n, step)) && Ready(Seen(n), step) && Seen(Do(n, step)) == Next(Seen(n), step)
  {
    StepKeepsInv(n, step);
    match step
    case SocketStep(proc, h) => SocketSeen(n, proc, h);
    case BindStep(s, ip, p) => BindSeen(n, s, ip, p);
    case ListenStep(s) => ListenSeen(n, s);
    case ConnectStep(s, ip, p, local) => ConnectSeen(n, s, ip, p, local);
    case AcceptStep(l) => AcceptSeen(n, l);
    case SendStep(s, d) => SendSeen(n, s, d);
    case CloseStep(s) => CloseSeen(n, s);
  }

  ghost predicate Possible(v: View, steps: seq<Step>)
    decreases |steps|
  {
    steps == [] || (Ready(v, steps[0]) && Possible(Next(v, steps[0]), steps[1..]))
  }

  ghost function Outcome(v: View, steps: seq<Step>): View
    requires Possible(v, steps)
    decreases |steps|
  {
    if steps == [] then v else Outcome(Next(v, steps[0]), steps[1..])
  }

  lemma {:induction false} RunRefines(n: Net, steps: seq<Step>)
    requires Inv(n) && Legal(n, steps)
    ensures Possible(Seen(n), steps) && Seen(After(n, steps)) == Outcome(Seen(n), steps)
    decreases |steps|
  {
    if steps != [] {
      StepRefines(n, steps[0]);
      RunRefines(Do(n, steps[0]), steps[1..]);
    }
  }

  // ----- what was sent, read off the calls

  /** The data of the sends of socket s among the calls, in order. */
  ghost function SentBy(steps: seq<Step>, s: SockId): seq<Data>
    decreases |steps|
  {
    if steps == [] then [] else Said(steps[0], s) + SentBy(steps[1..], s)
  }

  ghost function Said(step: Step, s: SockId): seq<Data> {
    if step.SendStep? && step.s == s then [step.data] else []
  }

  ghost predicate Dense(v: View) {
    forall s :: s in v.ends ==> s < v.next
  }

  ghost function SentOf(v: View, s: SockId): seq<Data> {
    if s in v.ends then v.ends[s].sent else []
  }

  lemma StepKeepsDense(v: View, step: Step)
    requires Dense(v) && Ready(v, step)
    ensures Dense(Next(v, step)) && v.next <= Next(v, step).next <= v.next + 1
  {
  }

  /** Only a send adds to what an endpoint has sent, and an endpoint starts with nothing sent. */
  lemma StepKeepsSent(v: View, step: Step, s: SockId)
    requires Dense(v) && Ready(v, step) && !step.SendStep?
    requires s in Next(v, step).ends || s >= Next(v, step).next
    ensures (s in v.ends || s >= v.next) && SentOf(Next(v, step), s) == SentOf(v, s)
  {
  }

  lemma StepSends(v: View, step: Step, s: SockId)
    requires Dense(v) && Ready(v, step)
    requires s in Next(v, step).ends || s >= Next(v, step).next
    ensures s in v.ends || s >= v.next
    ensures SentOf(Next(v, step), s) == SentOf(v, s) + Said(step, s)
  {
    if !step.SendStep? { StepKeepsSent(v, step, s); }
  }

  lemma {:induction false} RunSends(v: View, steps: seq<Step>, s: SockId)
    requires Dense(v) && Possible(v, steps) && s in Outcome(v, steps).ends
    ensures s in v.ends || s >= v.next
    ensures SentOf(Outcome(v, steps), s) == SentOf(v, s) + SentBy(steps, s)
    decreases |steps|
  {
    if steps != [] {
      StepKeepsDense(v, steps[0]);
      RunSends(Next(v, steps[0]), steps[1..], s);
      StepSends(v, steps[0], s);
      Associative(SentOf(v, s), Said(steps[0], s), SentBy(steps[1..], s));
    }
  }

  /** A run is seen as a run of the reference network, from no endpoints at all. */
  lemma RunSeen(n: Net, steps: seq<Step>, m: Net)
    requires Run(n, steps, m)
    ensures Wired(n) && Wired(m) && Seen(n).ends == map[]
    ensures Possible(Seen(n), steps) && Seen(m) == Outcome(Seen(n), steps)
  {
    InitialInv(n);
    RunRefines(n, steps);
  }

  lemma SeenPosted(m: Net, s: SockId)
    requires Wired(m) && s in m.sockets
    ensures Sound(m, s) && SentOf(Seen(m), s) == Posted(m, s)
  {
    assert SocketWired(m, s);
  }

  /** In every run, the receive queue a socket sends to holds the data of its sends, in order. */
  lemma PostedIsSent(n: Net, steps: seq<Step>, m: Net, s: SockId)
    requires Run(n, steps, m) && s in m.sockets
    ensures Sound(m, s) && Posted(m, s) == SentBy(steps, s)
  {
    RunSeen(n, steps, m);
    RunSends(Seen(n), steps, s);
    SeenPosted(m, s);
  }

  /** In every run, each end of a live connection has received exactly the data of the other end's
      sends, in the order of the calls, with one task for each piece. */
  lemma ReceivedIsSent(n: Net, steps: seq<Step>, m: Net, c: CommId)
    requires Run(n, steps, m) && c in m.comms && m.comms[c].state != CommState.Listening
    ensures var k := m.comms[c];
      && k.sock0 in m.sockets && k.sock1.Some? && k.sock1.value in m.sockets
      && k.recv1.data == SentBy(steps, k.sock0) && k.recv0.data == SentBy(steps, k.sock1.value)
      && Lockstep(k.recv1, m.sockets[k.sock0].host) && Lockstep(k.recv0, m.sockets[k.sock1.value].host)
  {
    assert Reachable(m);
    ReachableInv(m);
    var k := m.comms[c];
    assert CommWired(m, c) && CommRemembered(m, c);
    assert SocketWired(m, k.sock0) && SocketWired(m, k.sock1.value);
    PostedIsSent(n, steps, m, k.sock0);
    PostedIsSent(n, steps, m, k.sock1.value);
  }
}
