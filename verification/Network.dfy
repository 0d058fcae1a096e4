/** The simulated socket world as a state machine: what each emulated call does to the hosts' port
    tables, the sockets and the communications, in the full-mediation build (src/communication.c,
    src/data_utils.c, src/sockets.c, src/sys_bind.c, src/sys_listen.c, src/sys_connect.c,
    src/sys_accept.c, src/syscall_process.c). */
module Network {
  import opened Common

  type Host = nat
  type Proc = nat
  type Ip = nat
  type Port = nat
  type SockId = nat
  type CommId = nat
  type Data = seq<int>

  /** INADDR_ANY, and 127.0.0.1 in network byte order on a little-endian machine. */
  const ANY: Ip := 0
  const LOOPBACK: Ip := 0x0100007F
  const PORTS := 65536

  /** port_desc_t; bind, local and remote are the bits of its option mask. */
  datatype PortDesc = PortDesc(amount: int, bind: bool, local: bool, remote: bool, bindSocket: Option<SockId>)

  datatype HostDesc = HostDesc(ip: Ip, ports: map<Port, PortDesc>)

  /** struct infos_socket; listening tells that its communication is a listening one, open that a
      descriptor of its process still refers to it. */
  datatype Sock = Sock(proc: Proc, host: Host, comm: Option<CommId>, ip: Ip, port: Port, bound: bool, listening: bool,
                       open: bool) {
    /** The socket is one end of a connection, or waits to become one. */
    predicate Connected() { comm.Some? && !listening }

    /** The socket is counted on its port: it was bound, connected or accepted. */
    predicate Registered() { bound || Connected() }
  }

  datatype Task = Task(sender: Host, amount: nat)

  datatype Recv = Recv(data: seq<Data>, tasks: seq<Task>) {
    function Push(sender: Host, d: Data): Recv {
      Recv(data + [d], tasks + [Task(sender, |d|)])
    }
  }

  const EMPTY := Recv([], [])

  datatype CommState = Open | Closed | Listening

  /** comm_s. A comm has a peer in slot 1 as soon as it has been dialled: first the listener, then
      the socket that accept creates. */
  datatype Comm = Comm(remoteIp: Ip, remotePort: Port, sock0: SockId, recv0: Recv, sock1: Option<SockId>, recv1: Recv,
                       state: CommState, waiting: seq<CommId>)

  // ----- history: what happened, for stating the properties of runs

  /** A successful connect: who dialled which listener at which address, the host of the client and
      the address it was given, and the address the listener was bound to on a host with which address. */
  datatype Dial = Dial(client: SockId, listener: SockId, ip: Ip, port: Port, clientHost: Host, clientIp: Ip,
                       clientPort: Port, listenIp: Ip, hostIp: Ip)

  /** An accept: the new socket, its local address, and the address reported to the caller. */
  datatype Served = Served(server: SockId, ip: Ip, port: Port, reportedIp: Ip, reportedPort: Port)

  datatype History = History(dials: map<CommId, Dial>, served: map<CommId, Served>,
                             dialled: map<SockId, seq<CommId>>, accepted: map<SockId, seq<CommId>>)

  function Of<T>(m: map<nat, seq<T>>, k: nat): seq<T> {
    if k in m then m[k] else []
  }

  /** The same hosts with the same addresses. */
  ghost predicate SameIps(a: map<Host, HostDesc>, b: map<Host, HostDesc>) {
    a.Keys == b.Keys && forall h :: h in a ==> a[h].ip == b[h].ip
  }

  datatype Net = Net(hosts: map<Host, HostDesc>, byIp: map<Ip, Host>, sockets: map<SockId, Sock>,
                     comms: map<CommId, Comm>, nextId: nat, hist: History) {

    /** Every socket belongs to a host of the platform. */
    ghost predicate Placed() {
      forall s :: s in sockets ==> sockets[s].host in hosts
    }

    function Ports(h: Host): map<Port, PortDesc>
      requires h in hosts
    {
      hosts[h].ports
    }

    function SetPort(h: Host, p: Port, d: PortDesc): map<Host, HostDesc>
      requires h in hosts
    {
      hosts[h := hosts[h].(ports := hosts[h].ports[p := d])]
    }

    /** register_port. */
    function Register(h: Host, p: Port): map<Host, HostDesc>
      requires h in hosts
    {
      if p in Ports(h) then SetPort(h, p, Ports(h)[p].(amount := Ports(h)[p].amount + 1))
      else SetPort(h, p, PortDesc(1, false, false, false, None))
    }

    /** unset_socket. */
    function Unregister(h: Host, p: Port, s: SockId): map<Host, HostDesc>
      requires h in hosts
    {
      if p !in Ports(h) then hosts
      else
        var d := Ports(h)[p];
        var kept := if d.bindSocket == Some(s) then None else d.bindSocket;
        if d.amount == 1 then hosts[h := hosts[h].(ports := Ports(h) - {p})]
        else SetPort(h, p, d.(amount := d.amount - 1, bindSocket := kept))
    }

    /** unset_socket and delete_socket. */
    function Release(s: SockId): Net
      requires s in sockets && sockets[s].host in hosts
    {
      this.(hosts := Unregister(sockets[s].host, sockets[s].port, s), sockets := sockets - {s})
    }

    /** get_binding_socket_host: the socket bound to a port, when reachable from the given side. */
    function Binding(h: Host, p: Port, local: bool): Option<SockId>
      requires h in hosts
    {
      if p !in Ports(h) || !Ports(h)[p].bind then None
      else if !(if local then Ports(h)[p].local else Ports(h)[p].remote) then None
      else Ports(h)[p].bindSocket
    }

    /** The listener a connect of socket s to (ip, p) reaches. */
    function Target(s: SockId, ip: Ip, p: Port): Option<SockId>
      requires s in sockets && sockets[s].host in hosts && forall i :: i in byIp ==> byIp[i] in hosts
    {
      if ip == LOOPBACK then Binding(sockets[s].host, p, true)
      else if ip in byIp then Binding(byIp[ip], p, false)
      else None
    }

    // ----- the emulated calls

    function DoSocket(proc: Proc, h: Host): Net {
      this.(sockets := sockets[nextId := Sock(proc, h, None, 0xFFFF_FFFF, 0, false, false, true)], nextId := nextId + 1)
    }

    /** bind: a port in use is refused (EADDRINUSE) and nothing changes. */
    function DoBind(s: SockId, ip: Ip, p: Port): Net
      requires s in sockets && sockets[s].host in hosts
    {
      if p in Ports(sockets[s].host) then this
      else this.(
        hosts := SetPort(sockets[s].host, p, PortDesc(1, true, ip == ANY || ip == LOOPBACK, ip != LOOPBACK, Some(s))),
        sockets := sockets[s := sockets[s].(bound := true, ip := ip, port := p)])
    }

    /** The communications that are still referred to when socket s takes a new one: a listening one
        is referred to by its socket only. */
    function Kept(s: SockId): map<CommId, Comm>
      requires s in sockets
    {
      if sockets[s].comm.Some? && sockets[s].comm.value in comms && comms[sockets[s].comm.value].state == Listening
      then comms - {sockets[s].comm.value} else comms
    }

    /** The socket without its communication. */
    function Detached(s: SockId): Net
      requires s in sockets
    {
      this.(comms := Kept(s), sockets := sockets[s := sockets[s].(comm := None, listening := false)])
    }

    /** listen: a new communication, whatever the socket had before. */
    function DoListen(s: SockId): Net
      requires s in sockets
    {
      this.(
        comms := Kept(s)[nextId := Comm(0, 0, s, EMPTY, None, EMPTY, Listening, [])],
        sockets := sockets[s := sockets[s].(comm := Some(nextId), listening := true)],
        nextId := nextId + 1)
    }

    /** The address the client of a connect is given. */
    function ClientIp(s: SockId, ip: Ip): Ip
      requires s in sockets && sockets[s].host in hosts
    {
      if ip == LOOPBACK then LOOPBACK else hosts[sockets[s].host].ip
    }

    /** The peer address a connect records: the bound one, or for a wildcard bind the loopback
        address when both ends belong to one process and the host's address otherwise. */
    function RemoteIp(s: SockId, l: SockId): Ip
      requires s in sockets && l in sockets && sockets[l].host in hosts
    {
      if sockets[l].ip != ANY then sockets[l].ip
      else if sockets[l].proc == sockets[s].proc then LOOPBACK
      else hosts[sockets[l].host].ip
    }

    /** The communications after socket s has dialled listener l. The client takes the new one before
        the queue of the listener is looked up, so a listener that dials itself waits in the queue of
        its own connection. */
    function Queued(s: SockId, l: SockId): map<CommId, Comm>
      requires s in sockets && l in sockets && sockets[l].host in hosts
      requires sockets[l].comm.Some? && sockets[l].comm.value in comms
    {
      var lc, c := sockets[l].comm.value, nextId;
      if s == l then Kept(s)[c := Comm(RemoteIp(s, l), sockets[l].port, s, EMPTY, Some(l), EMPTY, Open, [c])]
      else Kept(s)[lc := comms[lc].(waiting := comms[lc].waiting + [c])]
                  [c := Comm(RemoteIp(s, l), sockets[l].port, s, EMPTY, Some(l), EMPTY, Open, [])]
    }

    /** The history after socket s has dialled listener l. */
    function Dialled(s: SockId, l: SockId, ip: Ip, p: Port, local: Port): History
      requires s in sockets && sockets[s].host in hosts && l in sockets && sockets[l].host in hosts
    {
      hist.(
        dials := hist.dials[nextId := Dial(s, l, ip, p, sockets[s].host, ClientIp(s, ip), local,
                                           sockets[l].ip, hosts[sockets[l].host].ip)],
        dialled := hist.dialled[l := Of(hist.dialled, l) + [nextId]])
    }

    /** connect reaching listener l, with the local port chosen for the client. */
    function DoDial(s: SockId, l: SockId, ip: Ip, p: Port, local: Port): Net
      requires s in sockets && sockets[s].host in hosts && l in sockets && sockets[l].host in hosts
      requires sockets[l].comm.Some? && sockets[l].comm.value in comms
    {
      var c, cip := nextId, ClientIp(s, ip);
      Net(
        Register(sockets[s].host, local),
        byIp,
        sockets[s := sockets[s].(comm := Some(c), listening := false, ip := cip, port := local)],
        Queued(s, l),
        nextId + 1,
        Dialled(s, l, ip, p, local))
    }

    /** The local address accept gives the new socket. */
    function ServerIp(l: SockId, c: CommId): Ip
      requires l in sockets && sockets[l].host in hosts && c in comms && comms[c].sock0 in sockets
    {
      if sockets[l].ip != ANY then sockets[l].ip
      else if sockets[comms[c].sock0].ip == LOOPBACK then LOOPBACK
      else hosts[sockets[l].host].ip
    }

    /** accept on a listener with a connection waiting. */
    function DoAccept(l: SockId): Net
      requires l in sockets && sockets[l].host in hosts
      requires sockets[l].comm.Some? && sockets[l].comm.value in comms && comms[sockets[l].comm.value].waiting != []
      requires var c := comms[sockets[l].comm.value].waiting[0]; c in comms && comms[c].sock0 in sockets
    {
      var lc, t := sockets[l].comm.value, nextId;
      var c := comms[lc].waiting[0];
      var client := sockets[comms[c].sock0];
      Net(
        Register(sockets[l].host, sockets[l].port),
        byIp,
        sockets[t := Sock(sockets[l].proc, sockets[l].host, Some(c), ServerIp(l, c), sockets[l].port, false, false, true)],
        comms[lc := comms[lc].(waiting := comms[lc].waiting[1..])][c := comms[c].(sock1 := Some(t))],
        nextId + 1,
        hist.(
          served := hist.served[c := Served(t, ServerIp(l, c), sockets[l].port, client.ip, client.port)],
          accepted := hist.accepted[l := Of(hist.accepted, l) + [c]]))
    }

    /** send: the data and its task go to the receive queues of the other slot. */
    function DoSend(s: SockId, d: Data): Net
      requires s in sockets && sockets[s].comm.Some? && sockets[s].comm.value in comms
    {
      var c, host := sockets[s].comm.value, sockets[s].host;
      if comms[c].sock0 == s then
        this.(comms := comms[c := comms[c].(recv1 := comms[c].recv1.Push(host, d))])
      else
        this.(comms := comms[c := comms[c].(recv0 := comms[c].recv0.Push(host, d))])
    }

    /** close: a listener is released, the first close of a connection marks it closed, the second
        releases both its sockets. */
    function DoClose(s: SockId): Net
      requires Placed() && s in sockets
      requires sockets[s].comm.Some? ==> sockets[s].comm.value in comms
      requires sockets[s].comm.Some? ==>
        var k := comms[sockets[s].comm.value];
        k.sock0 in sockets && (k.state == Closed ==> k.sock1.Some? && k.sock1.value in sockets && k.sock1.value != k.sock0)
    {
      if sockets[s].comm.None? then this.(sockets := sockets[s := sockets[s].(open := false)])
      else
        var c := sockets[s].comm.value;
        match comms[c].state
        case Listening => Release(comms[c].sock0).(comms := comms - {c})
        case Closed => Release(comms[c].sock0).Release(comms[c].sock1.value).(comms := comms - {c})
        case Open => this.(comms := comms[c := comms[c].(state := Closed)],
                           sockets := sockets[s := sockets[s].(open := false)])
    }
  }
}
