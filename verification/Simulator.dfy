/** The simulator's global tables as a mutable object, and the emulated socket calls as methods that
    update them in the order the source does. Every method is proved against the state machine of
    module Network. */
module Simulator {
  import opened Common
  import opened Network
  import opened NetworkInvariant
  import opened NetworkPorts

  ghost function Above(port: nat): set<Port>
    requires port < PORTS
    ensures |Above(port)| == PORTS - 1 - port
    ensures forall q :: q in Above(port) <==> port < q < PORTS
    decreases PORTS - port
  {
    if port == PORTS - 1 then {} else Above(port + 1) + {port + 1}
  }

  /** get_random_port: scan downwards from the largest 16-bit number. The result is the largest
      unused port, found after at most one probe more than ports are in use. */
  method GetRandomPort(ports: map<Port, PortDesc>) returns (port: Port, ghost probes: nat)
    requires exists p :: 0 <= p < PORTS && p !in ports
    ensures port < PORTS && port !in ports && forall q :: port < q < PORTS ==> q in ports
    ensures probes <= |ports| + 1
  {
    port := 0;
    port := (port - 1) % PORTS;
    probes := 1;
    ghost var free :| 0 <= free < PORTS && free !in ports;
    while port in ports
      invariant free <= port < PORTS
      invariant forall q :: port < q < PORTS ==> q in ports
      invariant probes == PORTS - port
      decreases port
    {
      port := (port - 1) % PORTS;
      probes := probes + 1;
    }
    assert Above(port) <= ports.Keys;
    SubsetCount(Above(port), ports.Keys);
    assert |ports.Keys| == |ports|;
  }

  /** What comm_ask_connect does to the communications, one update after the other. */
  lemma AskedComms(comms: map<CommId, Comm>, c: CommId, lc: CommId, s: SockId, l: SockId, remote: Ip, port: Port)
    requires c !in comms && (lc == c || lc in comms)
    ensures var a := comms[c := Comm(0, 0, s, EMPTY, None, EMPTY, Open, [])];
      var b := a[lc := a[lc].(waiting := a[lc].waiting + [c])];
      var d := b[c := b[c].(remoteIp := remote, remotePort := port)];
      var made := Comm(remote, port, s, EMPTY, Some(l), EMPTY, Open, if lc == c then [c] else []);
      d[c := d[c].(sock1 := Some(l))] ==
        if lc == c then comms[c := made] else comms[lc := comms[lc].(waiting := comms[lc].waiting + [c])][c := made]
  {
    var a := comms[c := Comm(0, 0, s, EMPTY, None, EMPTY, Open, [])];
    var b := a[lc := a[lc].(waiting := a[lc].waiting + [c])];
    var d := b[c := b[c].(remoteIp := remote, remotePort := port)];
    var made := Comm(remote, port, s, EMPTY, Some(l), EMPTY, Open, if lc == c then [c] else []);
    assert lc == c ==> a[lc].waiting + [c] == [c];
    assert d[c].(sock1 := Some(l)) == made;
    assert lc == c ==> d[c := made] == comms[c := made];
    assert lc != c ==> d[c := made] == comms[lc := comms[lc].(waiting := comms[lc].waiting + [c])][c := made];
  }

  /** A dial is done when its six parts are. */
  lemma DialIs(n: Net, m: Net, s: SockId, l: SockId, ip: Ip, p: Port, port: Port)
    requires s in n.sockets && n.sockets[s].host in n.hosts && l in n.sockets && n.sockets[l].host in n.hosts
    requires n.sockets[l].comm.Some? && n.sockets[l].comm.value in n.comms
    requires m.hosts == n.Register(n.sockets[s].host, port) && m.byIp == n.byIp && m.comms == n.Queued(s, l)
    requires m.sockets ==
      n.sockets[s := n.sockets[s].(comm := Some(n.nextId), listening := false, ip := n.ClientIp(s, ip), port := port)]
    requires m.nextId == n.nextId + 1 && m.hist == n.Dialled(s, l, ip, p, port)
    ensures m == n.DoDial(s, l, ip, p, port)
  {
  }

  class World {
    var hosts: map<Host, HostDesc>
    var byIp: map<Ip, Host>
    var sockets: map<SockId, Sock>
    var comms: map<CommId, Comm>
    var nextId: nat
    ghost var hist: History

    ghost function View(): Net
      reads this
    {
      Net(hosts, byIp, sockets, comms, nextId, hist)
    }

    // ----- port tables

    /** register_port. */
    method RegisterPort(h: Host, p: Port)
      requires h in hosts
      modifies this`hosts
      ensures hosts == old(View()).Register(h, p)
    {
      var ports := hosts[h].ports;
      if p in ports {
        ports := ports[p := ports[p].(amount := ports[p].amount + 1)];
      } else {
        ports := ports[p := PortDesc(1, false, false, false, None)];
      }
      hosts := hosts[h := hosts[h].(ports := ports)];
    }

    /** set_port_on_binding. */
    method SetPortOnBinding(h: Host, p: Port, s: SockId, local: bool, remote: bool)
      requires h in hosts
      modifies this`hosts
      ensures p !in old(hosts[h].ports) ==> hosts == old(hosts)
      ensures p in old(hosts[h].ports) ==>
        var d := old(hosts[h].ports[p]);
        hosts == old(View()).SetPort(h, p, PortDesc(d.amount, true, d.local || local, d.remote || remote, Some(s)))
    {
      if p in hosts[h].ports {
        var d := hosts[h].ports[p];
        d := d.(bind := true, local := d.local || local, remote := d.remote || remote);
        d := d.(bindSocket := Some(s));
        hosts := hosts[h := hosts[h].(ports := hosts[h].ports[p := d])];
      }
    }

    /** unset_socket and delete_socket. */
    method ReleaseSocket(s: SockId)
      requires s in sockets && sockets[s].host in hosts
      modifies this`hosts, this`sockets
      ensures View() == old(View()).Release(s)
    {
      var h, p := sockets[s].host, sockets[s].port;
      if p in hosts[h].ports {
        var d := hosts[h].ports[p];
        if d.bindSocket == Some(s) {
          d := d.(bindSocket := None);
        }
        d := d.(amount := d.amount - 1);
        if d.amount != 0 {
          hosts := hosts[h := hosts[h].(ports := hosts[h].ports[p := d])];
        } else {
          hosts := hosts[h := hosts[h].(ports := hosts[h].ports - {p})];
        }
      }
      sockets := sockets - {s};
    }

    /** get_binding_socket_host. */
    method GetBindingSocketHost(h: Host, p: Port, local: bool) returns (r: Option<SockId>)
      requires h in hosts
      ensures r == View().Binding(h, p, local)
    {
      if p !in hosts[h].ports {
        return None;
      }
      var d := hosts[h].ports[p];
      if !d.bind {
        return None;
      }
      if local && !d.local {
        return None;
      }
      if !local && !d.remote {
        return None;
      }
      return d.bindSocket;
    }

    // ----- communications

    /** comm_new. */
    method CommNew(s: SockId) returns (c: CommId)
      requires s in sockets
      modifies this`sockets, this`comms, this`nextId
      ensures c == old(nextId) && nextId == old(nextId) + 1
      ensures sockets == old(sockets)[s := old(sockets[s]).(comm := Some(c))]
      ensures comms == old(comms)[c := Comm(0, 0, s, EMPTY, None, EMPTY, Open, [])]
    {
      c := nextId;
      nextId := nextId + 1;
      sockets := sockets[s := sockets[s].(comm := Some(c))];
      comms := comms[c := Comm(0, 0, s, EMPTY, None, EMPTY, Open, [])];
    }

    // ----- the emulated calls

    /** socket: register_socket. */
    method Socket(proc: Proc, h: Host) returns (s: SockId)
      requires h in hosts
      modifies this
      ensures s == old(nextId) && View() == old(View()).DoSocket(proc, h)
    {
      s := nextId;
      nextId := nextId + 1;
      sockets := sockets[s := Sock(proc, h, None, 0xFFFF_FFFF, 0, false, false, true)];
    }

    /** bind. */
    method Bind(s: SockId, ip: Ip, p: Port) returns (ret: int)
      requires s in sockets && sockets[s].host in hosts
      modifies this
      ensures View() == old(View()).DoBind(s, ip, p)
      ensures ret == if p in old(hosts[sockets[s].host].ports) then -EADDRINUSE else 0
    {
      var h := sockets[s].host;
      if p !in hosts[h].ports {
        RegisterPort(h, p);
        SetPortOnBinding(h, p, s, ip == ANY || ip == LOOPBACK, ip != LOOPBACK);
        assert hosts[h].ports ==
          old(hosts[h].ports)[p := PortDesc(1, true, ip == ANY || ip == LOOPBACK, ip != LOOPBACK, Some(s))];
        sockets := sockets[s := sockets[s].(bound := true)];
        sockets := sockets[s := sockets[s].(ip := ip, port := p)];
        ret := 0;
      } else {
        ret := -EADDRINUSE;
      }
    }

    /** A listening communication that its socket is about to replace is referred to by nothing else:
        it leaves the table. */
    method Forget(s: SockId)
      requires s in sockets
      modifies this`comms
      ensures comms == old(View()).Kept(s)
    {
      if sockets[s].comm.Some? && sockets[s].comm.value in comms && comms[sockets[s].comm.value].state == Listening {
        comms := comms - {sockets[s].comm.value};
      }
    }

    /** listen: process_listen_call. */
    method Listen(s: SockId)
      requires s in sockets
      modifies this
      ensures View() == old(View()).DoListen(s)
    {
      Forget(s);
      var c := CommNew(s);
      comms := comms[c := comms[c].(state := Listening)];
      sockets := sockets[s := sockets[s].(listening := true)];
    }

    /** The address comm_ask_connect records for the listener. */
    method RemoteAddress(l: SockId, s: SockId) returns (ip: Ip)
      requires s in sockets && l in sockets && sockets[l].host in hosts
      ensures ip == View().RemoteIp(s, l)
    {
      if sockets[l].ip == ANY {
        if sockets[l].proc == sockets[s].proc {
          return LOOPBACK;
        }
        return hosts[sockets[l].host].ip;
      }
      return sockets[l].ip;
    }

    /** comm_ask_connect. The new communication is queued at the listener's, which is the new one itself
        when the listener dials itself. */
    method AskConnect(l: SockId, s: SockId)
      requires s in sockets && l in sockets && sockets[l].host in hosts && nextId !in comms
      requires s != l ==> sockets[l].comm.Some? && sockets[l].comm.value in comms
      modifies this`sockets, this`comms, this`nextId
      ensures nextId == old(nextId) + 1
      ensures sockets == old(sockets)[s := old(sockets[s]).(comm := Some(old(nextId)), listening := false)]
      ensures var c, remote := old(nextId), old(View()).RemoteIp(s, l);
        comms == if s == l then old(comms)[c := Comm(remote, old(sockets[l]).port, s, EMPTY, Some(l), EMPTY, Open, [c])]
          else var lc := old(sockets[l]).comm.value;
            old(comms)[lc := old(comms[lc]).(waiting := old(comms[lc]).waiting + [c])]
                      [c := Comm(remote, old(sockets[l]).port, s, EMPTY, Some(l), EMPTY, Open, [])]
    {
      var remote := RemoteAddress(l, s);
      var c := CommNew(s);
      sockets := sockets[s := sockets[s].(listening := false)];
      var lc := sockets[l].comm.value;
      comms := comms[lc := comms[lc].(waiting := comms[lc].waiting + [c])];
      comms := comms[c := comms[c].(remoteIp := remote, remotePort := sockets[l].port)];
      comms := comms[c := comms[c].(sock1 := Some(l))];
      AskedComms(old(comms), c, lc, s, l, remote, sockets[l].port);
    }

    /** The socket takes its place in the queue of the listener. */
    method Enqueue(l: SockId, s: SockId)
      requires s in sockets && l in sockets && sockets[l].host in hosts && nextId !in comms
      requires sockets[l].comm.Some? && sockets[l].comm.value in comms
      requires s != l ==> sockets[s].comm != sockets[l].comm
      modifies this`sockets, this`comms, this`nextId
      ensures nextId == old(nextId) + 1 && comms == old(View()).Queued(s, l)
      ensures sockets == old(sockets)[s := old(sockets[s]).(comm := Some(old(nextId)), listening := false)]
    {
      Forget(s);
      assert s != l ==> sockets[l].comm.value in comms && comms[sockets[l].comm.value] == old(comms)[sockets[l].comm.value];
      AskConnect(l, s);
    }

    /** The client gets an address and the largest unused port of its host. */
    method GiveAddress(s: SockId, ip: Ip) returns (port: Port)
      requires s in sockets && sockets[s].host in hosts
      requires exists q :: 0 <= q < PORTS && q !in hosts[sockets[s].host].ports
      modifies this`sockets, this`hosts
      ensures port < PORTS && port !in old(hosts[sockets[s].host].ports)
      ensures forall q :: port < q < PORTS ==> q in old(hosts[sockets[s].host].ports)
      ensures sockets == old(sockets)[s := old(sockets[s]).(ip := ip, port := port)]
      ensures hosts == old(View()).Register(old(sockets[s].host), port)
    {
      ghost var probes;
      port, probes := GetRandomPort(hosts[sockets[s].host].ports);
      sockets := sockets[s := sockets[s].(ip := ip, port := port)];
      RegisterPort(sockets[s].host, port);
    }

    /** The part of connect that follows when a listener has been found: queue the connection, then
        give the client an address and an unused port. */
    method Dial(l: SockId, s: SockId, ip: Ip, p: Port, cip: Ip) returns (port: Port)
      requires s in sockets && l in sockets && sockets[l].host in hosts && sockets[s].host in hosts
      requires sockets[l].comm.Some? && sockets[l].comm.value in comms && nextId !in comms
      requires s != l ==> sockets[s].comm != sockets[l].comm
      requires cip == View().ClientIp(s, ip)
      requires exists q :: 0 <= q < PORTS && q !in hosts[sockets[s].host].ports
      modifies this
      ensures port < PORTS && port !in old(hosts[sockets[s].host].ports)
      ensures forall q :: port < q < PORTS ==> q in old(hosts[sockets[s].host].ports)
      ensures View() == old(View()).DoDial(s, l, ip, p, port)
    {
      ghost var n := View();
      Enqueue(l, s);
      port := GiveAddress(s, cip);
      assert sockets == n.sockets[s := n.sockets[s].(comm := Some(n.nextId), listening := false, ip := cip, port := port)];
      hist := n.Dialled(s, l, ip, p, port);
      DialIs(n, View(), s, l, ip, p, port);
    }

    /** connect: process_connect_in_call on a blocking internet socket. Refused when the address
        belongs to no host or no socket is bound to the port on that side. */
    method Connect(s: SockId, ip: Ip, p: Port) returns (ret: int, ghost local: Port)
      requires Wired(View()) && Configured(View()) && PortsOk(View()) && s in sockets && sockets[s].open
      requires View().Target(s, ip, p).Some? ==>
        View().Target(s, ip, p).value in sockets && sockets[View().Target(s, ip, p).value].comm.Some?
      requires exists q :: 0 <= q < PORTS && q !in hosts[sockets[s].host].ports
      modifies this
      ensures ret == if exists l: SockId :: Answers(old(View()), s, l, ip, p) then 0 else -ECONNREFUSED
      ensures ret == 0 ==> local < PORTS && forall q :: local < q < PORTS ==> q in old(hosts[sockets[s].host].ports)
      ensures Admitted(old(View()), ConnectStep(s, ip, p, local))
      ensures View() == Do(old(View()), ConnectStep(s, ip, p, local))
    {
      local := 0;
      TargetExact(View(), s, ip, p);
      var h, side, cip := sockets[s].host, false, LOOPBACK;
      if ip == LOOPBACK {
        side := true;
      } else {
        cip := hosts[h].ip;
        if ip !in byIp {
          return -ECONNREFUSED, 0;
        }
        h := byIp[ip];
      }
      var conn := GetBindingSocketHost(h, p, side);
      if conn.None? {
        return -ECONNREFUSED, 0;
      }
      TargetIsListener(View(), s, ip, p);
      assert SocketWired(View(), s) && SocketWired(View(), conn.value);
      assert CommWired(View(), sockets[conn.value].comm.value);
      var port := Dial(conn.value, s, ip, p, cip);
      ret, local := 0, port;
    }

    /** Where accept is enabled, its requirements hold. */
    lemma AcceptReady(l: SockId)
      requires Wired(View()) && Configured(View()) && Enabled(View(), AcceptStep(l))
      ensures var lc := sockets[l].comm.value; var c := comms[lc].waiting[0];
        c != lc && c in comms && comms[c].sock0 in sockets && nextId !in sockets
      ensures Do(View(), AcceptStep(l)) == View().DoAccept(l)
    {
      var c := FirstWaiting(View(), l);
      assert SocketWired(View(), l) && CommWired(View(), sockets[l].comm.value);
    }

    /** comm_join_on_accept: the first waiting connection leaves the queue and gets the new socket as
        its other end. */
    method JoinOnAccept(l: SockId, server: SockId)
      requires l in sockets && server in sockets && l != server
      requires sockets[l].comm.Some? && sockets[l].comm.value in comms && comms[sockets[l].comm.value].waiting != []
      requires var lc := sockets[l].comm.value; var c := comms[lc].waiting[0]; c != lc && c in comms
      modifies this`comms, this`sockets
      ensures var lc := old(sockets[l].comm.value); var c := old(comms[lc].waiting[0]);
        && comms == old(comms)[lc := old(comms[lc]).(waiting := old(comms[lc]).waiting[1..])]
                              [c := old(comms[c]).(sock1 := Some(server))]
        && sockets == old(sockets)[server := old(sockets[server]).(comm := Some(c))]
    {
      var lc := sockets[l].comm.value;
      var c := comms[lc].waiting[0];
      comms := comms[lc := comms[lc].(waiting := comms[lc].waiting[1..])];
      comms := comms[c := comms[c].(sock1 := Some(server))];
      sockets := sockets[server := sockets[server].(comm := Some(c))];
    }

    /** accept on a listener with a connection waiting: comm_accept_connect, register_socket,
        comm_join_on_accept and the address of the new socket. */
    method Accept(l: SockId) returns (server: SockId, ip: Ip, port: Port)
      requires l in sockets && sockets[l].host in hosts && nextId !in sockets
      requires sockets[l].comm.Some? && sockets[l].comm.value in comms && comms[sockets[l].comm.value].waiting != []
      requires var lc := sockets[l].comm.value; var c := comms[lc].waiting[0];
        c != lc && c in comms && comms[c].sock0 in sockets
      modifies this
      ensures View() == old(View()).DoAccept(l) && server == old(nextId)
      ensures var client := old(sockets[comms[comms[sockets[l].comm.value].waiting[0]].sock0]);
        ip == client.ip && port == client.port
    {
      var lc := sockets[l].comm.value;
      var c := comms[lc].waiting[0];
      var client := sockets[comms[c].sock0];
      ip, port := client.ip, client.port;
      server := Socket(sockets[l].proc, sockets[l].host);
      JoinOnAccept(l, server);
      RegisterPort(sockets[l].host, sockets[l].port);
      var local := sockets[l].ip;
      if sockets[l].ip == ANY {
        if client.ip == LOOPBACK {
          local := LOOPBACK;
        } else {
          local := hosts[sockets[l].host].ip;
        }
      }
      sockets := sockets[server := sockets[server].(ip := local, port := sockets[l].port)];
      hist := old(View()).DoAccept(l).hist;
    }

    /** send: handle_new_send and comm_send_data. */
    method Send(s: SockId, d: Data)
      requires s in sockets && sockets[s].comm.Some? && sockets[s].comm.value in comms
      modifies this
      ensures View() == old(View()).DoSend(s, d)
    {
      var c, task := sockets[s].comm.value, Task(sockets[s].host, |d|);
      if comms[c].sock0 == s {
        comms := comms[c := comms[c].(recv1 := comms[c].recv1.(data := comms[c].recv1.data + [d]))];
        comms := comms[c := comms[c].(recv1 := comms[c].recv1.(tasks := comms[c].recv1.tasks + [task]))];
      } else {
        comms := comms[c := comms[c].(recv0 := comms[c].recv0.(data := comms[c].recv0.data + [d]))];
        comms := comms[c := comms[c].(recv0 := comms[c].recv0.(tasks := comms[c].recv0.tasks + [task]))];
      }
    }

    /** close: socket_close and comm_close. */
    method Close(s: SockId)
      requires Wired(View()) && Configured(View()) && Admitted(View(), CloseStep(s))
      modifies this
      ensures View() == Do(old(View()), CloseStep(s))
    {
      assert SocketWired(View(), s);
      if sockets[s].comm.None? {
        sockets := sockets[s := sockets[s].(open := false)];
        return;
      }
      var c := sockets[s].comm.value;
      assert CommWired(View(), c);
      match comms[c].state
      case Listening =>
        ReleaseSocket(comms[c].sock0);
        comms := comms - {c};
      case Closed =>
        ReleaseSocket(comms[c].sock0);
        ReleaseSocket(comms[c].sock1.value);
        comms := comms - {c};
      case Open =>
        comms := comms[c := comms[c].(state := Closed)];
        sockets := sockets[s := sockets[s].(open := false)];
    }
  }
}
