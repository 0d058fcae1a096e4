/** What the socket world remembers of a run: queues are first in, first out, the two ends of a
    connection agree on their addresses, and the receive queues hold exactly what was sent. */
module NetworkHistory {
  import opened Common
  import opened Network
  import opened NetworkInvariant

  /** The dialled address reaches the listener, and decides the address the client is given. */
  ghost predicate DialFits(d: Dial) {
    if d.ip == LOOPBACK then d.clientIp == LOOPBACK && d.listenIp in {ANY, LOOPBACK}
    else d.clientIp != LOOPBACK && d.hostIp == d.ip && d.listenIp != LOOPBACK
  }

  /** The client has the address of its own host, unless it dialled the loopback address. */
  ghost predicate Home(hosts: map<Host, HostDesc>, d: Dial) {
    d.clientHost in hosts && d.clientIp == if d.ip == LOOPBACK then LOOPBACK else hosts[d.clientHost].ip
  }

  /** accept reports the client's address and gives the new socket the listener's. */
  ghost predicate ServedFits(d: Dial, v: Served) {
    && v.reportedIp == d.clientIp && v.reportedPort == d.clientPort && v.port == d.port
    && v.ip == if d.listenIp != ANY then d.listenIp else if d.clientIp == LOOPBACK then LOOPBACK else d.hostIp
  }

  /** One task for every piece of data, with its sender and size. */
  ghost predicate Lockstep(r: Recv, sender: Host) {
    |r.tasks| == |r.data| && forall i :: 0 <= i < |r.data| ==> r.tasks[i] == Task(sender, |r.data[i]|)
  }

  ghost predicate CommRemembered(n: Net, c: CommId)
    requires c in n.comms
  {
    var k := n.comms[c];
    if k.state == Listening then c !in n.hist.dials
    else
      && c in n.hist.dials && k.sock0 in n.sockets && k.sock1.Some? && k.sock1.value in n.sockets
      && var d := n.hist.dials[c];
         && d.client == k.sock0 && d.clientHost == n.sockets[k.sock0].host
         && d.clientIp == n.sockets[k.sock0].ip && d.clientPort == n.sockets[k.sock0].port
         && Lockstep(k.recv1, n.sockets[k.sock0].host) && Lockstep(k.recv0, n.sockets[k.sock1.value].host)
         && if Pending(n, c) then
              var l := n.sockets[k.sock1.value];
              && k.sock1 == Some(d.listener) && c !in n.hist.served && k.recv0 == EMPTY
              && l.host in n.hosts && d.port == l.port && d.listenIp == l.ip && d.hostIp == n.hosts[l.host].ip
            else
              && c in n.hist.served && k.sock1 == Some(n.hist.served[c].server)
              && n.sockets[k.sock1.value].ip == n.hist.served[c].ip
              && n.sockets[k.sock1.value].port == n.hist.served[c].port
  }

  /** The connections dialled at a socket are those accepted on it, followed by those waiting. */
  ghost predicate QueueRemembered(n: Net, l: SockId)
    requires l in n.sockets
  {
    Of(n.hist.dialled, l) == Of(n.hist.accepted, l) + Queue(n, l)
  }

  ghost function Queue(n: Net, l: SockId): seq<CommId>
    requires l in n.sockets
  {
    if n.sockets[l].bound && n.sockets[l].comm.Some? && n.sockets[l].comm.value in n.comms
    then n.comms[n.sockets[l].comm.value].waiting else []
  }

  ghost predicate AcceptedInOrder(hist: History, l: SockId) {
    && Of(hist.accepted, l) <= Of(hist.dialled, l)
    && (forall c :: c in Of(hist.accepted, l) ==> c in hist.served)
    && (forall c :: c in Of(hist.dialled, l) ==> c in hist.dials && hist.dials[c].listener == l)
  }

  ghost predicate Facts(hist: History) {
    && (forall c :: c in hist.dials ==> DialFits(hist.dials[c]))
    && (forall c :: c in hist.served ==> c in hist.dials && ServedFits(hist.dials[c], hist.served[c]))
    && (forall l {:trigger AcceptedInOrder(hist, l)} :: AcceptedInOrder(hist, l))
  }

  ghost predicate Recent(n: Net) {
    && (forall c :: c in n.hist.dials || c in n.hist.served ==> c < n.nextId)
    && (forall l :: l in n.hist.dialled || l in n.hist.accepted ==> l < n.nextId)
  }

  ghost predicate Homed(n: Net) {
    forall c {:trigger Home(n.hosts, n.hist.dials[c])} :: c in n.hist.dials ==> Home(n.hosts, n.hist.dials[c])
  }

  ghost predicate Remembered(n: Net) {
    && Facts(n.hist) && Recent(n) && Homed(n)
    && (forall c {:trigger CommRemembered(n, c)} :: c in n.comms ==> CommRemembered(n, c))
    && (forall l {:trigger QueueRemembered(n, l)} :: l in n.sockets ==> QueueRemembered(n, l))
  }

  // ----- steps that leave the history alone

  lemma CommRememberedFrame(n: Net, m: Net, c: CommId)
    requires c in n.comms && CommRemembered(n, c) && CommWired(n, c)
    requires c in m.comms && m.comms[c].(state := Open, waiting := []) == n.comms[c].(state := Open, waiting := [])
    requires m.comms[c].state == Listening <==> n.comms[c].state == Listening
    requires Pending(n, c) == Pending(m, c)
    requires c in n.hist.dials <==> c in m.hist.dials
    requires c in n.hist.dials ==> m.hist.dials[c] == n.hist.dials[c]
    requires c in n.hist.served <==> c in m.hist.served
    requires c in n.hist.served ==> m.hist.served[c] == n.hist.served[c]
    requires SameAddress(n, m, n.comms[c].sock0)
    requires n.comms[c].sock1.Some? ==> SameAddress(n, m, n.comms[c].sock1.value)
    ensures CommRemembered(m, c)
  {
  }

  ghost predicate SameAddress(n: Net, m: Net, s: SockId) {
    && s in n.sockets && s in m.sockets && n.sockets[s].host == m.sockets[s].host
    && n.sockets[s].ip == m.sockets[s].ip && n.sockets[s].port == m.sockets[s].port
    && n.sockets[s].host in n.hosts && n.sockets[s].host in m.hosts
    && n.hosts[n.sockets[s].host].ip == m.hosts[n.sockets[s].host].ip
  }

  /** A dialled connection is either waiting or joined. */
  lemma PendingOrJoined(n: Net, c: CommId)
    requires Wired(n) && c in n.comms && n.comms[c].state != Listening
    ensures n.comms[c].sock1.Some? && n.comms[c].sock1.value in n.sockets
    ensures Pending(n, c) <==> n.sockets[n.comms[c].sock1.value].comm != Some(c)
  {
    assert CommWired(n, c);
    if n.sockets[n.comms[c].sock1.value].comm == Some(c) { assert SocketWired(n, n.comms[c].sock1.value); }
  }

  /** The connection is untouched, but for its state, by a step that leaves the history alone. */
  ghost predicate Untouched(n: Net, m: Net, c: CommId)
    requires c in n.comms
  {
    && c in m.comms && m.comms[c].(state := Open, waiting := []) == n.comms[c].(state := Open, waiting := [])
    && (m.comms[c].state == Listening <==> n.comms[c].state == Listening)
    && Settled(n, m, n.comms[c].sock0)
    && (n.comms[c].sock1.Some? ==> Settled(n, m, n.comms[c].sock1.value))
  }

  /** The socket keeps its connection and address. */
  ghost predicate Settled(n: Net, m: Net, s: SockId) {
    SameAddress(n, m, s) && n.sockets[s].comm == m.sockets[s].comm
  }

  lemma UntouchedKeeps(n: Net, m: Net, c: CommId)
    requires Wired(n) && Wired(m) && c in n.comms && CommRemembered(n, c) && Untouched(n, m, c)
    requires c in n.hist.dials <==> c in m.hist.dials
    requires c in n.hist.dials ==> m.hist.dials[c] == n.hist.dials[c]
    requires c in n.hist.served <==> c in m.hist.served
    requires c in n.hist.served ==> m.hist.served[c] == n.hist.served[c]
    ensures CommRemembered(m, c)
  {
    if n.comms[c].state != Listening {
      assert CommWired(n, c);
      PendingOrJoined(n, c);
      PendingOrJoined(m, c);
      CommRememberedFrame(n, m, c);
    }
  }

  lemma HomedFrame(n: Net, m: Net)
    requires Homed(n) && m.hist.dials == n.hist.dials && SameIps(n.hosts, m.hosts)
    ensures Homed(m)
  {
    forall c | c in m.hist.dials ensures Home(m.hosts, m.hist.dials[c]) { assert Home(n.hosts, n.hist.dials[c]); }
  }

  lemma QuietKeepsRemembered(n: Net, m: Net)
    requires Wired(n) && Wired(m) && Remembered(n) && m.hist == n.hist && m.nextId >= n.nextId && SameIps(n.hosts, m.hosts)
    requires forall c :: c in m.comms && c !in n.comms ==> m.comms[c].state == Listening && c >= n.nextId
    requires forall c :: c in m.comms && c in n.comms ==> (m.comms[c].state == Listening <==> n.comms[c].state == Listening)
    requires forall c :: c in m.comms && c in n.comms && n.comms[c].state != Listening ==> Untouched(n, m, c)
    requires forall l :: l in m.sockets && l in n.sockets ==> Queue(m, l) == Queue(n, l)
    requires forall l :: l in m.sockets && l !in n.sockets ==> Queue(m, l) == [] && l >= n.nextId
    ensures Remembered(m)
  {
    HomedFrame(n, m);
    forall c | c in m.comms ensures CommRemembered(m, c) {
      if c in n.comms {
        assert CommRemembered(n, c);
        if n.comms[c].state != Listening { UntouchedKeeps(n, m, c); }
      }
    }
    forall l | l in m.sockets ensures QueueRemembered(m, l) {
      if l in n.sockets { assert QueueRemembered(n, l); }
    }
  }

  lemma SocketKeepsRemembered(n: Net, proc: Proc, h: Host)
    requires Wired(n) && Configured(n) && Remembered(n) && h in n.hosts
    ensures Remembered(Do(n, SocketStep(proc, h)))
  {
    var m := Do(n, SocketStep(proc, h));
    SocketKeepsWired(n, proc, h);
    forall c | c in m.comms ensures Untouched(n, m, c) { assert CommWired(n, c); }
    QuietKeepsRemembered(n, m);
  }

  lemma BindUntouched(n: Net, s: SockId, ip: Ip, p: Port, c: CommId)
    requires Wired(n) && Configured(n) && Enabled(n, BindStep(s, ip, p)) && c in n.comms && n.comms[c].state != Listening
    requires n.sockets[s].host in n.hosts && p !in n.Ports(n.sockets[s].host)
    ensures Untouched(n, Do(n, BindStep(s, ip, p)), c)
  {
    assert CommWired(n, c) && SocketWired(n, s);
    NotElsewhere(n, s, c);
  }

  lemma BindKeepsQueueOf(n: Net, s: SockId, ip: Ip, p: Port, l: SockId)
    requires Wired(n) && Configured(n) && Enabled(n, BindStep(s, ip, p)) && l in n.sockets
    ensures Queue(Do(n, BindStep(s, ip, p)), l) == Queue(n, l)
  {
    assert SocketWired(n, l);
    if n.sockets[l].comm.Some? { assert CommWired(n, n.sockets[l].comm.value); }
  }

  lemma BindKeepsRemembered(n: Net, s: SockId, ip: Ip, p: Port)
    requires Wired(n) && Configured(n) && Remembered(n) && Enabled(n, BindStep(s, ip, p))
    ensures Remembered(Do(n, BindStep(s, ip, p)))
  {
    var m := Do(n, BindStep(s, ip, p));
    if p !in n.Ports(n.sockets[s].host) {
      BindKeepsWired(n, s, ip, p);
      forall c | c in m.comms && n.comms[c].state != Listening ensures Untouched(n, m, c) { BindUntouched(n, s, ip, p, c); }
      forall l | l in m.sockets ensures Queue(m, l) == Queue(n, l) { BindKeepsQueueOf(n, s, ip, p, l); }
      QuietKeepsRemembered(n, m);
    }
  }

  lemma DetachKeepsRemembered(n: Net, s: SockId)
    requires Wired(n) && Remembered(n) && Detachable(n, s)
    ensures Remembered(n.Detached(s))
  {
    var m := n.Detached(s);
    DetachKeepsWired(n, s);
    forall c | c in m.comms && n.comms[c].state != Listening ensures Untouched(n, m, c) { DetachUntouched(n, s, c); }
    forall l | l in m.sockets ensures Queue(m, l) == Queue(n, l) { DetachKeepsQueueOf(n, s, l); }
    QuietKeepsRemembered(n, m);
  }

  lemma DetachUntouched(n: Net, s: SockId, c: CommId)
    requires Wired(n) && Detachable(n, s) && c in n.comms && n.comms[c].state != Listening
    ensures Untouched(n, n.Detached(s), c)
  {
    assert CommWired(n, c) && SocketWired(n, s);
    if n.sockets[s].comm.Some? { assert CommWired(n, n.sockets[s].comm.value); }
    NotElsewhere(n, s, c);
  }

  lemma DetachKeepsQueueOf(n: Net, s: SockId, l: SockId)
    requires Wired(n) && Detachable(n, s) && l in n.sockets
    ensures Queue(n.Detached(s), l) == Queue(n, l)
  {
    assert SocketWired(n, l) && SocketWired(n, s);
    if n.sockets[s].comm.Some? { assert CommWired(n, n.sockets[s].comm.value); }
  }

  lemma ListenKeepsRemembered(n: Net, s: SockId)
    requires Wired(n) && Remembered(n) && s in n.sockets && n.sockets[s].open && n.sockets[s].comm.None?
    ensures Remembered(n.DoListen(s))
  {
    var m := n.DoListen(s);
    ListenKeepsWired(n, s);
    forall c | c in m.comms && c in n.comms ensures Untouched(n, m, c) {
      assert CommWired(n, c);
      NotElsewhere(n, s, c);
    }
    forall l | l in m.sockets ensures Queue(m, l) == Queue(n, l) { assert SocketWired(n, l); }
    QuietKeepsRemembered(n, m);
  }

  lemma CloseKeepsRemembered(n: Net, s: SockId)
    requires Wired(n) && Configured(n) && Remembered(n) && Enabled(n, CloseStep(s))
    ensures Remembered(Do(n, CloseStep(s)))
  {
    var m := Do(n, CloseStep(s));
    CloseKeepsWired(n, s);
    CloseKeepsHosts(n, s);
    forall c | c in m.comms ensures c in n.comms && Untouched(n, m, c) { CloseUntouched(n, s, c); }
    forall l | l in m.sockets ensures l in n.sockets && Queue(m, l) == Queue(n, l) { CloseKeepsQueueOf(n, s, l); }
    QuietKeepsRemembered(n, m);
  }

  lemma ReleaseKeepsHosts(n: Net, s: SockId)
    requires s in n.sockets && n.sockets[s].host in n.hosts
    ensures SameIps(n.hosts, n.Release(s).hosts)
  {
  }

  lemma CloseKeepsHosts(n: Net, s: SockId)
    requires Wired(n) && Configured(n) && Enabled(n, CloseStep(s))
    ensures SameIps(n.hosts, Do(n, CloseStep(s)).hosts)
  {
    assert SocketWired(n, s);
    if n.sockets[s].comm.Some? {
      var k := n.comms[n.sockets[s].comm.value];
      assert CommWired(n, n.sockets[s].comm.value);
      ReleaseKeepsHosts(n, k.sock0);
      if k.state == Closed { ReleaseKeepsHosts(n.Release(k.sock0), k.sock1.value); }
    }
  }

  lemma CloseUntouched(n: Net, s: SockId, c: CommId)
    requires Wired(n) && Configured(n) && Enabled(n, CloseStep(s)) && c in Do(n, CloseStep(s)).comms
    ensures c in n.comms && Untouched(n, Do(n, CloseStep(s)), c)
  {
    assert SocketWired(n, s);
    assert CommWired(n, c);
    CloseKeepsHosts(n, s);
    if n.sockets[s].comm != Some(c) {
      CloseKeepsSocket(n, s, c, n.comms[c].sock0);
      if n.comms[c].sock1.Some? { CloseKeepsSocket(n, s, c, n.comms[c].sock1.value); }
    } else {
      CloseKeepsOwn(n, s, c);
    }
  }

  lemma CloseKeepsQueueOf(n: Net, s: SockId, l: SockId)
    requires Wired(n) && Configured(n) && Enabled(n, CloseStep(s)) && l in Do(n, CloseStep(s)).sockets
    ensures l in n.sockets && Queue(Do(n, CloseStep(s)), l) == Queue(n, l)
  {
    CloseKeepsSocketWired(n, s, l);
    assert SocketWired(n, l) && SocketWired(n, s);
    CloseKeepsWired(n, s);
    assert SocketWired(Do(n, CloseStep(s)), l);
  }

  // ----- send

  lemma SendKeepsRemembered(n: Net, s: SockId, d: Data)
    requires Wired(n) && Configured(n) && Remembered(n) && Enabled(n, SendStep(s, d))
    ensures Remembered(Do(n, SendStep(s, d)))
  {
    var m := Do(n, SendStep(s, d));
    SendKeepsWired(n, s, d);
    assert SocketWired(n, s);
    forall c | c in m.comms ensures CommRemembered(m, c) {
      assert CommRemembered(n, c) && CommWired(n, c);
      if n.sockets[s].comm == Some(c) {
        SendDelivers(n, s, d);
      } else {
        UntouchedKeeps(n, m, c);
      }
    }
    HomedFrame(n, m);
    forall l | l in m.sockets ensures QueueRemembered(m, l) { assert QueueRemembered(n, l); }
    forall l ensures AcceptedInOrder(m.hist, l) { assert AcceptedInOrder(n.hist, l); }
  }

  /** What one end sends is appended to the receive queues of the other end, with a task of the same
      size from the sender's host; its own queues stay as they are. */
  lemma SendDelivers(n: Net, s: SockId, d: Data)
    requires Wired(n) && Configured(n) && Enabled(n, SendStep(s, d)) && n.sockets[s].comm.value in n.comms
    requires CommRemembered(n, n.sockets[s].comm.value)
    ensures var m, c := Do(n, SendStep(s, d)), n.sockets[s].comm.value;
      && Wired(m) && c in m.comms && CommRemembered(m, c)
      && var (k, j, task) := (n.comms[c], m.comms[c], Task(n.sockets[s].host, |d|));
         if k.sock0 == s then j.recv0 == k.recv0 && j.recv1 == Recv(k.recv1.data + [d], k.recv1.tasks + [task])
         else k.sock1 == Some(s) && j.recv1 == k.recv1 && j.recv0 == Recv(k.recv0.data + [d], k.recv0.tasks + [task])
  {
    var m, c := Do(n, SendStep(s, d)), n.sockets[s].comm.value;
    SendKeepsWired(n, s, d);
    assert SocketWired(n, s) && CommWired(n, c);
    PendingOrJoined(n, c);
    PendingOrJoined(m, c);
  }

  // ----- connect

  /** The listener can be reached at the address dialled. */
  ghost predicate Reaches(n: Net, s: SockId, l: SockId, ip: Ip, p: Port)
    requires Dialling(n, s, l)
  {
    && n.sockets[l].port == p
    && if ip == LOOPBACK then n.sockets[l].ip in {ANY, LOOPBACK}
       else n.hosts[n.sockets[l].host].ip == ip && n.sockets[l].ip != LOOPBACK
  }

  lemma DialKeepsFacts(n: Net, s: SockId, l: SockId, ip: Ip, p: Port, local: Port)
    requires Dialling(n, s, l) && Reaches(n, s, l, ip, p) && Facts(n.hist) && Recent(n)
    ensures Facts(n.DoDial(s, l, ip, p, local).hist)
  {
    var m := n.DoDial(s, l, ip, p, local);
    forall k ensures AcceptedInOrder(m.hist, k) {
      assert AcceptedInOrder(n.hist, k);
    }
  }

  lemma DialKeepsHomes(n: Net, s: SockId, l: SockId, ip: Ip, p: Port, local: Port)
    requires Dialling(n, s, l) && Homed(n)
    ensures Homed(n.DoDial(s, l, ip, p, local))
  {
    var m := n.DoDial(s, l, ip, p, local);
    forall c | c in m.hist.dials ensures Home(m.hosts, m.hist.dials[c]) {
      if c != n.nextId { assert Home(n.hosts, n.hist.dials[c]); }
    }
  }

  lemma DialRemembersComm(n: Net, s: SockId, l: SockId, ip: Ip, p: Port, local: Port, c: CommId)
    requires Dialling(n, s, l) && Reaches(n, s, l, ip, p) && Remembered(n)
    requires c in n.DoDial(s, l, ip, p, local).comms
    ensures CommRemembered(n.DoDial(s, l, ip, p, local), c)
  {
    var m := n.DoDial(s, l, ip, p, local);
    DialKeepsWired(n, s, l, ip, p, local);
    if c in n.comms {
      assert CommRemembered(n, c) && CommWired(n, c);
      NotElsewhere(n, s, c);
      UntouchedKeeps(n, m, c);
    } else {
      PendingOrJoined(m, c);
    }
  }

  lemma DialRemembersQueue(n: Net, s: SockId, l: SockId, ip: Ip, p: Port, local: Port, k: SockId)
    requires Dialling(n, s, l) && Remembered(n) && k in n.sockets
    ensures QueueRemembered(n.DoDial(s, l, ip, p, local), k)
  {
    assert QueueRemembered(n, k) && SocketWired(n, k) && SocketWired(n, l);
    if k != l && n.sockets[k].bound { DialOtherQueue(n, l, k); }
  }

  lemma DialKeepsRemembered(n: Net, s: SockId, l: SockId, ip: Ip, p: Port, local: Port)
    requires Dialling(n, s, l) && Reaches(n, s, l, ip, p) && Remembered(n)
    ensures Remembered(n.DoDial(s, l, ip, p, local))
  {
    var m := n.DoDial(s, l, ip, p, local);
    DialKeepsFacts(n, s, l, ip, p, local);
    DialKeepsHomes(n, s, l, ip, p, local);
    forall c | c in m.comms ensures CommRemembered(m, c) { DialRemembersComm(n, s, l, ip, p, local, c); }
    forall k | k in m.sockets ensures QueueRemembered(m, k) { DialRemembersQueue(n, s, l, ip, p, local, k); }
  }

  /** Different listeners have different queues. */
  lemma DialOtherQueue(n: Net, l: SockId, k: SockId)
    requires Wired(n) && Listener(n, l) && k in n.sockets && k != l && n.sockets[k].bound
    ensures n.sockets[k].comm != n.sockets[l].comm
  {
    assert SocketWired(n, k) && SocketWired(n, l) && CommWired(n, n.sockets[l].comm.value);
  }

  // ----- accept

  lemma QueueShifts(all: seq<CommId>, done: seq<CommId>, queue: seq<CommId>)
    requires queue != [] && all == done + queue
    ensures all == done + [queue[0]] + queue[1..] && done + [queue[0]] <= all
  {
  }

  lemma AcceptKeepsFacts(n: Net, l: SockId)
    requires Accepting(n, l) && Remembered(n)
    ensures Facts(Do(n, AcceptStep(l)).hist)
  {
    var m, c, lc := Do(n, AcceptStep(l)), FirstWaiting(n, l), n.sockets[l].comm.value;
    assert CommRemembered(n, c) && CommWired(n, c) && CommWired(n, lc) && SocketWired(n, l);
    assert QueueRemembered(n, l);
    PendingOrJoined(n, c);
    forall k ensures AcceptedInOrder(m.hist, k) {
      assert AcceptedInOrder(n.hist, k);
      if k == l {
        QueueShifts(Of(n.hist.dialled, l), Of(n.hist.accepted, l), n.comms[lc].waiting);
      }
    }
  }

  lemma AcceptRemembersComm(n: Net, l: SockId, c: CommId)
    requires Accepting(n, l) && Remembered(n) && c in n.comms && c != FirstWaiting(n, l)
    ensures CommRemembered(Do(n, AcceptStep(l)), c)
  {
    var m := Do(n, AcceptStep(l));
    AcceptKeepsWired(n, l);
    assert CommRemembered(n, c) && CommWired(n, c);
    UntouchedKeeps(n, m, c);
  }

  lemma AcceptRemembersJoined(n: Net, l: SockId)
    requires Accepting(n, l) && Remembered(n)
    ensures CommRemembered(Do(n, AcceptStep(l)), FirstWaiting(n, l))
  {
    var m, c := Do(n, AcceptStep(l)), FirstWaiting(n, l);
    AcceptKeepsWired(n, l);
    assert CommRemembered(n, c) && CommWired(n, c) && CommWired(n, n.sockets[l].comm.value) && SocketWired(n, l);
    PendingOrJoined(n, c);
    PendingOrJoined(m, c);
  }

  lemma AcceptShiftsQueue(n: Net, l: SockId)
    requires Accepting(n, l) && Remembered(n)
    ensures QueueRemembered(Do(n, AcceptStep(l)), l)
  {
    var c, q := FirstWaiting(n, l), n.comms[n.sockets[l].comm.value].waiting;
    assert SocketWired(n, l) && CommWired(n, c) && QueueRemembered(n, l);
    assert q == [c] + q[1..];
  }

  lemma AcceptRemembersQueue(n: Net, l: SockId, k: SockId)
    requires Accepting(n, l) && Remembered(n) && k in Do(n, AcceptStep(l)).sockets && k != l
    ensures QueueRemembered(Do(n, AcceptStep(l)), k)
  {
    assert SocketWired(n, l) && CommWired(n, FirstWaiting(n, l));
    if k in n.sockets {
      assert QueueRemembered(n, k) && SocketWired(n, k);
      if n.sockets[k].bound { DialOtherQueue(n, l, k); }
    }
  }

  lemma AcceptKeepsHomes(n: Net, l: SockId)
    requires Accepting(n, l) && Homed(n)
    ensures Homed(Do(n, AcceptStep(l)))
  {
    HomedFrame(n, Do(n, AcceptStep(l)));
  }

  lemma AcceptKeepsRemembered(n: Net, l: SockId)
    requires Accepting(n, l) && Remembered(n)
    ensures Remembered(Do(n, AcceptStep(l)))
  {
    var m := Do(n, AcceptStep(l));
    AcceptKeepsHomes(n, l);
    AcceptKeepsFacts(n, l);
    AcceptRemembersJoined(n, l);
    forall c | c in m.comms ensures CommRemembered(m, c) {
      if c != FirstWaiting(n, l) { AcceptRemembersComm(n, l, c); }
    }
    AcceptShiftsQueue(n, l);
    forall k | k in m.sockets && k != l ensures QueueRemembered(m, k) { AcceptRemembersQueue(n, l, k); }
  }
}
