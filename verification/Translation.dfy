/** The address-translation build: simulated addresses and ports are exchanged for real local ports
    when a connect enters the kernel, and exchanged back when it leaves (src/data_utils.c:230-241 and
    309-349, src/sys_bind.c:69-74, src/sys_connect.c:102-111 and 214-247, src/sys_accept.c:176-197). */
module Translation {
  import opened Network

  datatype Key = Key(host: Host, port: Port)
  datatype Addr = Addr(ip: Ip, port: Port)

  /** Who a port was registered for: a bound socket, or the client of a connect, which may have
      dialled the loopback address. */
  datatype Role = Listener | Client(loopback: bool)

  /** port_desc_t with its real port, 0 until it is set; byAccept tells that accept set it last. */
  datatype Entry = Entry(amount: int, role: Role, actual: nat, byAccept: bool)

  /** A connect inside the kernel: the address the process dialled and the one put in its place. */
  datatype Dialling = Dialling(host: Host, local: Port, dialled: Addr, written: Addr)

  /** A finished connect: the address dialled, the one put in its place, whether the kernel made the
      connection, and the address the process finds afterwards. */
  datatype Finished = Finished(host: Host, dialled: Addr, written: Addr, ok: bool, restored: Addr)

  datatype Tables = Tables(ips: map<Host, Ip>, byIp: map<Ip, Host>, entries: map<Key, Entry>,
                           translate: map<nat, Addr>, pending: map<Proc, Dialling>, log: seq<Finished>) {

    /** get_host_by_ip inverts get_ip_of_host, and no host has the loopback address. */
    ghost predicate Platform() {
      && (forall i :: i in byIp ==> byIp[i] in ips && ips[byIp[i]] == i)
      && (forall h :: h in ips ==> ips[h] != LOOPBACK)
    }

    /** The host an address means for a process of host h. */
    predicate Known(h: Host, a: Addr) {
      h in ips && (a.ip == LOOPBACK || (a.ip in byIp && byIp[a.ip] in ips))
    }

    function Target(h: Host, a: Addr): Key
      requires Known(h, a)
    {
      Key(if a.ip == LOOPBACK then h else byIp[a.ip], a.port)
    }

    /** get_real_port. */
    function RealPort(h: Host, a: Addr): (r: int)
      requires Known(h, a)
      ensures r == -1 <==> Target(h, a) !in entries
    {
      if Target(h, a) in entries then entries[Target(h, a)].actual else -1
    }

    /** sys_translate_connect_in; the port passes through sixteen bits. */
    function Inward(h: Host, a: Addr): (r: Addr)
      requires Known(h, a)
      ensures r.ip == LOOPBACK && r.port < PORTS && (Target(h, a) !in entries ==> r.port == PORTS - 1)
    {
      Addr(LOOPBACK, RealPort(h, a) % PORTS)
    }

    /** set_real_port and add_new_translation. */
    function Named(k: Key, r: nat, ip: Ip, accept: bool): Tables {
      this.(entries := if k in entries then entries[k := entries[k].(actual := r, byAccept := accept)] else entries,
            translate := translate[r := Addr(ip, k.port)])
    }

    /** register_port on a port already in use. */
    function Shared(k: Key): Tables
      requires k in entries
    {
      this.(entries := entries[k := entries[k].(amount := entries[k].amount + 1)])
    }

    // ----- steps

    function DoBind(k: Key, r: nat): Tables
      requires k.host in ips
    {
      if k in entries then this
      else this.(entries := entries[k := Entry(1, Listener, 0, false)]).Named(k, r, ips[k.host], false)
    }

    function DoEnter(q: Proc, h: Host, a: Addr, local: Port): Tables
      requires Known(h, a)
    {
      this.(pending := pending[q := Dialling(h, local, a, Inward(h, a))],
            entries := entries[Key(h, local) := Entry(1, Client(a.ip == LOOPBACK), 0, false)])
    }

    /** The exit of a connect. When the kernel has refused it, the address is left as it is. */
    function DoExit(q: Proc, ok: bool, r: nat): Tables
      requires q in pending && pending[q].written.port in translate && pending[q].host in ips
    {
      var d := pending[q];
      if ok then Left(q, true, translate[d.written.port]).Named(Key(d.host, d.local), r, ips[d.host], false)
      else Left(q, false, d.written)
    }

    /** The process has left its connect and finds an address. */
    function Left(q: Proc, ok: bool, found: Addr): Tables
      requires q in pending
    {
      var d := pending[q];
      this.(pending := pending - {q}, log := log + [Finished(d.host, d.dialled, d.written, ok, found)])
    }

    function DoAccept(l: Key, c: Key, r: nat): Tables
      requires l in entries && c in entries && entries[c].role.Client? && c.host in ips
    {
      Named(c, r, if entries[c].role.loopback then LOOPBACK else ips[c.host], true).Shared(l)
    }

    function DoClose(k: Key): Tables
      requires k in entries
    {
      if entries[k].amount == 1 then this.(entries := entries - {k})
      else this.(entries := entries[k := entries[k].(amount := entries[k].amount - 1)])
    }
  }

  datatype Step =
    | Bind(k: Key, r: nat)
    | Enter(q: Proc, h: Host, a: Addr, local: Port)
    | Exit(q: Proc, ok: bool, r: nat)
    | Accept(l: Key, c: Key, r: nat)
    | Close(k: Key)

  /** A real port in use: set for a registered port, or aimed at by a connect inside the kernel. */
  ghost predicate Busy(t: Tables, r: nat) {
    || (exists k :: k in t.entries && t.entries[k].actual == r)
    || (exists q :: q in t.pending && t.pending[q].written.port == r)
  }

  /** What the kernel guarantees about a real port for k: it is the one k has already, or nobody's. */
  ghost predicate Proper(t: Tables, k: Key, r: nat) {
    0 < r < PORTS && ((k in t.entries && t.entries[k].actual == r) || !Busy(t, r))
  }

  ghost predicate Enabled(t: Tables, s: Step) {
    match s
    case Bind(k, r) => k.host in t.ips && (k in t.entries || Proper(t, k, r))
    case Enter(q, h, a, local) =>
      && q !in t.pending && t.Known(h, a) && Key(h, local) !in t.entries
      && t.Target(h, a) in t.entries && t.entries[t.Target(h, a)].role == Listener
    case Exit(q, ok, r) => q in t.pending && (ok ==> Proper(t, Key(t.pending[q].host, t.pending[q].local), r))
    case Accept(l, c, r) =>
      l in t.entries && c in t.entries && t.entries[c].role.Client? && Proper(t, c, r)
    case Close(k) => k in t.entries
  }

  // ----- the invariant

  /** The real port of a registered port translates back to it, except that accept leaves the
      loopback address for a client that dialled it. */
  ghost predicate EntrySound(t: Tables, k: Key)
    requires k in t.entries
  {
    var e := t.entries[k];
    && k.host in t.ips
    && (e.role == Listener ==> e.actual != 0 && !e.byAccept)
    && e.actual < PORTS
    && (e.actual != 0 ==>
          && e.actual in t.translate
          && t.translate[e.actual]
               == Addr(if e.byAccept && e.role == Client(true) then LOOPBACK else t.ips[k.host], k.port))
  }

  /** Only the port that was dialled can have the real port a connect is aimed at. */
  ghost predicate Aimed(t: Tables, d: Dialling, k: Key)
    requires k in t.entries && t.Known(d.host, d.dialled)
  {
    t.entries[k].actual == d.written.port ==> k == t.Target(d.host, d.dialled) && t.entries[k].role == Listener
  }

  ghost predicate DialSound(t: Tables, q: Proc)
    requires q in t.pending
  {
    var d := t.pending[q];
    && t.Known(d.host, d.dialled)
    && d.written.ip == LOOPBACK
    && 0 < d.written.port
    && d.written.port in t.translate
    && t.translate[d.written.port] == Addr(t.ips[t.Target(d.host, d.dialled).host], d.dialled.port)
    && forall k {:trigger Aimed(t, d, k)} :: k in t.entries ==> Aimed(t, d, k)
  }

  ghost predicate Apart(t: Tables, j: Key, k: Key)
    requires j in t.entries && k in t.entries
  {
    t.entries[j].actual == t.entries[k].actual != 0 ==> j == k
  }

  ghost predicate LogSound(t: Tables, f: Finished) {
    && f.host in t.ips && f.written.ip == LOOPBACK
    && f.restored == if !f.ok then f.written
         else Addr(if f.dialled.ip == LOOPBACK then t.ips[f.host] else f.dialled.ip, f.dialled.port)
  }

  ghost predicate Sound(t: Tables) {
    && t.Platform()
    && (forall k {:trigger EntrySound(t, k)} :: k in t.entries ==> EntrySound(t, k))
    && (forall j, k {:trigger Apart(t, j, k)} :: j in t.entries && k in t.entries ==> Apart(t, j, k))
    && (forall q {:trigger DialSound(t, q)} :: q in t.pending ==> DialSound(t, q))
    && (forall i :: 0 <= i < |t.log| ==> LogSound(t, t.log[i]))
  }

  function Do(t: Tables, s: Step): Tables
    requires Sound(t) && Enabled(t, s)
  {
    match s
    case Bind(k, r) => t.DoBind(k, r)
    case Enter(q, h, a, local) => t.DoEnter(q, h, a, local)
    case Exit(q, ok, r) => assert DialSound(t, q); t.DoExit(q, ok, r)
    case Accept(l, c, r) => assert EntrySound(t, c); t.DoAccept(l, c, r)
    case Close(k) => t.DoClose(k)
  }

  /** The address a port's real port translates to: accept reports the loopback address for a client
      that dialled it. */
  function Label(t: Tables, k: Key, accept: bool): Ip
    requires k in t.entries && k.host in t.ips
  {
    if accept && t.entries[k].role == Client(true) then LOOPBACK else t.ips[k.host]
  }

  ghost predicate Nameable(t: Tables, k: Key, r: nat, accept: bool) {
    && Sound(t) && k in t.entries && k.host in t.ips && Proper(t, k, r)
    && (t.entries[k].role == Listener ==> !accept)
  }

  lemma NamedKeepsEntry(t: Tables, k: Key, r: nat, accept: bool, j: Key)
    requires Nameable(t, k, r, accept) && j in t.entries
    ensures EntrySound(t.Named(k, r, Label(t, k, accept), accept), j)
  {
    assert EntrySound(t, j) && Apart(t, j, k);
  }

  lemma NamedKeepsApart(t: Tables, k: Key, r: nat, accept: bool, i: Key, j: Key)
    requires Nameable(t, k, r, accept) && i in t.entries && j in t.entries
    ensures Apart(t.Named(k, r, Label(t, k, accept), accept), i, j)
  {
    assert Apart(t, i, j);
  }

  lemma NamedKeepsDial(t: Tables, k: Key, r: nat, accept: bool, q: Proc)
    requires Nameable(t, k, r, accept) && q in t.pending
    ensures DialSound(t.Named(k, r, Label(t, k, accept), accept), q)
  {
    var u, d := t.Named(k, r, Label(t, k, accept), accept), t.pending[q];
    assert DialSound(t, q) && EntrySound(t, k) && Aimed(t, d, k);
    forall j | j in u.entries ensures Aimed(u, d, j) { assert Aimed(t, d, j); }
  }

  /** Naming a port keeps the tables sound, whoever does it. */
  lemma NamedKeeps(t: Tables, k: Key, r: nat, accept: bool)
    requires Nameable(t, k, r, accept)
    ensures Sound(t.Named(k, r, Label(t, k, accept), accept))
  {
    var u := t.Named(k, r, Label(t, k, accept), accept);
    forall j | j in u.entries ensures EntrySound(u, j) { NamedKeepsEntry(t, k, r, accept, j); }
    forall i, j | i in u.entries && j in u.entries ensures Apart(u, i, j) { NamedKeepsApart(t, k, r, accept, i, j); }
    forall q | q in u.pending ensures DialSound(u, q) { NamedKeepsDial(t, k, r, accept, q); }
  }

  /** A connect whose port has been given up meanwhile names nothing but its real port. */
  lemma NamelessKeeps(t: Tables, k: Key, r: nat, ip: Ip)
    requires Sound(t) && k !in t.entries && Proper(t, k, r)
    ensures Sound(t.Named(k, r, ip, false))
  {
    var u := t.Named(k, r, ip, false);
    forall j | j in u.entries ensures EntrySound(u, j) { assert EntrySound(t, j); }
    forall i, j | i in u.entries && j in u.entries ensures Apart(u, i, j) { assert Apart(t, i, j); }
    forall q | q in u.pending ensures DialSound(u, q) {
      assert DialSound(t, q);
      forall j | j in u.entries ensures Aimed(u, t.pending[q], j) { assert Aimed(t, t.pending[q], j); }
    }
  }

  lemma BindKeeps(t: Tables, k: Key, r: nat)
    requires Sound(t) && k.host in t.ips && k !in t.entries && Proper(t, k, r)
    ensures Sound(t.DoBind(k, r))
  {
    var u := t.DoBind(k, r);
    forall j | j in u.entries ensures EntrySound(u, j) {
      if j != k { assert EntrySound(t, j); }
    }
    forall i, j | i in u.entries && j in u.entries ensures Apart(u, i, j) {
      if i != k && j != k { assert Apart(t, i, j); }
    }
    forall q | q in u.pending ensures DialSound(u, q) {
      assert DialSound(t, q);
      var d := t.pending[q];
      forall j | j in u.entries ensures Aimed(u, d, j) { if j != k { assert Aimed(t, d, j); } }
    }
  }

  lemma EnterKeeps(t: Tables, q: Proc, h: Host, a: Addr, local: Port)
    requires Sound(t) && Enabled(t, Enter(q, h, a, local))
    ensures Sound(t.DoEnter(q, h, a, local))
  {
    var u, target, c := t.DoEnter(q, h, a, local), t.Target(h, a), Key(h, local);
    assert EntrySound(t, target);
    forall j | j in u.entries ensures EntrySound(u, j) {
      if j != c { assert EntrySound(t, j); }
    }
    forall i, j | i in u.entries && j in u.entries ensures Apart(u, i, j) {
      if i != c && j != c { assert Apart(t, i, j); }
    }
    forall p | p in u.pending ensures DialSound(u, p) {
      if p != q { assert DialSound(t, p); }
      var d := u.pending[p];
      forall j | j in u.entries ensures Aimed(u, d, j) {
        if j != c {
          if p != q { assert Aimed(t, d, j); } else { assert Apart(t, j, target); }
        }
      }
    }
  }

  /** Leaving a connect keeps the tables sound, with the address of the dialled host put back or with
      none put back. */
  lemma LeftKeeps(t: Tables, q: Proc, ok: bool)
    requires Sound(t) && q in t.pending && DialSound(t, q)
    ensures Sound(t.Left(q, ok, if ok then t.translate[t.pending[q].written.port] else t.pending[q].written))
  {
    var d := t.pending[q];
    var found := if ok then t.translate[d.written.port] else d.written;
    var u := t.Left(q, ok, found);
    forall j | j in u.entries ensures EntrySound(u, j) { assert EntrySound(t, j); }
    forall i, j | i in u.entries && j in u.entries ensures Apart(u, i, j) { assert Apart(t, i, j); }
    forall p | p in u.pending ensures DialSound(u, p) {
      assert DialSound(t, p);
      forall j | j in u.entries ensures Aimed(u, t.pending[p], j) { assert Aimed(t, t.pending[p], j); }
    }
    assert LogSound(u, Finished(d.host, d.dialled, d.written, ok, found));
  }

  lemma LeftKeepsProper(t: Tables, q: Proc, found: Addr, k: Key, r: nat)
    requires q in t.pending && Proper(t, k, r)
    ensures Proper(t.Left(q, true, found), k, r)
  {
  }

  /** Dropping entries, or changing how many sockets share one, keeps the tables sound. */
  lemma FewerKeeps(t: Tables, u: Tables)
    requires Sound(t) && u == t.(entries := u.entries) && u.entries.Keys <= t.entries.Keys
    requires forall k :: k in u.entries ==> u.entries[k] == t.entries[k].(amount := u.entries[k].amount)
    ensures Sound(u)
  {
    forall j | j in u.entries ensures EntrySound(u, j) { assert EntrySound(t, j); }
    forall i, j | i in u.entries && j in u.entries ensures Apart(u, i, j) { assert Apart(t, i, j); }
    forall q | q in u.pending ensures DialSound(u, q) {
      assert DialSound(t, q);
      forall j | j in u.entries ensures Aimed(u, t.pending[q], j) { assert Aimed(t, t.pending[q], j); }
    }
  }

  lemma ExitKeeps(t: Tables, q: Proc, ok: bool, r: nat)
    requires Sound(t) && Enabled(t, Exit(q, ok, r))
    ensures Sound(Do(t, Exit(q, ok, r)))
  {
    assert DialSound(t, q);
    LeftKeeps(t, q, ok);
    if ok {
      var d := t.pending[q];
      var found, own := t.translate[d.written.port], Key(d.host, d.local);
      var u := t.Left(q, true, found);
      LeftKeepsProper(t, q, found, own, r);
      if own in u.entries { NamedKeeps(u, own, r, false); } else { NamelessKeeps(u, own, r, u.ips[d.host]); }
    }
  }

  lemma AcceptKeeps(t: Tables, l: Key, c: Key, r: nat)
    requires Sound(t) && Enabled(t, Accept(l, c, r))
    ensures Sound(Do(t, Accept(l, c, r)))
  {
    assert EntrySound(t, c);
    NamedKeeps(t, c, r, true);
    var u := t.Named(c, r, Label(t, c, true), true);
    FewerKeeps(u, u.Shared(l));
  }

  /** Every step of every process keeps the tables sound. */
  lemma StepKeeps(t: Tables, s: Step)
    requires Sound(t) && Enabled(t, s)
    ensures Sound(Do(t, s))
  {
    match s
    case Bind(k, r) => if k !in t.entries { BindKeeps(t, k, r); }
    case Enter(q, h, a, local) => EnterKeeps(t, q, h, a, local);
    case Exit(q, ok, r) => ExitKeeps(t, q, ok, r);
    case Accept(l, c, r) => AcceptKeeps(t, l, c, r);
    case Close(k) => FewerKeeps(t, t.DoClose(k));
  }

  // ----- runs

  ghost predicate Legal(t: Tables, run: seq<Step>)
    requires Sound(t)
    decreases |run|
  {
    run == [] || (Enabled(t, run[0]) && (StepKeeps(t, run[0]); Legal(Do(t, run[0]), run[1..])))
  }

  ghost function After(t: Tables, run: seq<Step>): Tables
    requires Sound(t) && Legal(t, run)
    decreases |run|
  {
    if run == [] then t else StepKeeps(t, run[0]); After(Do(t, run[0]), run[1..])
  }

  /** Nothing registered, nothing translated, on a platform with distinct addresses. */
  ghost predicate Initial(t: Tables) {
    t.Platform() && t.entries == map[] && t.translate == map[] && t.pending == map[] && t.log == []
  }

  lemma {:induction false} RunKeeps(t: Tables, run: seq<Step>)
    requires Sound(t) && Legal(t, run)
    ensures Sound(After(t, run)) && After(t, run).ips == t.ips
    decreases |run|
  {
    if run != [] {
      StepKeeps(t, run[0]);
      RunKeeps(Do(t, run[0]), run[1..]);
    }
  }

  /** In every run, whatever happens between its two halves, a connect gives the process back the
      address it dialled if and only if the kernel makes the connection and the address is not the
      loopback address, or the kernel refuses it and the address is the loopback address at a port that is
      its own real port. After a refusal the process finds the loopback address and the real port; after
      dialling the loopback address, that of its own host. */
  lemma DialledAddressRestored(t: Tables, run: seq<Step>, i: nat)
    requires Initial(t) && Legal(t, run) && i < |After(t, run).log|
    ensures var f := After(t, run).log[i];
            && f.host in t.ips && f.written.ip == LOOPBACK
            && (f.restored == f.dialled <==> if f.ok then f.dialled.ip != LOOPBACK else f.dialled == f.written)
            && (!f.ok ==> f.restored == f.written)
            && (f.ok && f.dialled.ip == LOOPBACK ==> f.restored == Addr(t.ips[f.host], f.dialled.port))
  {
    RunKeeps(t, run);
    assert LogSound(After(t, run), After(t, run).log[i]);
  }

  /** In every reachable state the real port of a registered port translates back to its simulated
      address if and only if it is not a loopback client that accept named last. */
  lemma RealPortTranslatesBack(t: Tables, run: seq<Step>, a: Addr)
    requires Initial(t) && Legal(t, run)
    requires var u := After(t, run); a.ip in u.byIp && Key(u.byIp[a.ip], a.port) in u.entries
    requires var u := After(t, run); u.entries[Key(u.byIp[a.ip], a.port)].actual != 0
    ensures var u := After(t, run);
            var h := u.byIp[a.ip];
            var e := u.entries[Key(h, a.port)];
            && a.ip != LOOPBACK
            && u.Known(h, a)
            && var r := u.RealPort(h, a);
               && 0 < r < PORTS && r in u.translate
               && (u.translate[r] == a <==> !(e.role == Client(true) && e.byAccept))
  {
    RunKeeps(t, run);
    var u := After(t, run);
    assert EntrySound(u, Key(u.byIp[a.ip], a.port));
  }

  /** Two registered ports never share a real port. */
  lemma RealPortsDistinct(t: Tables, run: seq<Step>, j: Key, k: Key)
    requires Initial(t) && Legal(t, run) && j in After(t, run).entries && k in After(t, run).entries
    requires After(t, run).entries[j].actual == After(t, run).entries[k].actual != 0
    ensures j == k
  {
    RunKeeps(t, run);
    assert Apart(After(t, run), j, k);
  }

  // ----- dials that are not restored

  const START := Tables(map[7 := 100], map[100 := 7], map[], map[], map[], [])
  const BOUND := START.(entries := map[Key(7, 80) := Entry(1, Listener, 40000, false)],
                        translate := map[40000 := Addr(100, 80)])

  /** A process of the one host has dialled its own listener, at either of its addresses. */
  function Inside(a: Addr): Tables {
    BOUND.(entries := BOUND.entries[Key(7, 65535) := Entry(1, Client(a.ip == LOOPBACK), 0, false)],
           pending := map[1 := Dialling(7, 65535, a, Addr(LOOPBACK, 40000))])
  }

  function DialRun(a: Addr, ok: bool): seq<Step> {
    [Bind(Key(7, 80), 40000), Enter(1, 7, a, 65535), Exit(1, ok, 50000)]
  }

  lemma RunFrom(t: Tables, run: seq<Step>)
    requires Sound(t) && run != [] && Enabled(t, run[0])
    ensures Sound(Do(t, run[0]))
    ensures Legal(Do(t, run[0]), run[1..]) ==> Legal(t, run) && After(t, run) == After(Do(t, run[0]), run[1..])
  {
    StepKeeps(t, run[0]);
  }

  lemma ThreeSteps(t: Tables, u: Tables, v: Tables, run: seq<Step>)
    requires |run| == 3 && Sound(t) && Enabled(t, run[0]) && Do(t, run[0]) == u
    requires Sound(u) && Enabled(u, run[1]) && Do(u, run[1]) == v
    requires Sound(v) && Enabled(v, run[2])
    ensures Legal(t, run) && After(t, run) == Do(v, run[2])
  {
    RunFrom(v, run[2..]);
    assert run[2..][1..] == [] && run[1..][1..] == run[2..];
    RunFrom(u, run[1..]);
    RunFrom(t, run);
  }

  lemma BindFirst()
    ensures Sound(START) && Enabled(START, Bind(Key(7, 80), 40000)) && Do(START, Bind(Key(7, 80), 40000)) == BOUND
    ensures Sound(BOUND)
  {
    StepKeeps(START, Bind(Key(7, 80), 40000));
  }

  lemma DialSecond(a: Addr)
    requires Sound(BOUND) && (a == Addr(LOOPBACK, 80) || a == Addr(100, 80))
    ensures Enabled(BOUND, Enter(1, 7, a, 65535)) && Do(BOUND, Enter(1, 7, a, 65535)) == Inside(a) && Sound(Inside(a))
  {
    assert BOUND.Known(7, a) && BOUND.Target(7, a) == Key(7, 80);
    assert BOUND.RealPort(7, a) == 40000;
    StepKeeps(BOUND, Enter(1, 7, a, 65535));
  }

  lemma DialReturns(a: Addr, ok: bool)
    requires Sound(Inside(a))
    ensures Enabled(Inside(a), Exit(1, ok, 50000))
    ensures Do(Inside(a), Exit(1, ok, 50000)).log ==
      [Finished(7, a, Addr(LOOPBACK, 40000), ok, if ok then Addr(100, 80) else Addr(LOOPBACK, 40000))]
  {
    var t := Inside(a);
    assert forall k :: k in t.entries ==> k == Key(7, 80) || k == Key(7, 65535);
    assert !Busy(t, 50000);
  }

  lemma DialRunEnds(a: Addr, ok: bool)
    requires a == Addr(LOOPBACK, 80) || a == Addr(100, 80)
    ensures Initial(START) && Sound(START) && Legal(START, DialRun(a, ok))
    ensures After(START, DialRun(a, ok)).log ==
      [Finished(7, a, Addr(LOOPBACK, 40000), ok, if ok then Addr(100, 80) else Addr(LOOPBACK, 40000))]
  {
    BindFirst();
    DialSecond(a);
    DialReturns(a, ok);
    ThreeSteps(START, BOUND, Inside(a), DialRun(a, ok));
  }

  /** A process that dials 127.0.0.1:80 finds the address of its host instead. */
  lemma LoopbackNotRestored()
    ensures Initial(START) && Sound(START) && Legal(START, DialRun(Addr(LOOPBACK, 80), true))
    ensures After(START, DialRun(Addr(LOOPBACK, 80), true)).log[0].restored == Addr(100, 80)
  {
    DialRunEnds(Addr(LOOPBACK, 80), true);
  }

  /** A process that dials its host at port 80 and is refused finds 127.0.0.1 and the real port. */
  lemma RefusedRun()
    ensures Initial(START) && Sound(START) && Legal(START, DialRun(Addr(100, 80), false))
    ensures After(START, DialRun(Addr(100, 80), false)).log[0].restored == Addr(LOOPBACK, 40000)
  {
    DialRunEnds(Addr(100, 80), false);
  }

  /** A connect that the kernel refuses is not given its address back: for every pending dial of another
      host, whatever has happened before. */
  lemma RefusedNotRestored(t: Tables, q: Proc, r: nat)
    requires Sound(t) && q in t.pending && t.pending[q].dialled.ip != LOOPBACK
    ensures Enabled(t, Exit(q, false, r))
    ensures var u := Do(t, Exit(q, false, r));
      && Sound(u) && |u.log| == |t.log| + 1 && u.entries == t.entries && u.translate == t.translate
      && u.log[|t.log|].dialled == t.pending[q].dialled && u.log[|t.log|].restored != u.log[|t.log|].dialled
  {
    assert DialSound(t, q);
    ExitKeeps(t, q, false, r);
  }

  // ----- the tables as the simulator updates them

  class Translator {
    const ips: map<Host, Ip>
    const byIp: map<Ip, Host>
    var entries: map<Key, Entry>
    var translate: map<nat, Addr>

    constructor (ips: map<Host, Ip>, byIp: map<Ip, Host>)
      ensures this.ips == ips && this.byIp == byIp && View() == Tables(ips, byIp, map[], map[], map[], [])
    {
      this.ips, this.byIp, entries, translate := ips, byIp, map[], map[];
    }

    ghost function View(): Tables
      reads this
    {
      Tables(ips, byIp, entries, translate, map[], [])
    }

    /** A port without descriptor is left alone. */
    method SetRealPort(k: Key, r: nat, accept: bool)
      modifies `entries
      ensures entries == old(View().Named(k, r, 0, accept)).entries
    {
      if k in entries {
        entries := entries[k := entries[k].(actual := r, byAccept := accept)];
      }
    }

    method AddNewTranslation(r: nat, a: Addr)
      modifies `translate
      ensures translate == old(translate)[r := a]
    {
      translate := translate[r := a];
    }

    method GetRealPort(h: Host, a: Addr) returns (r: int)
      requires View().Known(h, a)
      ensures r == View().RealPort(h, a)
    {
      var k: Key;
      if a.ip == LOOPBACK {
        k := Key(h, a.port);
      } else {
        k := Key(byIp[a.ip], a.port);
      }
      if k !in entries {
        return -1;
      }
      return entries[k].actual;
    }

    /** bind, with the free real port found for it; a port in use is refused. */
    method Bind(k: Key, r: nat) returns (ok: bool)
      requires k.host in ips
      modifies this
      ensures View() == old(View().DoBind(k, r)) && (ok <==> k !in old(entries))
    {
      if k in entries {
        return false;
      }
      entries := entries[k := Entry(1, Listener, 0, false)];
      SetRealPort(k, r, false);
      AddNewTranslation(r, Addr(ips[k.host], k.port));
      return true;
    }

    method ConnectIn(h: Host, sai: Addr) returns (out: Addr)
      requires View().Known(h, sai)
      ensures out == View().Inward(h, sai)
    {
      var r := GetRealPort(h, sai);
      out := Addr(LOOPBACK, r % PORTS);
    }

    /** The exit of a connect. If the kernel has made the connection, the process gets its address back,
        and its own real port is recorded. */
    method ConnectOut(ghost t: Tables, ghost q: Proc, h: Host, local: Port, sai: Addr, ok: bool, own: nat)
      returns (out: Addr)
      requires h in ips && sai.port in translate
      requires q in t.pending && t.pending[q].host == h && t.pending[q].local == local && t.pending[q].written == sai
      requires t.(pending := map[], log := []) == View()
      modifies this
      ensures View() == t.DoExit(q, ok, own).(pending := map[], log := [])
      ensures t.DoExit(q, ok, own).log == t.log + [Finished(h, t.pending[q].dialled, sai, ok, out)]
    {
      if !ok {
        return sai;
      }
      out := translate[sai.port];
      SetRealPort(Key(h, local), own, false);
      AddNewTranslation(own, Addr(ips[h], local));
    }

    /** The exit of an accept, for the client at the head of the queue. */
    method AcceptOut(l: Key, client: Key, ip: Ip, r: nat)
      requires client in entries && entries[client].role.Client? && client.host in ips && l in entries
      requires ip == if entries[client].role.loopback then LOOPBACK else ips[client.host]
      requires byIp.Keys == ips.Values && forall h :: h in ips ==> byIp[ips[h]] == h
      requires ip == LOOPBACK ==> client.host == l.host
      requires LOOPBACK !in byIp
      modifies this
      ensures View() == old(View().DoAccept(l, client, r))
    {
      var host: Host;
      if ip == LOOPBACK {
        host := l.host;
      } else {
        host := byIp[ip];
      }
      SetRealPort(Key(host, client.port), r, true);
      AddNewTranslation(r, Addr(ip, client.port));
      entries := entries[l := entries[l].(amount := entries[l].amount + 1)];
    }
  }
}
