/** What a run of the address-translation build has done, told from its steps alone: which connects are
    inside the kernel and which have come back, who has which real port, and how many sockets share a
    registered port. The tables are proved to agree, over every run. */
module Ledger {
  import opened Network
  import opened Translation

  datatype Account = Account(users: int, actual: nat)
  datatype Call = Call(host: Host, local: Port, dialled: Addr)
  datatype Return = Return(host: Host, dialled: Addr, ok: bool)

  datatype Book = Book(ports: map<Key, Account>, inside: map<Proc, Call>, done: seq<Return>)

  const BLANK := Book(map[], map[], [])

  /** The port gets a real port, if it is registered. */
  function Given(ports: map<Key, Account>, k: Key, r: nat): map<Key, Account> {
    if k in ports then ports[k := Account(ports[k].users, r)] else ports
  }

  /** One socket more, or less, on a registered port; the last one gives the port up. */
  function Shared(ports: map<Key, Account>, k: Key, more: int): map<Key, Account> {
    if k !in ports then ports
    else if ports[k].users + more == 0 then ports - {k}
    else ports[k := Account(ports[k].users + more, ports[k].actual)]
  }

  function Next(b: Book, s: Step): Book {
    match s
    case Bind(k, r) => if k in b.ports then b else b.(ports := b.ports[k := Account(1, r)])
    case Enter(q, h, a, local) =>
      b.(ports := b.ports[Key(h, local) := Account(1, 0)], inside := b.inside[q := Call(h, local, a)])
    case Exit(q, ok, r) =>
      if q !in b.inside then b
      else
        var c := b.inside[q];
        Book(if ok then Given(b.ports, Key(c.host, c.local), r) else b.ports,
             b.inside - {q}, b.done + [Return(c.host, c.dialled, ok)])
    case Accept(l, c, r) => b.(ports := Shared(Given(b.ports, c, r), l, 1))
    case Close(k) => b.(ports := Shared(b.ports, k, -1))
  }

  // ----- the tables agree

  ghost function Told(t: Tables): Book {
    Book(map k | k in t.entries :: Account(t.entries[k].amount, t.entries[k].actual),
         map q | q in t.pending :: Call(t.pending[q].host, t.pending[q].local, t.pending[q].dialled),
         seq(|t.log|, i requires 0 <= i < |t.log| => Return(t.log[i].host, t.log[i].dialled, t.log[i].ok)))
  }

  /** Every registered port has a socket on it. */
  ghost predicate InUse(t: Tables) {
    forall k :: k in t.entries ==> t.entries[k].amount >= 1
  }

  lemma BindTold(t: Tables, k: Key, r: nat)
    requires k.host in t.ips
    ensures Told(t.DoBind(k, r)) == Next(Told(t), Bind(k, r))
  {
    assert Told(t.DoBind(k, r)).ports == Next(Told(t), Bind(k, r)).ports;
  }

  lemma EnterTold(t: Tables, q: Proc, h: Host, a: Addr, local: Port)
    requires t.Known(h, a)
    ensures Told(t.DoEnter(q, h, a, local)) == Next(Told(t), Enter(q, h, a, local))
  {
    var u, b := Told(t.DoEnter(q, h, a, local)), Next(Told(t), Enter(q, h, a, local));
    assert u.ports == b.ports && u.inside == b.inside;
  }

  lemma ExitTold(t: Tables, q: Proc, ok: bool, r: nat)
    requires q in t.pending && t.pending[q].written.port in t.translate && t.pending[q].host in t.ips
    ensures Told(t.DoExit(q, ok, r)) == Next(Told(t), Exit(q, ok, r))
  {
    var u, b := Told(t.DoExit(q, ok, r)), Next(Told(t), Exit(q, ok, r));
    assert u.done == b.done && u.inside == b.inside && u.ports == b.ports;
  }

  lemma AcceptTold(t: Tables, l: Key, c: Key, r: nat)
    requires InUse(t) && l in t.entries && c in t.entries && t.entries[c].role.Client? && c.host in t.ips
    ensures Told(t.DoAccept(l, c, r)) == Next(Told(t), Accept(l, c, r))
  {
    assert Told(t.DoAccept(l, c, r)).ports == Next(Told(t), Accept(l, c, r)).ports;
  }

  lemma CloseTold(t: Tables, k: Key)
    requires k in t.entries
    ensures Told(t.DoClose(k)) == Next(Told(t), Close(k))
  {
    assert Told(t.DoClose(k)).ports == Next(Told(t), Close(k)).ports;
  }

  lemma StepInUse(t: Tables, s: Step)
    requires Sound(t) && InUse(t) && Enabled(t, s)
    ensures InUse(Do(t, s))
  {
  }

  /** Every step does to the tables what the book says. */
  lemma StepTold(t: Tables, s: Step)
    requires Sound(t) && InUse(t) && Enabled(t, s)
    ensures Told(Do(t, s)) == Next(Told(t), s)
  {
    match s
    case Bind(k, r) => BindTold(t, k, r);
    case Enter(q, h, a, local) => EnterTold(t, q, h, a, local);
    case Exit(q, ok, r) =>
      assert DialSound(t, q);
      ExitTold(t, q, ok, r);
    case Accept(l, c, r) =>
      assert EntrySound(t, c);
      AcceptTold(t, l, c, r);
    case Close(k) => CloseTold(t, k);
  }

  ghost function Kept(b: Book, run: seq<Step>): Book
    decreases |run|
  {
    if run == [] then b else Kept(Next(b, run[0]), run[1..])
  }

  lemma {:induction false} RunToldFrom(t: Tables, run: seq<Step>)
    requires Sound(t) && InUse(t) && Legal(t, run)
    ensures InUse(After(t, run)) && Told(After(t, run)) == Kept(Told(t), run)
    decreases |run|
  {
    if run != [] {
      StepKeeps(t, run[0]);
      StepInUse(t, run[0]);
      StepTold(t, run[0]);
      RunToldFrom(Do(t, run[0]), run[1..]);
    }
  }

  /** In every run the tables hold what the steps say: the connects inside the kernel, the ones that have
      come back with the address each had dialled, the real ports, and the number of sockets on each port. */
  lemma RunTold(t: Tables, run: seq<Step>)
    requires Initial(t) && Legal(t, run)
    ensures Told(After(t, run)) == Kept(BLANK, run)
  {
    RunToldFrom(t, run);
    assert Told(t) == BLANK;
  }

  // ----- one port

  /** How many sockets are on port k after a step, from how many were there before. */
  function Tally(n: int, s: Step, k: Key): int {
    match s
    case Bind(j, _) => if j == k && n == 0 then 1 else n
    case Enter(_, h, _, local) => if Key(h, local) == k then n + 1 else n
    case Exit(_, _, _) => n
    case Accept(l, _, _) => if l == k then n + 1 else n
    case Close(j) => if j == k then n - 1 else n
  }

  function Tallied(n: int, run: seq<Step>, k: Key): int
    decreases |run|
  {
    if run == [] then n else Tallied(Tally(n, run[0], k), run[1..], k)
  }

  ghost function Users(t: Tables, k: Key): int {
    if k in t.entries then t.entries[k].amount else 0
  }

  lemma StepTallies(t: Tables, s: Step, k: Key)
    requires Sound(t) && InUse(t) && Enabled(t, s)
    ensures Users(Do(t, s), k) == Tally(Users(t, k), s, k)
  {
    match s
    case Exit(q, ok, r) => assert DialSound(t, q);
    case Accept(l, c, r) => assert EntrySound(t, c);
    case _ =>
  }

  /** In every run a registered port has its entry as long as more sockets have come to it than have
      been closed, and the entry counts them. */
  lemma {:induction false} PortShared(t: Tables, run: seq<Step>, k: Key)
    requires Sound(t) && InUse(t) && Legal(t, run)
    ensures var u, n := After(t, run), Tallied(Users(t, k), run, k);
      (k in u.entries <==> n > 0) && (k in u.entries ==> u.entries[k].amount == n)
    decreases |run|
  {
    if run != [] {
      StepKeeps(t, run[0]);
      StepInUse(t, run[0]);
      StepTallies(t, run[0], k);
      PortShared(Do(t, run[0]), run[1..], k);
    }
  }
}
