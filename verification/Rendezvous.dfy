/** The two-semaphore rendezvous between connect and accept (src/sys_accept.c:37-99,
    src/sys_connect.c:52-70 and 116-121), as a state machine over the operations at which a process
    can be suspended. Every accept creates a stream with two semaphores at zero; connect uses the
    stream the listener has at that moment. */
module Rendezvous {
  import opened Common

  type Client = nat

  datatype Stream = Stream(semClient: nat, semServer: nat)

  const FRESH := Stream(0, 0)

  /** Where the server is: outside accept, at its first acquire, about to release the client, about
      to look at the queue of pending connections, at its second acquire. */
  datatype ServerPc = Outside | FirstAcquire | ReleaseClient | CheckQueue | SecondAcquire

  /** Where a client is: not in connect, about to release the server, acquiring, in connect_post. */
  datatype ClientPc = Away | ReleaseServer(stream: nat) | AcquireClient(stream: nat) | Post(stream: nat)

  datatype State = State(server: ServerPc, streams: seq<Stream>, waiting: seq<Client>, clients: map<Client, ClientPc>,
                         joined: seq<Client>, posted: seq<Client>) {
    /** The stream of the listener. */
    function Current(): int { |streams| - 1 }

    function At(k: nat): Stream
      requires k < |streams|
    {
      streams[k]
    }
  }

  datatype Step =
    | Accept | ServerAcquire1 | ServerRelease | ServerJoin | ServerAcquire2
    | Connect(c: Client) | ClientRelease(c: Client) | ClientAcquire(c: Client) | ClientPost(c: Client)

  ghost predicate OnStream(n: State, pc: ClientPc) {
    !pc.Away? && pc.stream < |n.streams|
  }

  /** When a process can take a step. A connect needs no more than a stream to use. */
  ghost predicate Enabled(n: State, step: Step) {
    match step
    case Accept => n.server == Outside
    case ServerAcquire1 => n.server == FirstAcquire && n.streams != [] && n.streams[n.Current()].semServer > 0
    case ServerRelease => n.server == ReleaseClient && n.streams != []
    case ServerJoin => n.server == CheckQueue && n.streams != []
    case ServerAcquire2 => n.server == SecondAcquire && n.streams != [] && n.streams[n.Current()].semServer > 0
    case Connect(c) => c in n.clients && n.clients[c] == Away && n.streams != []
    case ClientRelease(c) => c in n.clients && n.clients[c].ReleaseServer? && OnStream(n, n.clients[c])
    case ClientAcquire(c) =>
      c in n.clients && n.clients[c].AcquireClient? && OnStream(n, n.clients[c]) && n.streams[n.clients[c].stream].semClient > 0
    case ClientPost(c) => c in n.clients && n.clients[c].Post? && OnStream(n, n.clients[c])
  }

  ghost function Add(n: State, k: nat, client: int, server: int): seq<Stream>
    requires k < |n.streams| && n.streams[k].semClient + client >= 0 && n.streams[k].semServer + server >= 0
  {
    n.streams[k := Stream(n.streams[k].semClient + client, n.streams[k].semServer + server)]
  }

  ghost function Do(n: State, step: Step): State
    requires Enabled(n, step)
  {
    match step
    case Accept => n.(server := FirstAcquire, streams := n.streams + [FRESH])
    case ServerAcquire1 => n.(server := ReleaseClient, streams := Add(n, n.Current(), 0, -1))
    case ServerRelease => n.(server := CheckQueue, streams := Add(n, n.Current(), 1, 0))
    case ServerJoin =>
      if n.waiting == [] then n.(server := Outside)
      else n.(server := SecondAcquire, waiting := n.waiting[1..], joined := n.joined + [n.waiting[0]])
    case ServerAcquire2 => n.(server := Outside, streams := Add(n, n.Current(), 0, -1))
    case Connect(c) => n.(waiting := n.waiting + [c], clients := n.clients[c := ReleaseServer(n.Current())])
    case ClientRelease(c) =>
      n.(streams := Add(n, n.clients[c].stream, 0, 1), clients := n.clients[c := AcquireClient(n.clients[c].stream)])
    case ClientAcquire(c) =>
      n.(streams := Add(n, n.clients[c].stream, -1, 0), clients := n.clients[c := Post(n.clients[c].stream)])
    case ClientPost(c) =>
      n.(streams := Add(n, n.clients[c].stream, 0, 1), clients := n.clients[c := Away], posted := n.posted + [c])
  }

  // ----- the discipline

  /** One blocking client per accept: a connect starts only while the server waits at its first
      acquire and no client has used the stream. */
  ghost predicate Disciplined(n: State, step: Step) {
    step.Connect? ==> n.server == FirstAcquire && n.waiting == []
  }

  /** The shape of a round: x is the client of the round, if it has started, and parked are clients
      that have queued without doing anything further. */
  ghost predicate Round(n: State, x: Option<Client>, parked: seq<Client>) {
    && (forall i :: 0 <= i < |n.streams| - 1 ==> n.streams[i] == FRESH)
    && (n.server != Outside ==> n.streams != [])
    && (forall c :: c in parked ==> c in n.clients && n.clients[c].ReleaseServer? && OnStream(n, n.clients[c]) && Some(c) != x)
    && (forall c :: c in n.clients && Some(c) != x && c !in parked ==> n.clients[c] == Away)
    && match x
       case None =>
         && (n.server == Outside || n.server == FirstAcquire)
         && (n.streams != [] ==> n.streams[n.Current()] == FRESH)
         && n.waiting == parked && n.posted == n.joined
       case Some(c) =>
         && c in n.clients && n.server != Outside
         && var k := n.Current(); var pc, s := n.clients[c], n.streams[k];
            match n.server
            case FirstAcquire =>
              && n.waiting == [c] + parked && n.posted == n.joined
              && ((pc == ReleaseServer(k) && s == FRESH) || (pc == AcquireClient(k) && s == Stream(0, 1)))
            case ReleaseClient =>
              n.waiting == [c] + parked && n.posted == n.joined && pc == AcquireClient(k) && s == FRESH
            case CheckQueue => n.waiting == [c] + parked && Released(n, c, n.joined)
            case SecondAcquire =>
              && n.waiting == parked && n.joined != [] && n.joined[|n.joined| - 1] == c
              && Released(n, c, n.joined[..|n.joined| - 1])
            case Outside => false
  }

  /** After the server released the client: the client still has to acquire, is in connect_post, or
      has run it. */
  ghost predicate Released(n: State, c: Client, before: seq<Client>)
    requires c in n.clients && n.streams != []
  {
    var k := n.Current();
    var pc, s := n.clients[c], n.streams[k];
    || (pc == AcquireClient(k) && s == Stream(1, 0) && n.posted == before)
    || (pc == Post(k) && s == FRESH && n.posted == before)
    || (pc == Away && s == Stream(0, 1) && n.posted == before + [c])
  }

  /** The client of the round after a step. */
  ghost function NextClient(x: Option<Client>, step: Step): Option<Client> {
    if step.Connect? then Some(step.c) else if step.ServerAcquire2? then None else x
  }

  /** A step that is not the start of an accept or a connect. */
  ghost predicate Internal(step: Step) {
    !step.Accept? && !step.Connect?
  }

  lemma StepKeepsRound(n: State, x: Option<Client>, step: Step)
    requires Round(n, x, []) && Enabled(n, step) && Disciplined(n, step)
    ensures Round(Do(n, step), NextClient(x, step), [])
  {
  }

  // ----- runs

  ghost predicate Initial(n: State) {
    && n.server == Outside && n.streams == [] && n.waiting == [] && n.joined == [] && n.posted == []
    && forall c :: c in n.clients ==> n.clients[c] == Away
  }

  ghost predicate Legal(n: State, steps: seq<Step>)
    decreases |steps|
  {
    steps == [] || (Enabled(n, steps[0]) && Legal(Do(n, steps[0]), steps[1..]))
  }

  ghost predicate Orderly(n: State, steps: seq<Step>)
    decreases |steps|
  {
    steps == [] || (Enabled(n, steps[0]) && Disciplined(n, steps[0]) && Orderly(Do(n, steps[0]), steps[1..]))
  }

  ghost function After(n: State, steps: seq<Step>): State
    requires Legal(n, steps)
    decreases |steps|
  {
    if steps == [] then n else After(Do(n, steps[0]), steps[1..])
  }

  lemma {:induction false} OrderlyIsLegal(n: State, steps: seq<Step>)
    requires Orderly(n, steps)
    ensures Legal(n, steps)
    decreases |steps|
  {
    if steps != [] { OrderlyIsLegal(Do(n, steps[0]), steps[1..]); }
  }

  ghost predicate InRound(n: State) {
    exists x :: Round(n, x, [])
  }

  lemma {:induction false} RunKeepsRound(n: State, x: Option<Client>, steps: seq<Step>)
    requires Round(n, x, []) && Orderly(n, steps)
    ensures Legal(n, steps) && InRound(After(n, steps))
    decreases |steps|
  {
    OrderlyIsLegal(n, steps);
    if steps != [] {
      StepKeepsRound(n, x, steps[0]);
      RunKeepsRound(Do(n, steps[0]), NextClient(x, steps[0]), steps[1..]);
    }
  }

  // ----- the calls of a run, with or without the discipline

  /** The clients of the connects of a run, in order. */
  ghost function Connects(steps: seq<Step>): seq<Client>
    decreases |steps|
  {
    if steps == [] then [] else (if steps[0].Connect? then [steps[0].c] else []) + Connects(steps[1..])
  }

  /** The clients that run connect_post, in order. */
  ghost function Posts(steps: seq<Step>): seq<Client>
    decreases |steps|
  {
    if steps == [] then [] else (if steps[0].ClientPost? then [steps[0].c] else []) + Posts(steps[1..])
  }

  lemma StepQueues(n: State, step: Step)
    requires Enabled(n, step)
    ensures var m := Do(n, step);
      && m.joined + m.waiting == (n.joined + n.waiting) + (if step.Connect? then [step.c] else [])
      && m.posted == n.posted + (if step.ClientPost? then [step.c] else [])
  {
    if step.ServerJoin? && n.waiting != [] {
      assert n.waiting == [n.waiting[0]] + n.waiting[1..];
    }
  }

  lemma {:induction false} RunQueues(n: State, steps: seq<Step>)
    requires Legal(n, steps)
    ensures var m := After(n, steps);
      m.joined + m.waiting == (n.joined + n.waiting) + Connects(steps) && m.posted == n.posted + Posts(steps)
    decreases |steps|
  {
    if steps != [] {
      StepQueues(n, steps[0]);
      RunQueues(Do(n, steps[0]), steps[1..]);
      Associative(n.joined + n.waiting, if steps[0].Connect? then [steps[0].c] else [], Connects(steps[1..]));
      Associative(n.posted, if steps[0].ClientPost? then [steps[0].c] else [], Posts(steps[1..]));
    }
  }

  // ----- what the discipline guarantees

  /** For any number of rounds with one client each: once the first acquire has succeeded a
      connection is waiting; the server is outside accept only when every client that has connected was
      accepted and has run connect_post, in the order of the connects; and then all semaphores are back
      at zero. */
  lemma Handshakes(n: State, steps: seq<Step>)
    requires Initial(n) && Orderly(n, steps)
    ensures Legal(n, steps)
    ensures var m := After(n, steps);
      && (m.server == ReleaseClient || m.server == CheckQueue ==> |m.waiting| == 1)
      && m.joined <= Connects(steps) && m.posted == Posts(steps)
      && (m.server == Outside ==>
            && m.joined == Connects(steps) == Posts(steps)
            && forall i :: 0 <= i < |m.streams| ==> m.streams[i] == FRESH)
      && (Enabled(m, ServerAcquire2) ==> m.posted == m.joined)
  {
    OrderlyIsLegal(n, steps);
    assert Round(n, None, []);
    RunKeepsRound(n, None, steps);
    InitialQueues(n, steps);
    RoundEnds(After(n, steps));
  }

  lemma InitialQueues(n: State, steps: seq<Step>)
    requires Initial(n) && Legal(n, steps)
    ensures var m := After(n, steps);
      && m.joined <= Connects(steps) && m.posted == Posts(steps)
      && (m.waiting == [] ==> m.joined == Connects(steps))
  {
    RunQueues(n, steps);
    var m := After(n, steps);
    assert [] + [] + Connects(steps) == Connects(steps) && [] + Posts(steps) == Posts(steps);
    assert m.joined + m.waiting == Connects(steps);
  }

  lemma RoundEnds(m: State)
    requires InRound(m)
    ensures m.server == ReleaseClient || m.server == CheckQueue ==> |m.waiting| == 1
    ensures m.server == Outside ==>
      m.waiting == [] && m.posted == m.joined && forall i :: 0 <= i < |m.streams| ==> m.streams[i] == FRESH
    ensures Enabled(m, ServerAcquire2) ==> m.posted == m.joined
  {
    var x :| Round(m, x, []);
  }

  /** How many operations the server and its client still have to do. */
  ghost function Work(n: State, x: Option<Client>): nat {
    (match n.server
     case Outside => 0 case FirstAcquire => 4 case ReleaseClient => 3 case CheckQueue => 2 case SecondAcquire => 1)
    + if x.None? || x.value !in n.clients then 3 else
        match n.clients[x.value] case Away => 0 case ReleaseServer(_) => 3 case AcquireClient(_) => 2 case Post(_) => 1
  }

  /** The operation to be done next in a round that has a client. */
  ghost function NextStep(n: State, c: Client): Step
    requires c in n.clients && n.streams != []
  {
    match n.clients[c]
    case ReleaseServer(_) => ClientRelease(c)
    case Post(_) => ClientPost(c)
    case AcquireClient(_) =>
      (match n.server case FirstAcquire => ServerAcquire1 case ReleaseClient => ServerRelease case _ => ClientAcquire(c))
    case Away => (match n.server case CheckQueue => ServerJoin case _ => ServerAcquire2)
  }

  /** No round with a client is stuck: an operation of the server or of the client can be done. It
      keeps the shape of the round, whoever else has queued up, and leaves less to do. */
  lemma Progress(n: State, c: Client, parked: seq<Client>)
    requires Round(n, Some(c), parked)
    ensures var step := NextStep(n, c);
      && Enabled(n, step) && Internal(step)
      && Round(Do(n, step), NextClient(Some(c), step), parked)
      && Work(Do(n, step), Some(c)) == Work(n, Some(c)) - 1
  {
    OperationKeepsRound(n, c, parked, NextStep(n, c));
  }

  /** No reachable state is stuck: as long as there are clients at all, something can be done next
      that keeps the discipline. */
  lemma NeverStuck(n: State, steps: seq<Step>) returns (next: Step)
    requires Initial(n) && Orderly(n, steps)
    ensures Legal(n, steps)
    ensures After(n, steps).clients != map[] ==> Enabled(After(n, steps), next) && Disciplined(After(n, steps), next)
  {
    assert Round(n, None, []);
    RunKeepsRound(n, None, steps);
    var m := After(n, steps);
    next := Accept;
    var x :| Round(m, x, []);
    if x.Some? {
      Progress(m, x.value, []);
      next := NextStep(m, x.value);
    } else if m.server == FirstAcquire && m.clients != map[] {
      var c :| c in m.clients;
      next := Connect(c);
    }
  }

  lemma OperationKeepsRound(n: State, c: Client, parked: seq<Client>, step: Step)
    requires Round(n, Some(c), parked) && Enabled(n, step) && Internal(step)
    requires step.ClientRelease? ==> step.c == c
    ensures Round(Do(n, step), NextClient(Some(c), step), parked)
  {
    assert n.server == CheckQueue ==> n.waiting[1..] == parked;
  }

  /** Every operation of a round leaves less to do, so a round takes at most seven operations after
      the connect, whatever the order the processes run in. */
  lemma InternalStepsWork(n: State, c: Client, step: Step)
    requires Round(n, Some(c), []) && Enabled(n, step) && Internal(step)
    ensures Work(Do(n, step), Some(c)) == Work(n, Some(c)) - 1 && Work(n, Some(c)) <= 7
  {
  }

  // ----- runs are composed

  lemma {:induction false} Concatenate(n: State, a: seq<Step>, b: seq<Step>)
    requires Legal(n, a) && Legal(After(n, a), b)
    ensures Legal(n, a + b) && After(n, a + b) == After(After(n, a), b)
    decreases |a|
  {
    if a == [] {
      assert a + b == b;
    } else {
      Concatenate(Do(n, a[0]), a[1..], b);
      assert (a + b)[1..] == a[1..] + b;
    }
  }

  /** A round with a client can be brought to its end without any of the parked clients. */
  lemma {:induction false} FinishRound(n: State, c: Client, parked: seq<Client>) returns (steps: seq<Step>)
    requires Round(n, Some(c), parked)
    ensures Legal(n, steps) && After(n, steps).server == Outside && Round(After(n, steps), None, parked)
    decreases Work(n, Some(c))
  {
    Progress(n, c, parked);
    var step := NextStep(n, c);
    var m := Do(n, step);
    if step.ServerAcquire2? {
      steps := [step];
      assert After(m, []) == m;
    } else {
      var rest := FinishRound(m, c, parked);
      steps := [step] + rest;
      assert steps[1..] == rest;
    }
  }

  // ----- what happens without the discipline

  /** The client waits for a release that can only happen on an earlier stream. */
  ghost predicate Lost(n: State, c: Client) {
    && c in n.clients && n.clients[c].AcquireClient?
    && n.clients[c].stream < |n.streams| - 1 && n.streams[n.clients[c].stream].semClient == 0
  }

  /** A lost client never gets out of connect, in any continuation. */
  lemma {:induction false} LostForever(n: State, c: Client, steps: seq<Step>)
    requires Lost(n, c) && Legal(n, steps)
    ensures Lost(After(n, steps), c)
    decreases |steps|
  {
    if steps != [] {
      assert Lost(Do(n, steps[0]), c);
      LostForever(Do(n, steps[0]), c, steps[1..]);
    }
  }

  lemma TwoSteps(n: State, a: Step, b: Step)
    requires Enabled(n, a) && Enabled(Do(n, a), b)
    ensures Legal(n, [a, b]) && After(n, [a, b]) == Do(Do(n, a), b)
  {
    var m := Do(n, a);
    assert [a, b][1..] == [b] && [b][1..] == [];
    assert Legal(Do(m, b), []) && After(Do(m, b), []) == Do(m, b);
  }

  /** A client that is parked when the server is outside accept is lost after the next accept. */
  lemma ParkedIsLost(k: State, c: Client)
    requires Round(k, None, [c]) && k.server == Outside
    ensures Legal(k, [ClientRelease(c), Accept]) && Lost(After(k, [ClientRelease(c), Accept]), c)
  {
    assert c in [c];
    TwoSteps(k, ClientRelease(c), Accept);
  }

  lemma ParkedRound(n: State, x: Option<Client>, c: Client)
    requires Round(n, x, []) && Enabled(n, Connect(c)) && x != Some(c)
    ensures Round(Do(n, Connect(c)), x, [c])
  {
  }

  lemma RepeatBeforeJoin(n: State, c: Client)
    requires Round(n, Some(c), []) && Enabled(n, Connect(c)) && n.server == CheckQueue
    ensures var steps := [Connect(c), ServerJoin, ServerAcquire2];
      Legal(n, steps) && After(n, steps).server == Outside && Round(After(n, steps), None, [c])
  {
    TwoSteps(Do(n, Connect(c)), ServerJoin, ServerAcquire2);
    assert [Connect(c), ServerJoin, ServerAcquire2][1..] == [ServerJoin, ServerAcquire2];
  }

  /** A client that dials again before the accept of its first connection has ended. */
  lemma RepeatIsParked(n: State, c: Client) returns (steps: seq<Step>)
    requires Round(n, Some(c), []) && Enabled(n, Connect(c))
    ensures Legal(n, steps) && After(n, steps).server == Outside && Round(After(n, steps), None, [c])
  {
    if n.server == CheckQueue {
      RepeatBeforeJoin(n, c);
      return [Connect(c), ServerJoin, ServerAcquire2];
    }
    TwoSteps(n, Connect(c), ServerAcquire2);
    return [Connect(c), ServerAcquire2];
  }

  /** The discipline is exact: a connect that breaks it can leave its client lost. The run lets the
      round in progress finish, then lets the client release the server, then accepts again. */
  lemma UndisciplinedIsLost(n: State, x: Option<Client>, c: Client) returns (steps: seq<Step>)
    requires Round(n, x, []) && Enabled(n, Connect(c)) && !Disciplined(n, Connect(c))
    ensures Legal(n, steps) && Lost(After(n, steps), c)
  {
    var start: seq<Step>;
    if x == Some(c) {
      start := RepeatIsParked(n, c);
    } else {
      ParkedRound(n, x, c);
      var rest: seq<Step> := [];
      var m := Do(n, Connect(c));
      if x.Some? { rest := FinishRound(m, x.value, [c]); }
      start := [Connect(c)] + rest;
      assert start[0] == Connect(c) && start[1..] == rest;
      assert After(n, start) == After(m, rest);
    }
    ParkedIsLost(After(n, start), c);
    Concatenate(n, start, [ClientRelease(c), Accept]);
    steps := start + [ClientRelease(c), Accept];
  }

  /** With two clients on one stream the server can take the second client's first release for the
      first client's second one: it leaves accept although the client it accepted has not run
      connect_post. */
  lemma TwoClientsBreakOrder(n: State, a: Client, b: Client) returns (steps: seq<Step>)
    requires Round(n, None, []) && n.server == FirstAcquire && a != b
    requires Enabled(n, Connect(a)) && Enabled(n, Connect(b))
    ensures Legal(n, steps)
    ensures var m := After(n, steps);
      m.server == Outside && m.joined == n.joined + [a] && m.posted == n.posted && a in m.clients && m.clients[a].AcquireClient?
  {
    TwoSteps(n, Connect(a), Connect(b));
    var n1 := After(n, [Connect(a), Connect(b)]);
    assert n1.waiting == [a, b];
    TwoSteps(n1, ClientRelease(a), ClientRelease(b));
    Concatenate(n, [Connect(a), Connect(b)], [ClientRelease(a), ClientRelease(b)]);
    var s2 := [Connect(a), Connect(b)] + [ClientRelease(a), ClientRelease(b)];
    var n2 := After(n, s2);
    TwoSteps(n2, ServerAcquire1, ServerRelease);
    Concatenate(n, s2, [ServerAcquire1, ServerRelease]);
    var s3 := s2 + [ServerAcquire1, ServerRelease];
    var n3 := After(n, s3);
    TwoSteps(n3, ServerJoin, ServerAcquire2);
    Concatenate(n, s3, [ServerJoin, ServerAcquire2]);
    steps := s3 + [ServerJoin, ServerAcquire2];
  }
}
