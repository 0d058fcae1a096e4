/** How data gets from a send to a receive: every host has one mailbox, named after it, the ends of all
    connections on a host receive from it, and a sender waits until its task has been taken
    (src/communication.c:391-396, src/syscall_process.c:238-272, src/sys_recvfrom.c:57-87 and 124-155,
    src/sys_read.c:34-65 and 105-112, src/sys_connect.c:59-62, src/sys_accept.c:38-43). */
module Mailboxes {
  import opened Common
  import opened Network

  /** An end of a connection: the process that has it, the host of that process, and the other end. */
  datatype End = End(owner: Proc, host: Host, peer: SockId)

  /** A task in a mailbox: the end it was sent to, and its data. */
  datatype Mail = Mail(to: SockId, data: Data)

  /** The call that takes a task: read, or recvfrom with the length of its buffer. The data of a task is a
      copy of what was sent; beyond is the memory that follows the copy. */
  datatype Call = Read | RecvFrom(buffer: nat, beyond: Data)

  datatype Taken = Taken(data: Data, call: Call)

  /** The ends of all connections and the mailboxes; for every end what was sent to it and what it has
      taken, for every host what was posted to it and taken from it. */
  datatype Post = Post(ends: map<SockId, End>, boxes: map<Host, seq<Mail>>,
                       sent: map<SockId, seq<Data>>, got: map<SockId, seq<Taken>>,
                       posted: map<Host, seq<Mail>>, taken: map<Host, seq<Mail>>) {

    function DoSend(e: SockId, d: Data): Post
      requires e in ends && ends[e].peer in ends
    {
      var to := ends[e].peer;
      var h, m := ends[to].host, Mail(to, d);
      this.(boxes := boxes[h := Of(boxes, h) + [m]], sent := sent[to := Of(sent, to) + [d]],
            posted := posted[h := Of(posted, h) + [m]])
    }

    /** The first task is taken from the mailbox of the receiver's host. */
    function DoTake(e: SockId, call: Call): Post
      requires e in ends && Of(boxes, ends[e].host) != []
    {
      var h := ends[e].host;
      var m := Of(boxes, h)[0];
      this.(boxes := boxes[h := Of(boxes, h)[1..]], got := got[e := Of(got, e) + [Taken(m.data, call)]],
            taken := taken[h := Of(taken, h) + [m]])
    }
  }

  /** Connections have two ends, which belong to different processes, and a process is on one host. */
  ghost predicate Connections(ends: map<SockId, End>) {
    && (forall e :: e in ends ==> ends[e].peer in ends && ends[ends[e].peer].peer == e)
    && (forall e :: e in ends ==> ends[e].owner != ends[ends[e].peer].owner)
    && (forall e, f :: e in ends && f in ends && ends[e].owner == ends[f].owner ==> ends[e].host == ends[f].host)
  }

  datatype Step = SendStep(e: SockId, data: Data) | TakeStep(e: SockId, call: Call)

  /** A process waits as long as a task it has sent is in a mailbox. */
  ghost predicate Waits(p: Post, q: Proc) {
    exists h, i :: SentBy(p, h, i, q)
  }

  ghost predicate SentBy(p: Post, h: Host, i: nat, q: Proc) {
    && i < |Of(p.boxes, h)| && Of(p.boxes, h)[i].to in p.ends
    && var f := p.ends[Of(p.boxes, h)[i].to].peer; f in p.ends && p.ends[f].owner == q
  }

  ghost predicate Enabled(p: Post, step: Step) {
    && step.e in p.ends && p.ends[step.e].peer in p.ends && !Waits(p, p.ends[step.e].owner)
    && match step
       case SendStep(_, _) => true
       case TakeStep(e, call) => Of(p.boxes, p.ends[e].host) != [] && (call.RecvFrom? ==> 0 in call.beyond)
  }

  ghost function Do(p: Post, step: Step): Post
    requires Enabled(p, step)
  {
    match step case SendStep(e, d) => p.DoSend(e, d) case TakeStep(e, call) => p.DoTake(e, call)
  }

  ghost predicate Legal(p: Post, steps: seq<Step>)
    decreases |steps|
  {
    steps == [] || (Enabled(p, steps[0]) && Legal(Do(p, steps[0]), steps[1..]))
  }

  ghost function After(p: Post, steps: seq<Step>): Post
    requires Legal(p, steps)
    decreases |steps|
  {
    if steps == [] then p else After(Do(p, steps[0]), steps[1..])
  }

  ghost predicate Initial(p: Post) {
    && Connections(p.ends) && p.boxes == map[] && p.sent == map[] && p.got == map[]
    && p.posted == map[] && p.taken == map[]
  }

  lemma {:induction false} SameEnds(p: Post, steps: seq<Step>)
    requires Legal(p, steps)
    ensures After(p, steps).ends == p.ends
    decreases |steps|
  {
    if steps != [] { SameEnds(Do(p, steps[0]), steps[1..]); }
  }

  // ----- the calls of a run

  /** The data of the sends of an end, in order. */
  ghost function Sends(steps: seq<Step>, e: SockId): seq<Data>
    decreases |steps|
  {
    if steps == [] then []
    else (if steps[0].SendStep? && steps[0].e == e then [steps[0].data] else []) + Sends(steps[1..], e)
  }

  /** The receiving calls of an end, in order. */
  ghost function Takes(steps: seq<Step>, e: SockId): seq<Call>
    decreases |steps|
  {
    if steps == [] then []
    else (if steps[0].TakeStep? && steps[0].e == e then [steps[0].call] else []) + Takes(steps[1..], e)
  }

  /** The tasks of the sends to ends on a host, in order. */
  ghost function Posts(ends: map<SockId, End>, steps: seq<Step>, h: Host): seq<Mail>
    decreases |steps|
  {
    if steps == [] then [] else Letter(ends, steps[0], h) + Posts(ends, steps[1..], h)
  }

  ghost function Letter(ends: map<SockId, End>, step: Step, h: Host): seq<Mail> {
    if step.SendStep? && step.e in ends && ends[step.e].peer in ends && ends[ends[step.e].peer].host == h
    then [Mail(ends[step.e].peer, step.data)] else []
  }

  function CallsOf(got: seq<Taken>): (r: seq<Call>)
    ensures |r| == |got| && forall i :: 0 <= i < |got| ==> r[i] == got[i].call
  {
    seq(|got|, i requires 0 <= i < |got| => got[i].call)
  }

  /** In every run, what was sent to an end is what its peer's sends say. */
  lemma {:induction false} SentIsCalls(p: Post, steps: seq<Step>, e: SockId)
    requires Connections(p.ends) && Legal(p, steps) && e in p.ends
    ensures Of(After(p, steps).sent, e) == Of(p.sent, e) + Sends(steps, p.ends[e].peer)
    decreases |steps|
  {
    if steps != [] {
      var x := if steps[0].SendStep? && steps[0].e == p.ends[e].peer then [steps[0].data] else [];
      SentIsCalls(Do(p, steps[0]), steps[1..], e);
      assert Of(Do(p, steps[0]).sent, e) == Of(p.sent, e) + x;
      Associative(Of(p.sent, e), x, Sends(steps[1..], p.ends[e].peer));
    }
  }

  /** In every run, an end has taken one task with each of its receiving calls. */
  lemma {:induction false} TakenIsCalls(p: Post, steps: seq<Step>, e: SockId)
    requires Legal(p, steps)
    ensures CallsOf(Of(After(p, steps).got, e)) == CallsOf(Of(p.got, e)) + Takes(steps, e)
    decreases |steps|
  {
    if steps != [] {
      var x := if steps[0].TakeStep? && steps[0].e == e then [steps[0].call] else [];
      TakenIsCalls(Do(p, steps[0]), steps[1..], e);
      assert CallsOf(Of(Do(p, steps[0]).got, e)) == CallsOf(Of(p.got, e)) + x;
      Associative(CallsOf(Of(p.got, e)), x, Takes(steps[1..], e));
    }
  }

  lemma {:induction false} PostedIsCalls(p: Post, steps: seq<Step>, h: Host)
    requires Legal(p, steps)
    ensures Of(After(p, steps).posted, h) == Of(p.posted, h) + Posts(p.ends, steps, h)
    decreases |steps|
  {
    if steps != [] {
      PostedIsCalls(Do(p, steps[0]), steps[1..], h);
      assert Of(Do(p, steps[0]).posted, h) == Of(p.posted, h) + Letter(p.ends, steps[0], h);
      Associative(Of(p.posted, h), Letter(p.ends, steps[0], h), Posts(p.ends, steps[1..], h));
    }
  }

  // ----- per host

  ghost predicate Conserved(p: Post, h: Host) {
    Of(p.posted, h) == Of(p.taken, h) + Of(p.boxes, h)
  }

  lemma StepConserves(p: Post, step: Step, h: Host)
    requires Enabled(p, step) && Conserved(p, h)
    ensures Conserved(Do(p, step), h)
  {
    var box := Of(p.boxes, h);
    match step
    case SendStep(e, d) =>
      var m := Mail(p.ends[e].peer, d);
      assert Of(p.posted, h) + [m] == Of(p.taken, h) + (box + [m]);
    case TakeStep(e, _) =>
      if p.ends[e].host == h { assert Of(p.taken, h) + box == Of(p.taken, h) + [box[0]] + box[1..]; }
  }

  lemma {:induction false} RunConserves(p: Post, steps: seq<Step>, h: Host)
    requires Legal(p, steps) && Conserved(p, h)
    ensures Conserved(After(p, steps), h)
    decreases |steps|
  {
    if steps != [] {
      StepConserves(p, steps[0], h);
      RunConserves(Do(p, steps[0]), steps[1..], h);
    }
  }

  /** In every run a host takes from its mailbox the tasks that the sends to its ends have posted, in
      order and nothing twice, and the others are still there. */
  lemma HostDelivery(p: Post, steps: seq<Step>, h: Host)
    requires Initial(p) && Legal(p, steps)
    ensures var m := After(p, steps);
      Posts(p.ends, steps, h) == Of(m.taken, h) + Of(m.boxes, h)
  {
    RunConserves(p, steps, h);
    PostedIsCalls(p, steps, h);
  }

  // ----- per connection

  /** Ends of different connections are on different hosts. */
  ghost predicate Separate(ends: map<SockId, End>) {
    forall e, f :: e in ends && f in ends && ends[e].host == ends[f].host ==> f == e || f == ends[e].peer
  }

  /** The mailbox of a host holds tasks for ends on it. */
  ghost predicate Sorted(p: Post, h: Host) {
    forall i :: 0 <= i < |Of(p.boxes, h)| ==> Of(p.boxes, h)[i].to in p.ends && p.ends[Of(p.boxes, h)[i].to].host == h
  }

  ghost predicate AllSorted(p: Post) {
    forall h {:trigger Sorted(p, h)} :: Sorted(p, h)
  }

  lemma StepKeepsSorted(p: Post, step: Step)
    requires AllSorted(p) && Enabled(p, step)
    ensures AllSorted(Do(p, step))
  {
    var q := Do(p, step);
    forall h ensures Sorted(q, h) {
      assert Sorted(p, h);
      var box, now := Of(p.boxes, h), Of(q.boxes, h);
      assert step.TakeStep? ==> now == box || now == box[1..];
      assert step.SendStep? ==> now == box || now == box + [Mail(p.ends[step.e].peer, step.data)];
    }
  }

  /** Where only the two ends of one connection share a host, an end takes a task that was sent to it: of
      a task for the other end it would be the sender, and would wait. */
  lemma TakesOwn(p: Post, e: SockId, call: Call)
    requires Connections(p.ends) && Separate(p.ends) && AllSorted(p) && Enabled(p, TakeStep(e, call))
    ensures Of(p.boxes, p.ends[e].host)[0].to == e
  {
    var h := p.ends[e].host;
    assert Sorted(p, h);
    if Of(p.boxes, h)[0].to != e { assert SentBy(p, h, 0, p.ends[e].owner); }
  }

  /** The data of the tasks for an end. */
  function DataFor(box: seq<Mail>, e: SockId): seq<Data> {
    if box == [] then [] else (if box[0].to == e then [box[0].data] else []) + DataFor(box[1..], e)
  }

  lemma {:induction false} DataForMore(box: seq<Mail>, m: Mail, e: SockId)
    ensures DataFor(box + [m], e) == DataFor(box, e) + if m.to == e then [m.data] else []
  {
    if box == [] {
      assert box + [m] == [m] && [m][1..] == [];
    } else {
      assert (box + [m])[1..] == box[1..] + [m];
      DataForMore(box[1..], m, e);
      Associative(if box[0].to == e then [box[0].data] else [], DataFor(box[1..], e), if m.to == e then [m.data] else []);
    }
  }

  function DataOf(got: seq<Taken>): (r: seq<Data>)
    ensures |r| == |got|
  {
    if got == [] then [] else DataOf(got[..|got| - 1]) + [got[|got| - 1].data]
  }

  lemma {:induction false} DataOfAt(got: seq<Taken>, i: nat)
    requires i < |got|
    ensures DataOf(got)[i] == got[i].data
  {
    if i < |got| - 1 { DataOfAt(got[..|got| - 1], i); }
  }

  lemma DataOfMore(got: seq<Taken>, t: Taken)
    ensures DataOf(got + [t]) == DataOf(got) + [t.data]
  {
    assert (got + [t])[..|got|] == got;
  }

  ghost predicate Delivered(p: Post, e: SockId)
    requires e in p.ends
  {
    Of(p.sent, e) == DataOf(Of(p.got, e)) + DataFor(Of(p.boxes, p.ends[e].host), e)
  }

  lemma PutIn(sent: seq<Data>, got: seq<Taken>, box: seq<Mail>, m: Mail, e: SockId)
    requires sent == DataOf(got) + DataFor(box, e)
    ensures (if m.to == e then sent + [m.data] else sent) == DataOf(got) + DataFor(box + [m], e)
  {
    DataForMore(box, m, e);
  }

  lemma TakeOut(sent: seq<Data>, got: seq<Taken>, box: seq<Mail>, call: Call, e: SockId)
    requires sent == DataOf(got) + DataFor(box, e) && box != []
    ensures sent == DataOf(if box[0].to == e then got + [Taken(box[0].data, call)] else got) + DataFor(box[1..], e)
  {
    var x, rest := [box[0].data], DataFor(box[1..], e);
    if box[0].to == e {
      DataOfMore(got, Taken(box[0].data, call));
      Associative(DataOf(got), x, rest);
    } else {
      assert DataFor(box, e) == [] + rest == rest;
    }
  }

  lemma SendDelivers(p: Post, s: SockId, d: Data, e: SockId)
    requires Connections(p.ends) && Enabled(p, SendStep(s, d)) && e in p.ends && Delivered(p, e)
    ensures Delivered(p.DoSend(s, d), e)
  {
    PutIn(Of(p.sent, e), Of(p.got, e), Of(p.boxes, p.ends[e].host), Mail(p.ends[s].peer, d), e);
  }

  lemma TakeDelivers(p: Post, r: SockId, call: Call, e: SockId)
    requires Connections(p.ends) && Separate(p.ends) && AllSorted(p) && Enabled(p, TakeStep(r, call))
    requires e in p.ends && Delivered(p, e)
    ensures Delivered(p.DoTake(r, call), e)
  {
    TakesOwn(p, r, call);
    if p.ends[r].host == p.ends[e].host { TakeOut(Of(p.sent, e), Of(p.got, e), Of(p.boxes, p.ends[e].host), call, e); }
  }

  lemma {:induction false} SeparateRun(p: Post, steps: seq<Step>, e: SockId)
    requires Connections(p.ends) && Separate(p.ends) && AllSorted(p) && Legal(p, steps)
    requires e in p.ends && Delivered(p, e)
    ensures e in After(p, steps).ends && Delivered(After(p, steps), e)
    decreases |steps|
  {
    if steps != [] {
      StepKeepsSorted(p, steps[0]);
      match steps[0] {
        case SendStep(s, d) => SendDelivers(p, s, d, e);
        case TakeStep(r, call) => TakeDelivers(p, r, call, e);
      }
      SeparateRun(Do(p, steps[0]), steps[1..], e);
    }
  }

  /** Every end has taken tasks that were sent to it, in the order they were sent. */
  ghost predicate OwnTasks(p: Post) {
    forall e :: e in p.ends ==> DataOf(Of(p.got, e)) <= Of(p.sent, e)
  }

  lemma SeparateTakes(p: Post, steps: seq<Step>)
    requires Initial(p) && Separate(p.ends) && Legal(p, steps)
    ensures OwnTasks(After(p, steps))
  {
    var m := After(p, steps);
    SameEnds(p, steps);
    forall e | e in m.ends ensures DataOf(Of(m.got, e)) <= Of(m.sent, e) {
      assert Delivered(p, e) && AllSorted(p);
      SeparateRun(p, steps, e);
    }
  }

  /** After the first send of all, its task is alone in the mailbox, and only its sender waits. */
  lemma FirstSend(p: Post, e: SockId, q: Proc)
    requires Initial(p) && e in p.ends && p.ends[p.ends[e].peer].owner != q
    ensures var s := SendStep(p.ends[e].peer, [1]);
      && Enabled(p, s) && Do(p, s).boxes == map[p.ends[e].host := [Mail(e, [1])]]
      && Do(p, s).got == map[] && Do(p, s).sent == map[e := [[1]]] && Do(p, s).ends == p.ends
      && !Waits(Do(p, s), q)
  {
    var s, h, m := SendStep(p.ends[e].peer, [1]), p.ends[e].host, Mail(e, [1]);
    assert !Waits(p, p.ends[s.e].owner);
    assert p.ends[s.e].peer == e && Of(p.boxes, h) == [] && Of(p.sent, e) == [];
    assert Of(p.boxes, h) + [m] == [m] && Of(p.sent, e) + [[1]] == [[1]];
    var after := Do(p, s);
    assert after.boxes == map[h := [m]] && after.sent == map[e := [[1]]];
    forall g, i: nat ensures !SentBy(after, g, i, q) {
      if g == h && i == 0 { assert Of(after.boxes, h)[i].to == e; }
    }
  }

  /** A task sent to one end, taken at another one on the same host by a process that did not send it. */
  lemma StrayTask(p: Post, e: SockId, f: SockId)
    requires Initial(p) && e in p.ends && f in p.ends && e != f && p.ends[e].host == p.ends[f].host
    requires p.ends[p.ends[e].peer].owner != p.ends[f].owner
    ensures Legal(p, [SendStep(p.ends[e].peer, [1]), TakeStep(f, Read)])
    ensures var m := After(p, [SendStep(p.ends[e].peer, [1]), TakeStep(f, Read)]);
      DataOf(Of(m.got, f)) == [[1]] && Of(m.sent, f) == [] && m.ends == p.ends
  {
    var first, second := SendStep(p.ends[e].peer, [1]), TakeStep(f, Read);
    FirstSend(p, e, p.ends[f].owner);
    var q := Do(p, first);
    var m := Do(q, second);
    assert Of(m.got, f) == [Taken([1], Read)];
    assert DataOf([Taken([1], Read)]) == [[1]] by { DataOfMore([], Taken([1], Read)); }
    assert [first, second][1..] == [second] && [second][1..] == [];
    assert Legal(m, []) && Legal(q, [second]) && After(q, [second]) == m;
  }

  /** Of two ends of different connections on one host, one can take what was sent to the other. */
  lemma StrayRun(p: Post, e: SockId, f: SockId) returns (steps: seq<Step>)
    requires Initial(p) && e in p.ends && f in p.ends && p.ends[e].host == p.ends[f].host
    requires f != e && f != p.ends[e].peer
    ensures Legal(p, steps) && !OwnTasks(After(p, steps))
  {
    var e', f' := e, f;
    if p.ends[p.ends[e].peer].owner == p.ends[f].owner {
      e', f' := f, p.ends[e].peer;
    }
    StrayTask(p, e', f');
    steps := [SendStep(p.ends[e'].peer, [1]), TakeStep(f', Read)];
    var m := After(p, steps);
    assert f' in m.ends && !(DataOf(Of(m.got, f')) <= Of(m.sent, f'));
  }

  /** In every run every end takes the tasks that were sent to it, in order, if and only if ends of
      different connections are on different hosts. */
  lemma DeliveryExact(p: Post)
    requires Initial(p)
    ensures Separate(p.ends) <==> forall steps :: Legal(p, steps) ==> OwnTasks(After(p, steps))
  {
    if Separate(p.ends) {
      forall steps | Legal(p, steps) ensures OwnTasks(After(p, steps)) { SeparateTakes(p, steps); }
    } else {
      var e, f :| e in p.ends && f in p.ends && p.ends[e].host == p.ends[f].host && f != e && f != p.ends[e].peer;
      var steps := StrayRun(p, e, f);
    }
  }

  // ----- what the process is handed

  /** The result of the call and the bytes put into the buffer of the process. */
  datatype Answer = Answer(ret: int, bytes: Data)

  /** strlen: the position of the first zero. */
  function Strlen(s: Data): (n: nat)
    requires 0 in s
    ensures n < |s| && s[n] == 0 && 0 !in s[..n]
  {
    if s[0] == 0 then 0 else
      var n := 1 + Strlen(s[1..]);
      assert s[..n] == [s[0]] + s[1..][..n - 1];
      n
  }

  /** read keeps the size it has received in a variable of its own and answers with the register, which
      shows that no call has been made yet. recvfrom takes the data for a text: it hands over the
      characters up to and with the first zero, or as many as fit. */
  function HandOver(t: Taken): Answer
    requires t.call.RecvFrom? ==> 0 in t.call.beyond
  {
    match t.call
    case Read => Answer(-ENOSYS, [])
    case RecvFrom(buffer, beyond) =>
      var text := t.data + beyond;
      var length := Strlen(text) + 1;
      if buffer >= length then Answer(length, text[..length]) else Answer(buffer, text[..buffer])
  }

  /** What is sent arrives whole: by recvfrom, with no zero before the last byte, and into a buffer of its
      size, or a larger one if it ends with a zero. */
  ghost predicate Whole(d: Data, call: Call) {
    && call.RecvFrom? && (forall i :: 0 <= i < |d| - 1 ==> d[i] != 0)
    && (call.buffer == |d| || (call.buffer > |d| > 0 && d[|d| - 1] == 0))
  }

  /** The first zero of a text that starts with d is at its last byte, or not before it. */
  lemma FirstZero(d: Data, beyond: Data)
    requires 0 in beyond
    ensures 0 in d + beyond
    ensures var clean := forall i :: 0 <= i < |d| - 1 ==> d[i] != 0;
      && (Strlen(d + beyond) + 1 >= |d| <==> clean)
      && (Strlen(d + beyond) + 1 == |d| <==> clean && |d| > 0 && d[|d| - 1] == 0)
  {
    var text := d + beyond;
    var j :| 0 <= j < |beyond| && beyond[j] == 0;
    assert text[|d| + j] == 0;
    var n := Strlen(text);
    assert forall i :: 0 <= i < n ==> text[i] in text[..n];
    assert forall i :: 0 <= i < |d| ==> text[i] == d[i];
  }

  lemma PrefixIs(text: Data, d: Data, n: nat)
    requires d <= text && n <= |text|
    ensures text[..n] == d <==> n == |d|
  {
  }

  /** read hands over nothing. recvfrom answers with the number of bytes it hands over: from the start of
      the data, no more than fit, ending with the first zero or with the buffer full. */
  ghost predicate Handed(t: Taken, a: Answer) {
    match t.call
    case Read => a == Answer(-ENOSYS, [])
    case RecvFrom(buffer, beyond) =>
      && a.ret == |a.bytes| <= buffer && a.bytes <= t.data + beyond
      && (forall i :: 0 <= i < |a.bytes| - 1 ==> a.bytes[i] != 0)
      && (|a.bytes| == buffer || (a.bytes != [] && a.bytes[|a.bytes| - 1] == 0))
  }

  lemma HandOverHands(t: Taken)
    requires t.call.RecvFrom? ==> 0 in t.call.beyond
    ensures Handed(t, HandOver(t))
  {
    if t.call.RecvFrom? {
      var text := t.data + t.call.beyond;
      FirstZero(t.data, t.call.beyond);
      var n := Strlen(text);
      assert forall i :: 0 <= i < n ==> text[i] in text[..n];
    }
  }

  /** The bytes handed over and the result are those of the data if and only if it arrives whole. */
  lemma HandOverExact(t: Taken)
    requires t.call.RecvFrom? ==> 0 in t.call.beyond
    ensures HandOver(t) == Answer(|t.data|, t.data) <==> Whole(t.data, t.call)
  {
    if t.call.RecvFrom? {
      var text := t.data + t.call.beyond;
      FirstZero(t.data, t.call.beyond);
      var length := Strlen(text) + 1;
      PrefixIs(text, t.data, if t.call.buffer >= length then length else t.call.buffer);
    }
  }

  /** Where ends of different connections are on different hosts, the i-th receive of an end hands over
      exactly the i-th piece its peer sends if and only if that piece arrives whole. */
  lemma EndToEnd(p: Post, steps: seq<Step>, e: SockId, i: nat)
    requires Initial(p) && Separate(p.ends) && Legal(p, steps) && e in p.ends && i < |Takes(steps, e)|
    ensures i < |Of(After(p, steps).got, e)| && i < |Sends(steps, p.ends[e].peer)|
    ensures var t, d := Of(After(p, steps).got, e)[i], Sends(steps, p.ends[e].peer)[i];
      && t == Taken(d, Takes(steps, e)[i]) && (t.call.RecvFrom? ==> 0 in t.call.beyond)
      && (HandOver(t) == Answer(|d|, d) <==> Whole(d, t.call))
  {
    var m := After(p, steps);
    SeparateTakes(p, steps);
    SameEnds(p, steps);
    SentIsCalls(p, steps, e);
    TakenIsCalls(p, steps, e);
    Terminated(p, steps, e);
    var t := Of(m.got, e)[i];
    assert t in Of(m.got, e);
    DataOfAt(Of(m.got, e), i);
    assert DataOf(Of(m.got, e))[i] == Of(m.sent, e)[i];
    HandOverExact(t);
  }

  ghost predicate AllTerminated(p: Post, e: SockId) {
    forall t :: t in Of(p.got, e) && t.call.RecvFrom? ==> 0 in t.call.beyond
  }

  lemma {:induction false} Terminated(p: Post, steps: seq<Step>, e: SockId)
    requires Legal(p, steps) && AllTerminated(p, e)
    ensures AllTerminated(After(p, steps), e)
    decreases |steps|
  {
    if steps != [] { Terminated(Do(p, steps[0]), steps[1..], e); }
  }
}
