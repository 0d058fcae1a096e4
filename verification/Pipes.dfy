/** Descriptors of pipes in all processes (src/sys_pipe.c, src/sys_dup.c, src/sys_dup2.c,
    src/sys_clone.c, src/syscall_process.c:275-319). */
module Pipes {
  import opened PipeEnds

  type PipeId = nat

  /** A descriptor as it really is: writing tells which end of the pipe the kernel gave it. The
      emulation records the pipe but not the end, and keeps lists of the ends instead. */
  datatype Desc = Other | PipeFd(pipe: PipeId, writing: bool)

  datatype Pipe = Pipe(readEnd: seq<End>, writeEnd: seq<End>) {
    function Ends(writing: bool): seq<End> { if writing then writeEnd else readEnd }
  }

  type Key = (Pid, Fd)

  /** The pipes that have not been freed, and the descriptors of all processes. */
  datatype Table = Table(pipes: map<PipeId, Pipe>, fds: map<Key, Desc>, next: PipeId) {

    function DoOpen(pid: Pid, fd: Fd): Table {
      this.(fds := fds[(pid, fd) := Other])
    }

    function DoPipe(pid: Pid, fd: Fd): Table {
      Table(pipes[next := Pipe([End(fd, pid)], [End(fd + 1, pid)])],
            fds[(pid, fd) := PipeFd(next, false)][(pid, fd + 1) := PipeFd(next, true)],
            next + 1)
    }

    function DoDup(pid: Pid, oldfd: Fd, newfd: Fd): Table
      requires (pid, oldfd) in fds
      requires fds[(pid, oldfd)].PipeFd? ==> fds[(pid, oldfd)].pipe in pipes
    {
      Install(pid, oldfd, newfd, fds[(pid, oldfd)])
    }

    /** F_DUPFD and F_DUPFD_CLOEXEC: a new descriptor, and no entry in an end list. */
    function DoFcntlDup(pid: Pid, oldfd: Fd, newfd: Fd): Table
      requires (pid, oldfd) in fds
    {
      this.(fds := fds[(pid, newfd) := fds[(pid, oldfd)]])
    }

    /** close: forget the ends of the descriptor, and free the pipe when no ends are left. */
    function DoClose(pid: Pid, fd: Fd): Table
      requires (pid, fd) in fds && fds[(pid, fd)].PipeFd? ==> fds[(pid, fd)].pipe in pipes
    {
      if (pid, fd) !in fds then this
      else
        var d := fds[(pid, fd)];
        var t := this.(fds := fds - {(pid, fd)});
        if d.Other? then t
        else
          var q := Pipe(Without(pipes[d.pipe].readEnd, End(fd, pid)), Without(pipes[d.pipe].writeEnd, End(fd, pid)));
          if q.readEnd == [] && q.writeEnd == [] then t.(pipes := pipes - {d.pipe})
          else t.(pipes := pipes[d.pipe := q])
    }

    /** dup2: the descriptor is fetched, the target is closed, and then the descriptor is put there and
        its ends are copied, if closing the target has left any. */
    function DoDup2(pid: Pid, oldfd: Fd, newfd: Fd): Table
      requires (pid, oldfd) in fds
      requires (pid, newfd) in fds && fds[(pid, newfd)].PipeFd? ==> fds[(pid, newfd)].pipe in pipes
    {
      DoClose(pid, newfd).Install(pid, oldfd, newfd, fds[(pid, oldfd)])
    }

    function Install(pid: Pid, oldfd: Fd, newfd: Fd, d: Desc): Table {
      var t := this.(fds := fds[(pid, newfd) := d]);
      if d.Other? || d.pipe !in pipes then t
      else
        var e, p := End(oldfd, pid), pipes[d.pipe];
        t.(pipes := pipes[d.pipe := Pipe(p.readEnd + Duplicates(p.readEnd, e, newfd),
                                         p.writeEnd + Duplicates(p.writeEnd, e, newfd))])
    }

    /** The descriptors of a process on a pipe. */
    function Holds(pid: Pid, p: PipeId): set<Key> {
      set k | k in fds && k.0 == pid && fds[k].PipeFd? && fds[k].pipe == p
    }

    /** clone: the child inherits the parent's descriptors, and for each of them that is a pipe, both
        end lists of the pipe are copied. */
    function DoClone(parent: Pid, child: Pid): Table {
      Table(map p | p in pipes :: Pipe(CopiedTimes(pipes[p].readEnd, child, |Holds(parent, p)|),
                                       CopiedTimes(pipes[p].writeEnd, child, |Holds(parent, p)|)),
            fds + (map k | k in Inherited(parent, child) :: fds[(parent, k.1)]),
            next)
    }

    function Inherited(parent: Pid, child: Pid): (r: set<Key>)
      ensures forall k :: k in r <==> k.0 == child && (parent, k.1) in fds
    {
      set k | k in fds && k.0 == parent :: (child, k.1)
    }
  }

  datatype Step =
    | OpenStep(pid: Pid, fd: Fd)
    | PipeStep(pid: Pid, fd: Fd)
    | DupStep(pid: Pid, oldfd: Fd, newfd: Fd)
    | Dup2Step(pid: Pid, oldfd: Fd, newfd: Fd)
    | FcntlDupStep(pid: Pid, oldfd: Fd, newfd: Fd)
    | CloneStep(parent: Pid, child: Pid)
    | CloseStep(pid: Pid, fd: Fd)

  // ----- the invariant

  ghost predicate Entered(t: Table, k: Key)
    requires k in t.fds
  {
    t.fds[k].PipeFd? ==>
      t.fds[k].pipe in t.pipes && End(k.1, k.0) in t.pipes[t.fds[k].pipe].Ends(t.fds[k].writing)
  }

  /** Every pipe descriptor of every process has an entry in the right end list of a live pipe. */
  ghost predicate Tracked(t: Table) {
    && (forall k {:trigger Entered(t, k)} :: k in t.fds ==> Entered(t, k))
    && (forall p :: p in t.pipes ==> p < t.next)
  }

  /** A process that neither has descriptors nor occurs in an end list. */
  ghost predicate Unused(t: Table, pid: Pid) {
    && (forall k :: k in t.fds ==> k.0 != pid)
    && (forall p, e :: p in t.pipes && (e in t.pipes[p].readEnd || e in t.pipes[p].writeEnd) ==> e.pid != pid)
  }

  ghost predicate Enabled(t: Table, step: Step) {
    match step
    case OpenStep(pid, fd) => (pid, fd) !in t.fds
    case PipeStep(pid, fd) => (pid, fd) !in t.fds && (pid, fd + 1) !in t.fds
    case DupStep(pid, oldfd, newfd) => (pid, oldfd) in t.fds && (pid, newfd) !in t.fds
    case Dup2Step(pid, oldfd, newfd) => (pid, oldfd) in t.fds && (oldfd != newfd || t.fds[(pid, oldfd)].Other?)
    case FcntlDupStep(pid, oldfd, newfd) => (pid, oldfd) in t.fds && (pid, newfd) !in t.fds && t.fds[(pid, oldfd)].Other?
    case CloneStep(parent, child) => Unused(t, child)
    case CloseStep(pid, fd) => true
  }

  /** Closing another descriptor does not free the pipe of a descriptor in use. */
  lemma CloseKeepsPipe(t: Table, pid: Pid, fd: Fd, k: Key)
    requires Tracked(t) && k in t.fds && k != (pid, fd)
    ensures (pid, fd) in t.fds && t.fds[(pid, fd)].PipeFd? ==> t.fds[(pid, fd)].pipe in t.pipes
    ensures Entered(t.DoClose(pid, fd), k)
  {
    assert Entered(t, k);
    if (pid, fd) in t.fds { assert Entered(t, (pid, fd)); }
  }

  ghost function Do(t: Table, step: Step): Table
    requires Tracked(t) && Enabled(t, step)
  {
    match step
    case OpenStep(pid, fd) => t.DoOpen(pid, fd)
    case PipeStep(pid, fd) => t.DoPipe(pid, fd)
    case DupStep(pid, oldfd, newfd) => assert Entered(t, (pid, oldfd)); t.DoDup(pid, oldfd, newfd)
    case Dup2Step(pid, oldfd, newfd) =>
      assert (pid, newfd) in t.fds ==> Entered(t, (pid, newfd));
      t.DoDup2(pid, oldfd, newfd)
    case FcntlDupStep(pid, oldfd, newfd) => t.DoFcntlDup(pid, oldfd, newfd)
    case CloneStep(parent, child) => t.DoClone(parent, child)
    case CloseStep(pid, fd) => assert (pid, fd) in t.fds ==> Entered(t, (pid, fd)); t.DoClose(pid, fd)
  }

  lemma DupKeepsTracked(t: Table, pid: Pid, oldfd: Fd, newfd: Fd)
    requires Tracked(t) && (pid, oldfd) in t.fds && (pid, newfd) !in t.fds
    ensures t.fds[(pid, oldfd)].PipeFd? ==> t.fds[(pid, oldfd)].pipe in t.pipes
    ensures Tracked(t.DoDup(pid, oldfd, newfd))
  {
    assert Entered(t, (pid, oldfd));
    var m := t.DoDup(pid, oldfd, newfd);
    forall k | k in m.fds ensures Entered(m, k) {
      if k != (pid, newfd) { assert Entered(t, k); }
    }
  }

  lemma CloseKeepsTracked(t: Table, pid: Pid, fd: Fd)
    requires Tracked(t)
    ensures Tracked(Do(t, CloseStep(pid, fd)))
  {
    var m := Do(t, CloseStep(pid, fd));
    if (pid, fd) in t.fds { assert Entered(t, (pid, fd)); }
    forall k | k in m.fds ensures Entered(m, k) {
      assert k != (pid, fd);
      CloseKeepsPipe(t, pid, fd, k);
    }
  }

  lemma CloneKeepsTracked(t: Table, parent: Pid, child: Pid)
    requires Tracked(t) && Unused(t, child)
    ensures Tracked(t.DoClone(parent, child))
  {
    var m := t.DoClone(parent, child);
    forall k | k in m.fds ensures Entered(m, k) {
      var origin := if k.0 == child then (parent, k.1) else k;
      assert origin in t.fds && m.fds[k] == t.fds[origin] && Entered(t, origin);
      if m.fds[k].PipeFd? {
        var p := m.fds[k].pipe;
        var list := t.pipes[p].Ends(m.fds[k].writing);
        CopiedMembers(list, child, |t.Holds(parent, p)|, End(k.1, k.0));
        if k.0 == child {
          assert origin in t.Holds(parent, p);
          CopyMade(list, child, End(k.1, parent));
        }
      }
    }
  }

  /** dup2 onto the same descriptor changes nothing when it is not a pipe. */
  lemma PutBack(t: Table, pid: Pid, fd: Fd)
    requires (pid, fd) in t.fds && t.fds[(pid, fd)].Other?
    ensures t.DoDup2(pid, fd, fd) == t
  {
    SelfDup2Fds(t, pid, fd);
  }

  /** Every call keeps every pipe descriptor in the right end list of a live pipe. */
  lemma StepKeepsTracked(t: Table, step: Step)
    requires Tracked(t) && Enabled(t, step)
    ensures Tracked(Do(t, step))
  {
    match step
    case DupStep(pid, oldfd, newfd) => DupKeepsTracked(t, pid, oldfd, newfd);
    case Dup2Step(pid, oldfd, newfd) =>
      CloseKeepsTracked(t, pid, newfd);
      if oldfd != newfd {
        DupKeepsTracked(Do(t, CloseStep(pid, newfd)), pid, oldfd, newfd);
      } else {
        PutBack(t, pid, oldfd);
      }
    case CloneStep(parent, child) => CloneKeepsTracked(t, parent, child);
    case CloseStep(pid, fd) => CloseKeepsTracked(t, pid, fd);
    case OpenStep(pid, fd) =>
      forall k | k in Do(t, step).fds && k != (pid, fd) ensures Entered(Do(t, step), k) { assert Entered(t, k); }
    case FcntlDupStep(pid, oldfd, newfd) =>
      forall k | k in Do(t, step).fds && k in t.fds ensures Entered(Do(t, step), k) { assert Entered(t, k); }
    case PipeStep(pid, fd) =>
      forall k | k in Do(t, step).fds && k in t.fds ensures Entered(Do(t, step), k) { assert Entered(t, k); }
  }

  // ----- dup2 onto the same descriptor

  /** The descriptor is the only end of its pipe. */
  ghost predicate OnlyEnd(q: Pipe, e: End) {
    (forall x :: x in q.readEnd ==> x == e) && (forall x :: x in q.writeEnd ==> x == e)
  }

  /** dup2 of a pipe's descriptor onto itself leaves it open, as the kernel does, but in no end list:
      closing the target has removed the entries before they could be copied. The pipe is freed in use
      if and only if the descriptor was its only end. */
  lemma SelfDup2(t: Table, pid: Pid, fd: Fd)
    requires Tracked(t) && (pid, fd) in t.fds && t.fds[(pid, fd)].PipeFd?
    ensures t.fds[(pid, fd)].pipe in t.pipes
    ensures var m, p := t.DoDup2(pid, fd, fd), t.fds[(pid, fd)].pipe;
      && m.fds == t.fds && !Entered(m, (pid, fd))
      && (p !in m.pipes <==> OnlyEnd(t.pipes[p], End(fd, pid)))
      && (p in m.pipes ==> End(fd, pid) !in m.pipes[p].readEnd && End(fd, pid) !in m.pipes[p].writeEnd)
  {
    assert Entered(t, (pid, fd));
    var p, e := t.fds[(pid, fd)].pipe, End(fd, pid);
    var q := Pipe(Without(t.pipes[p].readEnd, e), Without(t.pipes[p].writeEnd, e));
    DuplicatesNone(q.readEnd, e, fd);
    DuplicatesNone(q.writeEnd, e, fd);
    WithoutEmpty(t.pipes[p].readEnd, e);
    WithoutEmpty(t.pipes[p].writeEnd, e);
    SelfDup2Fds(t, pid, fd);
  }

  lemma SelfDup2Fds(t: Table, pid: Pid, fd: Fd)
    requires (pid, fd) in t.fds && (t.fds[(pid, fd)].PipeFd? ==> t.fds[(pid, fd)].pipe in t.pipes)
    ensures t.DoDup2(pid, fd, fd).fds == t.fds
  {
  }

  /** dup2 keeps every pipe descriptor in the right end list if and only if it names two different
      descriptors or one that is not a pipe. */
  lemma Dup2Exact(t: Table, pid: Pid, oldfd: Fd, newfd: Fd)
    requires Tracked(t) && (pid, oldfd) in t.fds
    ensures (pid, newfd) in t.fds && t.fds[(pid, newfd)].PipeFd? ==> t.fds[(pid, newfd)].pipe in t.pipes
    ensures Tracked(t.DoDup2(pid, oldfd, newfd)) <==> oldfd != newfd || t.fds[(pid, oldfd)].Other?
  {
    if (pid, newfd) in t.fds { assert Entered(t, (pid, newfd)); }
    if oldfd != newfd || t.fds[(pid, oldfd)].Other? {
      StepKeepsTracked(t, Dup2Step(pid, oldfd, newfd));
    } else {
      SelfDup2(t, pid, oldfd);
    }
  }

  // ----- duplicating by fcntl

  /** A duplicate made by fcntl is in the right end list only if an entry was left there under its number.
      So fcntl keeps every pipe descriptor in its end list if and only if the descriptor is not a pipe, or
      such an entry was left. */
  lemma FcntlDupExact(t: Table, pid: Pid, oldfd: Fd, newfd: Fd)
    requires Tracked(t) && (pid, oldfd) in t.fds && (pid, newfd) !in t.fds
    ensures var d := t.fds[(pid, oldfd)];
      && (d.PipeFd? ==> d.pipe in t.pipes)
      && (Tracked(t.DoFcntlDup(pid, oldfd, newfd)) <==>
            d.Other? || End(newfd, pid) in t.pipes[d.pipe].Ends(d.writing))
  {
    assert Entered(t, (pid, oldfd));
    var m := t.DoFcntlDup(pid, oldfd, newfd);
    forall k | k in t.fds ensures Entered(m, k) { assert Entered(t, k); }
    assert Tracked(m) ==> Entered(m, (pid, newfd));
  }

  /** With exact end lists no entry is left. */
  lemma FcntlDupUntracked(t: Table, pid: Pid, oldfd: Fd, newfd: Fd)
    requires Tracked(t) && Exact(t) && (pid, oldfd) in t.fds && (pid, newfd) !in t.fds
    ensures Tracked(t.DoFcntlDup(pid, oldfd, newfd)) <==> t.fds[(pid, oldfd)].Other?
  {
    FcntlDupExact(t, pid, oldfd, newfd);
    var d := t.fds[(pid, oldfd)];
    if d.PipeFd? {
      var e := End(newfd, pid);
      assert e in t.pipes[d.pipe].Ends(d.writing) ==> Matches(t, d.pipe, d.writing, e);
    }
  }

  /** Make a pipe, duplicate one of its descriptors by fcntl, close the two descriptors made with it: the
      pipe is freed, and the duplicate refers to it. */
  lemma FcntlDupFrees(t: Table, pid: Pid, fd: Fd, newfd: Fd)
    requires Tracked(t) && t.next !in t.pipes && (pid, fd) !in t.fds && (pid, fd + 1) !in t.fds
    requires newfd != fd && newfd != fd + 1
    ensures var m := t.DoPipe(pid, fd).DoFcntlDup(pid, fd, newfd).DoClose(pid, fd).DoClose(pid, fd + 1);
      t.next !in m.pipes && (pid, newfd) in m.fds && m.fds[(pid, newfd)] == PipeFd(t.next, false)
  {
    var a := t.DoPipe(pid, fd).DoFcntlDup(pid, fd, newfd);
    WithoutEmpty([End(fd, pid)], End(fd, pid));
    WithoutNone([End(fd + 1, pid)], End(fd, pid));
    assert a.DoClose(pid, fd).pipes[t.next] == Pipe([], [End(fd + 1, pid)]);
    WithoutEmpty([End(fd + 1, pid)], End(fd + 1, pid));
    WithoutEmpty([], End(fd + 1, pid));
  }

  // ----- runs

  ghost predicate Legal(t: Table, steps: seq<Step>)
    requires Tracked(t)
    decreases |steps|
  {
    steps == [] || (Enabled(t, steps[0]) && (StepKeepsTracked(t, steps[0]); Legal(Do(t, steps[0]), steps[1..])))
  }

  ghost function After(t: Table, steps: seq<Step>): (m: Table)
    requires Tracked(t) && Legal(t, steps)
    ensures Tracked(m)
    decreases |steps|
  {
    if steps == [] then t else
      StepKeepsTracked(t, steps[0]);
      After(Do(t, steps[0]), steps[1..])
  }

  const EMPTY_TABLE := Table(map[], map[], 0)

  /** In every run a close frees a pipe only when no descriptor of any process refers to it. */
  lemma FreedUnreferenced(steps: seq<Step>, pid: Pid, fd: Fd, p: PipeId)
    requires Tracked(EMPTY_TABLE) && Legal(EMPTY_TABLE, steps)
    requires p in After(EMPTY_TABLE, steps).pipes && p !in Do(After(EMPTY_TABLE, steps), CloseStep(pid, fd)).pipes
    ensures forall k :: k in Do(After(EMPTY_TABLE, steps), CloseStep(pid, fd)).fds ==>
      var d := Do(After(EMPTY_TABLE, steps), CloseStep(pid, fd)).fds[k]; !(d.PipeFd? && d.pipe == p)
  {
    var t := After(EMPTY_TABLE, steps);
    var m := Do(t, CloseStep(pid, fd));
    CloseKeepsTracked(t, pid, fd);
    forall k | k in m.fds ensures !(m.fds[k].PipeFd? && m.fds[k].pipe == p) { assert Entered(m, k); }
  }

  // ----- when the end lists hold nothing else

  ghost predicate Matches(t: Table, p: PipeId, writing: bool, e: End) {
    (e.pid, e.fd) in t.fds && t.fds[(e.pid, e.fd)] == PipeFd(p, writing)
  }

  /** Every entry of an end list is a descriptor of that end, and no live pipe is without ends. */
  ghost predicate Exact(t: Table) {
    && (forall p, w, e {:trigger Matches(t, p, w, e)} :: p in t.pipes && e in t.pipes[p].Ends(w) ==> Matches(t, p, w, e))
    && (forall p :: p in t.pipes ==> t.pipes[p].readEnd != [] || t.pipes[p].writeEnd != [])
  }

  /** With exact lists, the live pipes are exactly those a descriptor refers to. */
  lemma ExactLiveness(t: Table, p: PipeId)
    requires Tracked(t) && Exact(t)
    ensures p in t.pipes <==> exists k :: k in t.fds && t.fds[k].PipeFd? && t.fds[k].pipe == p
  {
    if p in t.pipes {
      var w := t.pipes[p].readEnd == [];
      var e := t.pipes[p].Ends(w)[0];
      assert Matches(t, p, w, e);
    } else {
      forall k | k in t.fds ensures !(t.fds[k].PipeFd? && t.fds[k].pipe == p) { assert Entered(t, k); }
    }
  }

  lemma PipeKeepsExact(t: Table, pid: Pid, fd: Fd)
    requires Tracked(t) && Exact(t) && Enabled(t, PipeStep(pid, fd))
    ensures Exact(t.DoPipe(pid, fd))
  {
    var m := t.DoPipe(pid, fd);
    forall p, w, e | p in m.pipes && e in m.pipes[p].Ends(w) ensures Matches(m, p, w, e) {
      if p in t.pipes { assert Matches(t, p, w, e); }
    }
  }

  lemma DupKeepsExact(t: Table, pid: Pid, oldfd: Fd, newfd: Fd)
    requires Tracked(t) && Exact(t) && (pid, oldfd) in t.fds && (pid, newfd) !in t.fds
    ensures Exact(Do(t, DupStep(pid, oldfd, newfd)))
  {
    assert Entered(t, (pid, oldfd));
    var m := t.DoDup(pid, oldfd, newfd);
    forall p, w, e | p in m.pipes && e in m.pipes[p].Ends(w) ensures Matches(m, p, w, e) {
      if e in t.pipes[p].Ends(w) {
        assert Matches(t, p, w, e);
      } else {
        assert e == End(newfd, pid) && End(oldfd, pid) in t.pipes[p].Ends(w);
        assert Matches(t, p, w, End(oldfd, pid));
      }
    }
  }

  lemma CloseKeepsExact(t: Table, pid: Pid, fd: Fd)
    requires Tracked(t) && Exact(t)
    ensures Exact(Do(t, CloseStep(pid, fd)))
  {
    if (pid, fd) in t.fds { assert Entered(t, (pid, fd)); }
    var m := t.DoClose(pid, fd);
    forall p, w, e | p in m.pipes && e in m.pipes[p].Ends(w) ensures Matches(m, p, w, e) {
      assert Matches(t, p, w, e);
    }
  }

  /** Without clone the end lists stay exact, so a pipe is freed by the close of its last
      descriptor. */
  lemma StepKeepsExact(t: Table, step: Step)
    requires Tracked(t) && Exact(t) && Enabled(t, step) && !step.CloneStep?
    ensures Exact(Do(t, step))
  {
    match step
    case OpenStep(pid, fd) =>
      var m := Do(t, step);
      forall p, w, e | p in m.pipes && e in m.pipes[p].Ends(w) ensures Matches(m, p, w, e) { assert Matches(t, p, w, e); }
    case FcntlDupStep(pid, oldfd, newfd) =>
      var m := Do(t, step);
      forall p, w, e | p in m.pipes && e in m.pipes[p].Ends(w) ensures Matches(m, p, w, e) { assert Matches(t, p, w, e); }
    case PipeStep(pid, fd) => PipeKeepsExact(t, pid, fd);
    case DupStep(pid, oldfd, newfd) => DupKeepsExact(t, pid, oldfd, newfd);
    case Dup2Step(pid, oldfd, newfd) =>
      CloseKeepsTracked(t, pid, newfd);
      CloseKeepsExact(t, pid, newfd);
      if oldfd != newfd {
        DupKeepsExact(Do(t, CloseStep(pid, newfd)), pid, oldfd, newfd);
      } else {
        PutBack(t, pid, oldfd);
      }
    case CloseStep(pid, fd) => CloseKeepsExact(t, pid, fd);
  }

  /** Every end of every pipe the parent holds is one the parent holds too. */
  ghost predicate Clonable(t: Table, parent: Pid) {
    forall p, w, e {:trigger e in t.pipes[p].Ends(w)} ::
      p in t.pipes && t.Holds(parent, p) != {} && e in t.pipes[p].Ends(w) ==> Matches(t, p, w, End(e.fd, parent))
  }

  /** clone keeps the end lists exact exactly when the parent holds every end of its pipes: the copy
      of an end that only another process holds is never removed. */
  lemma CloneExact(t: Table, parent: Pid, child: Pid)
    requires Tracked(t) && Exact(t) && Unused(t, child)
    ensures Exact(t.DoClone(parent, child)) <==> Clonable(t, parent)
  {
    var m := t.DoClone(parent, child);
    if Clonable(t, parent) {
      forall p, w, e | p in m.pipes && e in m.pipes[p].Ends(w) ensures Matches(m, p, w, e) {
        ClonedEnd(t, parent, child, p, w, e);
      }
      forall p | p in m.pipes ensures m.pipes[p].readEnd != [] || m.pipes[p].writeEnd != [] {
        ClonedNonEmpty(t, parent, child, p);
      }
    }
    if Exact(m) {
      forall p, w, e | p in t.pipes && t.Holds(parent, p) != {} && e in t.pipes[p].Ends(w)
        ensures Matches(t, p, w, End(e.fd, parent))
      {
        CopyMade(t.pipes[p].Ends(w), child, e);
        CopiedMembers(t.pipes[p].Ends(w), child, |t.Holds(parent, p)|, End(e.fd, child));
        assert Matches(m, p, w, End(e.fd, child));
      }
    }
  }

  lemma ClonedNonEmpty(t: Table, parent: Pid, child: Pid, p: PipeId)
    requires p in t.pipes && (t.pipes[p].readEnd != [] || t.pipes[p].writeEnd != [])
    ensures var q := t.DoClone(parent, child).pipes[p]; q.readEnd != [] || q.writeEnd != []
  {
    var w := t.pipes[p].readEnd == [];
    var e := t.pipes[p].Ends(w)[0];
    CopiedMembers(t.pipes[p].Ends(w), child, |t.Holds(parent, p)|, e);
  }

  lemma ClonedEnd(t: Table, parent: Pid, child: Pid, p: PipeId, w: bool, e: End)
    requires Tracked(t) && Exact(t) && Unused(t, child) && Clonable(t, parent)
    requires p in t.pipes && e in t.DoClone(parent, child).pipes[p].Ends(w)
    ensures Matches(t.DoClone(parent, child), p, w, e)
  {
    var list := t.pipes[p].Ends(w);
    CopiedMembers(list, child, |t.Holds(parent, p)|, e);
    if e in list {
      assert Matches(t, p, w, e);
    } else {
      var y := CopyOrigin(list, child, e);
      assert Matches(t, p, w, End(y.fd, parent));
    }
  }

  // ----- entries nobody can close

  ghost predicate AllCloses(steps: seq<Step>) {
    forall s :: s in steps ==> s.CloseStep?
  }

  /** An entry of a pipe that belongs to no descriptor of that pipe. */
  ghost predicate Stale(t: Table, p: PipeId, e: End) {
    && p in t.pipes && (e in t.pipes[p].readEnd || e in t.pipes[p].writeEnd)
    && !((e.pid, e.fd) in t.fds && t.fds[(e.pid, e.fd)].PipeFd? && t.fds[(e.pid, e.fd)].pipe == p)
  }

  lemma {:induction false} ClosesLegal(t: Table, steps: seq<Step>)
    requires Tracked(t) && AllCloses(steps)
    ensures Legal(t, steps)
    decreases |steps|
  {
    if steps != [] {
      assert steps[0] in steps && forall s :: s in steps[1..] ==> s in steps;
      StepKeepsTracked(t, steps[0]);
      ClosesLegal(Do(t, steps[0]), steps[1..]);
    }
  }

  /** No sequence of closes frees a pipe with a stale entry. */
  lemma {:induction false} StaleSurvives(t: Table, steps: seq<Step>, p: PipeId, e: End)
    requires Tracked(t) && AllCloses(steps) && Stale(t, p, e)
    ensures Legal(t, steps) && Stale(After(t, steps), p, e)
    decreases |steps|
  {
    ClosesLegal(t, steps);
    if steps != [] {
      assert steps[0] in steps && forall s :: s in steps[1..] ==> s in steps;
      var k := (steps[0].pid, steps[0].fd);
      if k in t.fds { assert Entered(t, k); }
      StepKeepsTracked(t, steps[0]);
      StaleSurvives(Do(t, steps[0]), steps[1..], p, e);
    }
  }

  /** The pipe has ends, and every one is a descriptor of it. */
  ghost predicate Clean(t: Table, p: PipeId) {
    p in t.pipes && (t.pipes[p].readEnd != [] || t.pipes[p].writeEnd != []) && forall e :: !Stale(t, p, e)
  }

  /** Closes free a pipe without stale entries, or keep it so. */
  lemma {:induction false} CleanCloses(t: Table, steps: seq<Step>, p: PipeId)
    requires Tracked(t) && AllCloses(steps) && Clean(t, p)
    ensures Legal(t, steps) && (p in After(t, steps).pipes ==> Clean(After(t, steps), p))
    decreases |steps|
  {
    ClosesLegal(t, steps);
    if steps != [] {
      assert steps[0] in steps && forall s :: s in steps[1..] ==> s in steps;
      var m := Do(t, steps[0]);
      StepKeepsTracked(t, steps[0]);
      CleanClose(t, steps[0].pid, steps[0].fd, p);
      if p in m.pipes { CleanCloses(m, steps[1..], p); } else { GoneStays(m, steps[1..], p); }
    }
  }

  lemma CleanClose(t: Table, pid: Pid, fd: Fd, p: PipeId)
    requires Tracked(t) && Clean(t, p)
    ensures p in Do(t, CloseStep(pid, fd)).pipes ==> Clean(Do(t, CloseStep(pid, fd)), p)
  {
    if (pid, fd) in t.fds { assert Entered(t, (pid, fd)); }
    var m := Do(t, CloseStep(pid, fd));
    forall e ensures !Stale(m, p, e) { assert !Stale(t, p, e); }
  }

  lemma {:induction false} GoneStays(t: Table, steps: seq<Step>, p: PipeId)
    requires Tracked(t) && AllCloses(steps) && p !in t.pipes
    ensures Legal(t, steps) && p !in After(t, steps).pipes
    decreases |steps|
  {
    ClosesLegal(t, steps);
    if steps != [] {
      assert steps[0] in steps && forall s :: s in steps[1..] ==> s in steps;
      if (steps[0].pid, steps[0].fd) in t.fds { assert Entered(t, (steps[0].pid, steps[0].fd)); }
      StepKeepsTracked(t, steps[0]);
      GoneStays(Do(t, steps[0]), steps[1..], p);
    }
  }

  /** When all descriptors of all processes have been closed, a pipe with ends lives on if and only if one
      of its entries was stale. */
  lemma SurvivesExact(t: Table, steps: seq<Step>, p: PipeId)
    requires Tracked(t) && AllCloses(steps) && p in t.pipes
    requires t.pipes[p].readEnd != [] || t.pipes[p].writeEnd != []
    ensures Legal(t, steps)
    ensures After(t, steps).fds == map[] ==> (p in After(t, steps).pipes <==> exists e :: Stale(t, p, e))
  {
    ClosesLegal(t, steps);
    var m := After(t, steps);
    if e :| Stale(t, p, e) {
      StaleSurvives(t, steps, p, e);
    } else {
      CleanCloses(t, steps, p);
      if m.fds == map[] && p in m.pipes {
        var q := m.pipes[p];
        var e := if q.readEnd != [] then q.readEnd[0] else q.writeEnd[0];
        assert e in q.readEnd || e in q.writeEnd;
        assert Stale(m, p, e);
      }
    }
  }

  /** The parent holds a pipe, but not under the number of one of its ends. */
  ghost predicate Uncovered(t: Table, parent: Pid, p: PipeId, e: End) {
    && p in t.pipes && t.Holds(parent, p) != {} && (e in t.pipes[p].readEnd || e in t.pipes[p].writeEnd)
    && (parent, e.fd) !in t.Holds(parent, p)
  }

  /** A clone of such a parent leaks: whatever is closed afterwards, the pipe lives on. */
  lemma CloneLeaks(t: Table, parent: Pid, child: Pid, p: PipeId, e: End, steps: seq<Step>)
    requires Tracked(t) && Unused(t, child) && Uncovered(t, parent, p, e) && AllCloses(steps)
    ensures Legal(t, [CloneStep(parent, child)] + steps) && p in After(t, [CloneStep(parent, child)] + steps).pipes
  {
    var m, run := t.DoClone(parent, child), [CloneStep(parent, child)] + steps;
    assert run[0] == CloneStep(parent, child) && run[1..] == steps;
    var w := e in t.pipes[p].writeEnd;
    CopyMade(t.pipes[p].Ends(w), child, e);
    CopiedMembers(t.pipes[p].Ends(w), child, |t.Holds(parent, p)|, End(e.fd, child));
    assert Stale(m, p, End(e.fd, child));
    CloneKeepsTracked(t, parent, child);
    StaleSurvives(m, steps, p, End(e.fd, child));
  }

  const TO_LEAK := [PipeStep(0, 3), CloneStep(0, 1), CloseStep(0, 4)]

  /** A run after which a clone of process 0 leaks: it makes a pipe, clones process 1 and closes the
      writing end, which process 1 keeps. */
  lemma LeakReached()
    ensures Tracked(EMPTY_TABLE) && Legal(EMPTY_TABLE, TO_LEAK)
    ensures Uncovered(After(EMPTY_TABLE, TO_LEAK), 0, 0, End(4, 1)) && Unused(After(EMPTY_TABLE, TO_LEAK), 2)
  {
    var a := EMPTY_TABLE.DoPipe(0, 3);
    var b := a.DoClone(0, 1);
    Made(a);
    CloneKeepsTracked(a, 0, 1);
    ForkedEnds(a);
    ForkedFds(a);
    HalfClosed(b, 0, 3, 4, 1, 0);
    ThreeSteps(EMPTY_TABLE, a, b, TO_LEAK);
  }

  lemma Made(a: Table)
    requires a == EMPTY_TABLE.DoPipe(0, 3)
    ensures Tracked(EMPTY_TABLE) && Enabled(EMPTY_TABLE, PipeStep(0, 3)) && Do(EMPTY_TABLE, PipeStep(0, 3)) == a
    ensures Tracked(a) && Unused(a, 1)
  {
    StepKeepsTracked(EMPTY_TABLE, PipeStep(0, 3));
  }

  lemma ForkedFds(a: Table)
    requires a == EMPTY_TABLE.DoPipe(0, 3)
    ensures var b := a.DoClone(0, 1).fds;
      && (0, 3) in b && b[(0, 3)] == PipeFd(0, false) && (0, 4) in b && b[(0, 4)] == PipeFd(0, true)
      && (1, 4) in b && b[(1, 4)] == PipeFd(0, true)
  {
    assert (1, 4) in a.Inherited(0, 1);
  }

  lemma ThreeSteps(t: Table, a: Table, b: Table, steps: seq<Step>)
    requires |steps| == 3 && Tracked(t) && Enabled(t, steps[0]) && Do(t, steps[0]) == a
    requires Tracked(a) && Enabled(a, steps[1]) && Do(a, steps[1]) == b && Tracked(b) && Enabled(b, steps[2])
    ensures Legal(t, steps) && After(t, steps) == Do(b, steps[2])
  {
    FirstStep(b, steps[2..]);
    assert steps[2..][1..] == [];
    FirstStep(a, steps[1..]);
    assert steps[1..][1..] == steps[2..];
    FirstStep(t, steps);
  }

  lemma FirstStep(t: Table, steps: seq<Step>)
    requires Tracked(t) && steps != [] && Enabled(t, steps[0])
    ensures Tracked(Do(t, steps[0]))
    ensures Legal(Do(t, steps[0]), steps[1..]) ==> Legal(t, steps) && After(t, steps) == After(Do(t, steps[0]), steps[1..])
  {
    StepKeepsTracked(t, steps[0]);
  }

  /** Two processes hold the writing end under one number. When the first closes it and keeps the reading
      end, the entry of the second is uncovered. */
  lemma HalfClosed(t: Table, pid: Pid, reading: Fd, writing: Fd, other: Pid, p: PipeId)
    requires Tracked(t) && pid != other && reading != writing
    requires (pid, reading) in t.fds && t.fds[(pid, reading)] == PipeFd(p, false)
    requires (pid, writing) in t.fds && t.fds[(pid, writing)] == PipeFd(p, true)
    requires (other, writing) in t.fds && t.fds[(other, writing)] == PipeFd(p, true)
    ensures var m := Do(t, CloseStep(pid, writing));
      Uncovered(m, pid, p, End(writing, other)) && forall q :: Unused(t, q) ==> Unused(m, q)
  {
    assert Entered(t, (other, writing)) && Entered(t, (pid, writing));
    CloseKeepsPipe(t, pid, writing, (other, writing));
    assert (pid, reading) in t.DoClose(pid, writing).Holds(pid, p);
  }

  /** After process 0 has cloned process 1, nothing belongs to another process. */
  lemma ForkedEnds(a: Table)
    requires a == EMPTY_TABLE.DoPipe(0, 3)
    ensures Unused(a.DoClone(0, 1), 2)
  {
    var b := a.DoClone(0, 1);
    forall p, e | p in b.pipes && (e in b.pipes[p].readEnd || e in b.pipes[p].writeEnd) ensures e.pid != 2 {
      var w := e in b.pipes[p].writeEnd;
      CopiedMembers(a.pipes[p].Ends(w), 1, |a.Holds(0, p)|, e);
      if e !in a.pipes[p].Ends(w) { var y := CopyOrigin(a.pipes[p].Ends(w), 1, e); }
    }
  }

  // ----- the mutable tables

  /** The simulator's pipe objects and descriptor maps, updated in place. */
  class Descriptors {
    var pipes: map<PipeId, Pipe>
    var fds: map<Key, Desc>
    var next: PipeId

    ghost function View(): Table
      reads this
    {
      Table(pipes, fds, next)
    }

    /** The lists are short enough for an unsigned cursor. */
    ghost predicate Countable()
      reads this
    {
      forall p :: p in pipes ==> |pipes[p].readEnd| < UINT_MAX1 && |pipes[p].writeEnd| < UINT_MAX1
    }

    /** syscall_pipe_post: the second descriptor is taken to be the one after the first. */
    method MakePipe(pid: Pid, fd: Fd) returns (p: PipeId)
      modifies this
      ensures p == old(next) && View() == old(View()).DoPipe(pid, fd)
    {
      p := next;
      next := next + 1;
      pipes := pipes[p := Pipe([End(fd, pid)], [End(fd + 1, pid)])];
      fds := fds[(pid, fd) := PipeFd(p, false)];
      fds := fds[(pid, fd + 1) := PipeFd(p, true)];
    }

    /** syscall_dup_post; newfd is the descriptor the kernel has chosen. */
    method Dup(pid: Pid, oldfd: Fd, newfd: Fd)
      requires oldfd != newfd && (pid, oldfd) in fds
      requires fds[(pid, oldfd)].PipeFd? ==> fds[(pid, oldfd)].pipe in pipes
      modifies this
      ensures View() == old(View()).DoDup(pid, oldfd, newfd)
    {
      Install(pid, oldfd, newfd, fds[(pid, oldfd)]);
    }

    /** The part that dup and dup2 share: the lists of a pipe that has been freed are not there to be
        walked. */
    method Install(pid: Pid, oldfd: Fd, newfd: Fd, d: Desc)
      requires oldfd != newfd || (d.PipeFd? && d.pipe in pipes ==>
        End(oldfd, pid) !in pipes[d.pipe].readEnd && End(oldfd, pid) !in pipes[d.pipe].writeEnd)
      modifies this
      ensures View() == old(View()).Install(pid, oldfd, newfd, d)
    {
      fds := fds[(pid, newfd) := d];
      if d.PipeFd? && d.pipe in pipes {
        var r := DuplicateEnds(pipes[d.pipe].readEnd, End(oldfd, pid), newfd);
        pipes := pipes[d.pipe := pipes[d.pipe].(readEnd := r)];
        var w := DuplicateEnds(pipes[d.pipe].writeEnd, End(oldfd, pid), newfd);
        pipes := pipes[d.pipe := pipes[d.pipe].(writeEnd := w)];
      }
    }

    /** process_close_call. */
    method Close(pid: Pid, fd: Fd)
      requires Countable()
      requires (pid, fd) in fds && fds[(pid, fd)].PipeFd? ==> fds[(pid, fd)].pipe in pipes
      modifies this
      ensures View() == old(View()).DoClose(pid, fd)
    {
      if (pid, fd) in fds {
        var d := fds[(pid, fd)];
        if d.PipeFd? {
          var r := RemoveEnds(pipes[d.pipe].readEnd, End(fd, pid));
          pipes := pipes[d.pipe := pipes[d.pipe].(readEnd := r)];
          var w := RemoveEnds(pipes[d.pipe].writeEnd, End(fd, pid));
          pipes := pipes[d.pipe := pipes[d.pipe].(writeEnd := w)];
          if r == [] && w == [] {
            pipes := pipes - {d.pipe};
          }
        }
        fds := fds - {(pid, fd)};
      }
    }

    /** syscall_dup2_post: close the target first. */
    method Dup2(pid: Pid, oldfd: Fd, newfd: Fd)
      requires Countable() && Tracked(View()) && (pid, oldfd) in fds
      modifies this
      ensures (pid, newfd) in old(fds) && old(fds)[(pid, newfd)].PipeFd? ==> old(fds)[(pid, newfd)].pipe in old(pipes)
      ensures View() == old(View()).DoDup2(pid, oldfd, newfd)
    {
      if (pid, newfd) in fds { assert Entered(View(), (pid, newfd)); }
      assert (pid, newfd) !in fds ==> View().DoClose(pid, newfd) == View();
      var d := fds[(pid, oldfd)];
      if (pid, newfd) in fds {
        Close(pid, newfd);
      }
      Install(pid, oldfd, newfd, d);
    }

    /** process_fcntl_call with F_DUPFD or F_DUPFD_CLOEXEC. */
    method FcntlDup(pid: Pid, oldfd: Fd, newfd: Fd)
      requires (pid, oldfd) in fds
      modifies this
      ensures View() == old(View()).DoFcntlDup(pid, oldfd, newfd)
    {
      fds := fds[(pid, newfd) := fds[(pid, oldfd)]];
    }

    /** syscall_clone in the child: copy the descriptors one by one, in any order. */
    method Clone(parent: Pid, child: Pid)
      requires Tracked(View()) && Unused(View(), child) && parent != child
      modifies this
      ensures View() == old(View()).DoClone(parent, child)
    {
      ghost var o := View();
      ghost var done: set<Key> := {};
      var todo := set k | k in fds && k.0 == parent;
      ghost var all := todo;
      PartialNone(o, parent, child);
      while todo != {}
        invariant todo !! done && todo + done == all
        invariant View() == Partial(o, parent, child, done)
        decreases todo
      {
        var k :| k in todo;
        assert Entered(o, k) && k in fds && fds[k] == o.fds[k];
        PartialStep(o, parent, child, done, k);
        InheritOne(child, k);
        todo := todo - {k};
        done := done + {k};
      }
      assert done == all;
      PartialAll(o, parent, child);
    }

    /** The body of the loop of syscall_clone. */
    method InheritOne(child: Pid, k: Key)
      requires k in fds && (fds[k].PipeFd? ==> fds[k].pipe in pipes)
      modifies this
      ensures View() == Inherit(old(View()), child, k)
    {
      var d := fds[k];
      fds := fds[(child, k.1) := d];
      if d.PipeFd? {
        var r := CopyEnds(pipes[d.pipe].readEnd, child);
        pipes := pipes[d.pipe := pipes[d.pipe].(readEnd := r)];
        var w := CopyEnds(pipes[d.pipe].writeEnd, child);
        pipes := pipes[d.pipe := pipes[d.pipe].(writeEnd := w)];
      }
    }
  }

  // ----- clone, descriptor by descriptor

  /** One descriptor is inherited. */
  ghost function Inherit(t: Table, child: Pid, k: Key): Table
    requires k in t.fds && (t.fds[k].PipeFd? ==> t.fds[k].pipe in t.pipes)
  {
    var d := t.fds[k];
    var m := t.(fds := t.fds[(child, k.1) := d]);
    if d.Other? then m
    else
      m.(pipes := t.pipes[d.pipe := CopyOnce(t.pipes[d.pipe], child)])
  }

  ghost function CopyOnce(q: Pipe, child: Pid): Pipe {
    Pipe(q.readEnd + Copies(q.readEnd, child), q.writeEnd + Copies(q.writeEnd, child))
  }

  ghost predicate Of(t: Table, parent: Pid, keys: set<Key>) {
    forall k :: k in keys ==> k.0 == parent && k in t.fds
  }

  ghost function On(t: Table, keys: set<Key>, p: PipeId): set<Key> {
    set k | k in keys && k in t.fds && t.fds[k].PipeFd? && t.fds[k].pipe == p
  }

  ghost function Renamed(child: Pid, keys: set<Key>): (r: set<Key>) {
    set j | j in keys :: (child, j.1)
  }

  /** The tables when the given descriptors of the parent have been inherited. */
  ghost function Partial(t: Table, parent: Pid, child: Pid, done: set<Key>): Table
    requires Of(t, parent, done)
  {
    Table(map p | p in t.pipes :: CopiedPipe(t.pipes[p], child, |On(t, done, p)|),
          t.fds + (map k | k in Renamed(child, done) :: t.fds[(parent, k.1)]),
          t.next)
  }

  lemma PartialNone(t: Table, parent: Pid, child: Pid)
    ensures Partial(t, parent, child, {}) == t
  {
    assert forall p :: On(t, {}, p) == {};
  }

  lemma PartialAll(t: Table, parent: Pid, child: Pid)
    ensures var all := set k | k in t.fds && k.0 == parent;
      Partial(t, parent, child, all) == t.DoClone(parent, child)
  {
    var all := set k | k in t.fds && k.0 == parent;
    assert forall p :: On(t, all, p) == t.Holds(parent, p);
    assert Renamed(child, all) == t.Inherited(parent, child);
  }

  lemma PartialFds(t: Table, parent: Pid, child: Pid, done: set<Key>, k: Key)
    requires Of(t, parent, done) && k in t.fds && k.0 == parent
    ensures Partial(t, parent, child, done + {k}).fds == Partial(t, parent, child, done).fds[(child, k.1) := t.fds[k]]
  {
    assert Renamed(child, done + {k}) == Renamed(child, done) + {(child, k.1)};
  }

  lemma OnStep(t: Table, done: set<Key>, k: Key, p: PipeId)
    requires k in t.fds && k !in done
    ensures |On(t, done + {k}, p)| == |On(t, done, p)| + if t.fds[k].PipeFd? && t.fds[k].pipe == p then 1 else 0
  {
    if t.fds[k].PipeFd? && t.fds[k].pipe == p {
      assert On(t, done + {k}, p) == On(t, done, p) + {k};
    } else {
      assert On(t, done + {k}, p) == On(t, done, p);
    }
  }

  /** The ends of a pipe copied j times, and once more. */
  ghost function CopiedPipe(q: Pipe, child: Pid, j: nat): Pipe {
    Pipe(CopiedTimes(q.readEnd, child, j), CopiedTimes(q.writeEnd, child, j))
  }

  lemma CopiedPipeMore(q: Pipe, child: Pid, j: nat)
    ensures CopiedPipe(q, child, j + 1) == CopyOnce(CopiedPipe(q, child, j), child)
  {
    CopyMore(q.readEnd, child, j);
    CopyMore(q.writeEnd, child, j);
  }

  lemma PartialPipe(t: Table, parent: Pid, child: Pid, done: set<Key>, k: Key, p: PipeId)
    requires Of(t, parent, done) && k in t.fds && k.0 == parent && k !in done && p in t.pipes
    ensures Partial(t, parent, child, done + {k}).pipes[p] ==
      var q := Partial(t, parent, child, done).pipes[p];
      if t.fds[k].PipeFd? && t.fds[k].pipe == p then CopyOnce(q, child) else q
  {
    OnStep(t, done, k, p);
    CopiedPipeMore(t.pipes[p], child, |On(t, done, p)|);
  }

  lemma PartialNoPipe(t: Table, parent: Pid, child: Pid, done: set<Key>, k: Key)
    requires Of(t, parent, done) && k in t.fds && k.0 == parent && k !in done && t.fds[k].Other?
    ensures Partial(t, parent, child, done + {k}).pipes == Partial(t, parent, child, done).pipes
  {
    var a, b := Partial(t, parent, child, done).pipes, Partial(t, parent, child, done + {k}).pipes;
    forall p | p in a ensures b[p] == a[p] { PartialPipe(t, parent, child, done, k, p); }
    NoUpdate(a, b);
  }

  lemma PartialOnePipe(t: Table, parent: Pid, child: Pid, done: set<Key>, k: Key)
    requires Of(t, parent, done) && k in t.fds && k.0 == parent && k !in done
    requires t.fds[k].PipeFd? && t.fds[k].pipe in t.pipes
    ensures var m := Partial(t, parent, child, done).pipes;
      Partial(t, parent, child, done + {k}).pipes == m[t.fds[k].pipe := CopyOnce(m[t.fds[k].pipe], child)]
  {
    var a, b := Partial(t, parent, child, done).pipes, Partial(t, parent, child, done + {k}).pipes;
    var q := t.fds[k].pipe;
    PartialPipe(t, parent, child, done, k, q);
    forall p | p in a && p != q ensures b[p] == a[p] { PartialPipe(t, parent, child, done, k, p); }
    OneUpdate(a, b, q, CopyOnce(a[q], child));
  }

  lemma NoUpdate<K, V>(a: map<K, V>, b: map<K, V>)
    requires a.Keys == b.Keys && forall j :: j in a ==> b[j] == a[j]
    ensures b == a
  {
  }

  lemma OneUpdate<K, V>(a: map<K, V>, b: map<K, V>, k: K, v: V)
    requires a.Keys == b.Keys && k in a && b[k] == v && forall j :: j in a && j != k ==> b[j] == a[j]
    ensures b == a[k := v]
  {
  }

  lemma PartialStep(t: Table, parent: Pid, child: Pid, done: set<Key>, k: Key)
    requires Of(t, parent, done) && parent != child && k in t.fds && k.0 == parent && k !in done
    requires t.fds[k].PipeFd? ==> t.fds[k].pipe in t.pipes
    ensures var m := Partial(t, parent, child, done);
      && k in m.fds && m.fds[k] == t.fds[k] && (m.fds[k].PipeFd? ==> m.fds[k].pipe in m.pipes)
      && Inherit(m, child, k) == Partial(t, parent, child, done + {k})
  {
    PartialFds(t, parent, child, done, k);
    if t.fds[k].Other? { PartialNoPipe(t, parent, child, done, k); } else { PartialOnePipe(t, parent, child, done, k); }
  }
}
