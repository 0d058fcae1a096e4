/** The descriptors of all processes as the kernel keeps them, without end lists: what each call gives
    back is decided by the calls alone. The simulator's tables are proved to follow, over every run. */
module KernelDescriptors {
  import opened PipeEnds
  import opened Pipes

  type Fds = map<Key, Desc>

  /** pipe(2), dup(2), fcntl(2), clone(2) and close(2) on the descriptors alone; the pipes made so far
      are numbered from zero. */
  ghost function Kernel(fds: Fds, made: nat, step: Step): Fds {
    match step
    case OpenStep(pid, fd) => fds[(pid, fd) := Other]
    case PipeStep(pid, fd) => fds[(pid, fd) := PipeFd(made, false)][(pid, fd + 1) := PipeFd(made, true)]
    case DupStep(pid, oldfd, newfd) => Same(fds, pid, oldfd, newfd)
    case Dup2Step(pid, oldfd, newfd) => Same(fds, pid, oldfd, newfd)
    case FcntlDupStep(pid, oldfd, newfd) => Same(fds, pid, oldfd, newfd)
    case CloneStep(parent, child) =>
      map k | k in fds.Keys + (set j | j in fds && j.0 == parent :: (child, j.1)) ::
        if k.0 == child && (parent, k.1) in fds then fds[(parent, k.1)] else if k in fds then fds[k] else Other
    case CloseStep(pid, fd) => fds - {(pid, fd)}
  }

  /** The new number refers to what the old one refers to. */
  ghost function Same(fds: Fds, pid: Pid, oldfd: Fd, newfd: Fd): Fds {
    if (pid, oldfd) in fds then fds[(pid, newfd) := fds[(pid, oldfd)]] else fds
  }

  ghost function Made(step: Step): nat {
    if step.PipeStep? then 1 else 0
  }

  /** Every call leaves the descriptors the kernel has. */
  lemma StepDescribes(t: Table, step: Step)
    requires Tracked(t) && Enabled(t, step)
    ensures Do(t, step).fds == Kernel(t.fds, t.next, step) && Do(t, step).next == t.next + Made(step)
  {
    match step
    case OpenStep(_, _) =>
    case PipeStep(_, _) =>
    case DupStep(pid, oldfd, newfd) => assert Entered(t, (pid, oldfd));
    case Dup2Step(pid, oldfd, newfd) => if (pid, newfd) in t.fds { assert Entered(t, (pid, newfd)); }
    case FcntlDupStep(_, _, _) =>
    case CloneStep(parent, child) => CloneDescribes(t, parent, child);
    case CloseStep(pid, fd) => if (pid, fd) in t.fds { assert Entered(t, (pid, fd)); }
  }

  lemma CloneDescribes(t: Table, parent: Pid, child: Pid)
    requires Unused(t, child)
    ensures t.DoClone(parent, child).fds == Kernel(t.fds, t.next, CloneStep(parent, child))
  {
    assert t.Inherited(parent, child) == set j | j in t.fds && j.0 == parent :: (child, j.1);
  }

  ghost function Kernels(fds: Fds, made: nat, steps: seq<Step>): Fds
    decreases |steps|
  {
    if steps == [] then fds else Kernels(Kernel(fds, made, steps[0]), made + Made(steps[0]), steps[1..])
  }

  /** In every run the simulator has the kernel's descriptors, each on the same pipe and end. */
  lemma {:induction false} RunDescribes(t: Table, steps: seq<Step>)
    requires Tracked(t) && Legal(t, steps)
    ensures After(t, steps).fds == Kernels(t.fds, t.next, steps)
    decreases |steps|
  {
    if steps != [] {
      StepKeepsTracked(t, steps[0]);
      StepDescribes(t, steps[0]);
      RunDescribes(Do(t, steps[0]), steps[1..]);
    }
  }

  /** In every run, a pipe lives, with an entry for the descriptor in the right end list, as long as one of
      the kernel's descriptors refers to it. */
  lemma ReferencedLives(steps: seq<Step>, k: Key)
    requires Tracked(EMPTY_TABLE) && Legal(EMPTY_TABLE, steps)
    requires k in Kernels(map[], 0, steps) && Kernels(map[], 0, steps)[k].PipeFd?
    ensures var d, m := Kernels(map[], 0, steps)[k], After(EMPTY_TABLE, steps);
      d.pipe in m.pipes && End(k.1, k.0) in m.pipes[d.pipe].Ends(d.writing)
  {
    RunDescribes(EMPTY_TABLE, steps);
    assert Entered(After(EMPTY_TABLE, steps), k);
  }

  /** A duplicate keeps the pipe when the descriptor it was made from is closed. */
  lemma DuplicateKeeps(t: Table, pid: Pid, oldfd: Fd, newfd: Fd)
    requires Tracked(t) && Enabled(t, DupStep(pid, oldfd, newfd)) && t.fds[(pid, oldfd)].PipeFd?
    ensures Tracked(Do(t, DupStep(pid, oldfd, newfd)))
    ensures var m := Do(Do(t, DupStep(pid, oldfd, newfd)), CloseStep(pid, oldfd));
      && m.fds == t.fds[(pid, newfd) := t.fds[(pid, oldfd)]] - {(pid, oldfd)}
      && t.fds[(pid, oldfd)].pipe in m.pipes
  {
    var a := Do(t, DupStep(pid, oldfd, newfd));
    StepKeepsTracked(t, DupStep(pid, oldfd, newfd));
    StepDescribes(t, DupStep(pid, oldfd, newfd));
    StepKeepsTracked(a, CloseStep(pid, oldfd));
    StepDescribes(a, CloseStep(pid, oldfd));
    assert Entered(Do(a, CloseStep(pid, oldfd)), (pid, newfd));
  }
}
