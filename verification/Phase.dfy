/** The entry/exit phase of a traced process: the flag in_syscall against where the process really is
    (src/syscall_process.c:56-235, src/include/process_descriptor.h:118-161, src/sys_connect.c:29-76,
    src/sys_execve.c:18-42, src/sys_clone.c:26-50, src/sys_close.c:18-38, src/simterpose.c:235-252). */
module Phase {

  /** The system calls of a process, by what their handlers do to the phase, with the kernel's and
      the simulator's answers that matter. */
  datatype Call =
    | Plain             // left to the kernel: inside at entry, outside at exit
    | Neutral           // answered by the simulator at entry: neutralised, then outside
    | Task              // answered at entry, and handed to the simulation: the handler loop returns
    | AcceptReady       // a socket is created in its place first, then it is answered
    | ConnectBlocking   // answered at entry, but stays inside: the handler loop is entered again
    | ConnectForeign    // connect on a socket that is not an internet socket
    | Close(ok: bool)
    | Execve(ok: bool)
    | Clone             // clone, fork and vfork: the kernel reports an event between entry and exit
    | PipeCall          // the handlers of pipe and of brk both run
    | Signal            // not a call: a signal between two calls, which stops the process once
    | ExitCall

  /** Where the process is stopped. Entry(Signal) is the one stop of a signal. */
  datatype Stop = Entry(c: Call) | Event(c: Call) | Exit(c: Call) | Ended

  /** How the handler loop ends: the process made all its calls; it exited; ptrace was used after the
      process had been let go; the flag disagreed with the stop; a task was found, with calls left. */
  datatype Outcome = Finished | Dead | Faulted | Mismatch | Returned(rest: seq<Call>)

  /** What the handler loop does with a sequence of calls, when it has been entered again d times. */
  function Walk(calls: seq<Call>, d: nat): Outcome
    decreases |calls|
  {
    if calls == [] then Finished else
      match calls[0]
      case ExitCall => if d == 0 then Dead else Faulted
      case Task => if d == 0 then Returned(calls[1..]) else Walk(calls[1..], d - 1)
      case ConnectBlocking => Walk(calls[1..], d + 1)
      case Close(ok) => if ok then Walk(calls[1..], d) else if calls[1..] == [] then Finished else Mismatch
      case Signal => if calls[1..] == [] then Finished else Mismatch
      case ConnectForeign => Mismatch
      case Clone => Mismatch
      case PipeCall => Mismatch
      case _ => Walk(calls[1..], d)
  }

  lemma WalkCons(c: Call, rest: seq<Call>, d: nat)
    ensures Walk([c] + rest, d) ==
      match c
      case ExitCall => if d == 0 then Dead else Faulted
      case Task => if d == 0 then Returned(rest) else Walk(rest, d - 1)
      case ConnectBlocking => Walk(rest, d + 1)
      case Close(ok) => if ok then Walk(rest, d) else if rest == [] then Finished else Mismatch
      case Signal => if rest == [] then Finished else Mismatch
      case ConnectForeign => Mismatch
      case Clone => Mismatch
      case PipeCall => Mismatch
      case _ => Walk(rest, d)
  {
    assert ([c] + rest)[1..] == rest;
  }

  lemma {:induction false} WalkShrinks(calls: seq<Call>, d: nat)
    ensures Walk(calls, d).Returned? ==> |Walk(calls, d).rest| < |calls|
    decreases |calls|
  {
    if calls != [] {
      var e := match calls[0] case Task => if d == 0 then 0 else d - 1 case ConnectBlocking => d + 1 case _ => d;
      WalkShrinks(calls[1..], e);
    }
  }

  /** What the loop does when it continues after an inner loop. */
  function Continue(inner: Outcome, d: nat): Outcome {
    match inner
    case Returned(rest) => Walk(rest, d)
    case Dead => Faulted
    case o => o
  }

  /** One level of nesting is an inner loop. */
  lemma {:induction false} WalkNested(calls: seq<Call>, d: nat)
    ensures Walk(calls, d + 1) == Continue(Walk(calls, d), 0)
    decreases |calls|
  {
    if calls != [] {
      match calls[0]
      case Task => if d > 0 { WalkNested(calls[1..], d - 1); }
      case ConnectBlocking => WalkNested(calls[1..], d + 1);
      case _ => WalkNested(calls[1..], d);
    }
  }

  // ----- when the flag agrees with the stop

  /** The outcome of a whole run: after a task the process runner enters the loop anew. */
  function Total(calls: seq<Call>): Outcome
    decreases |calls|
  {
    WalkShrinks(calls, 0);
    match Walk(calls, 0)
    case Returned(rest) => Total(rest)
    case o => o
  }

  /** The handler of the call leaves the flag wrong for a stop that follows. */
  predicate Disturbs(calls: seq<Call>, i: nat)
    requires i < |calls|
  {
    match calls[i]
    case ConnectForeign => true
    case Clone => true
    case PipeCall => true
    case Close(ok) => !ok && i + 1 < |calls|
    case Signal => i + 1 < |calls|
    case _ => false
  }

  /** No call the process makes before it exits disturbs the flag. */
  ghost predicate Undisturbed(calls: seq<Call>) {
    forall i {:trigger Disturbs(calls, i)} :: 0 <= i < |calls| && ExitCall !in calls[..i] ==> !Disturbs(calls, i)
  }

  lemma UndisturbedTail(calls: seq<Call>)
    requires calls != [] && !Disturbs(calls, 0)
    ensures Undisturbed(calls) <==> calls[0] == ExitCall || Undisturbed(calls[1..])
  {
    var t := calls[1..];
    assert forall i :: 0 <= i < |t| ==> t[i] == calls[i + 1];
    if calls[0] == ExitCall {
      assert forall i :: 0 < i < |calls| ==> calls[..i][0] == ExitCall;
    } else {
      forall i | 0 <= i < |t|
        ensures (ExitCall in t[..i] <==> ExitCall in calls[..i + 1]) && Disturbs(t, i) == Disturbs(calls, i + 1)
      {
        assert calls[..i + 1] == [calls[0]] + t[..i];
      }
      if Undisturbed(calls) {
        forall i | 0 <= i < |t| && ExitCall !in t[..i] ensures !Disturbs(t, i) { assert !Disturbs(calls, i + 1); }
      }
      if Undisturbed(t) {
        forall i | 0 <= i < |calls| && ExitCall !in calls[..i] ensures !Disturbs(calls, i) {
          if i > 0 { assert !Disturbs(t, i - 1); }
        }
      }
    }
  }

  lemma {:induction false} WalkAgrees(calls: seq<Call>, d: nat)
    ensures match Walk(calls, d)
      case Mismatch => !Undisturbed(calls)
      case Returned(rest) => Undisturbed(calls) <==> Undisturbed(rest)
      case _ => Undisturbed(calls)
    decreases |calls|
  {
    if calls != [] {
      assert calls[..0] == [];
      if !Disturbs(calls, 0) {
        UndisturbedTail(calls);
        if calls[0] != ExitCall {
          var inner := match calls[0] case Task => if d == 0 then 0 else d - 1 case ConnectBlocking => d + 1 case _ => d;
          WalkAgrees(calls[1..], inner);
        }
      }
    }
  }

  /** The outcome of a whole run is a disagreement of the flag with the stop if and only if a call
      disturbs it. */
  lemma {:induction false} AgreementExact(calls: seq<Call>)
    ensures Total(calls) != Mismatch <==> Undisturbed(calls)
    decreases |calls|
  {
    WalkShrinks(calls, 0);
    WalkAgrees(calls, 0);
    match Walk(calls, 0)
    case Returned(rest) => AgreementExact(rest);
    case _ =>
  }

  // ----- when ptrace is used after the process was let go

  /** How many handler loops are open when the process exits, starting with d: a blocking connect
      opens one, a task closes one. */
  function OpenLoops(calls: seq<Call>, d: nat): nat
    decreases |calls|
  {
    if calls == [] then 0
    else match calls[0]
      case ExitCall => d
      case Task => OpenLoops(calls[1..], if d == 0 then 0 else d - 1)
      case ConnectBlocking => OpenLoops(calls[1..], d + 1)
      case _ => OpenLoops(calls[1..], d)
  }

  lemma {:induction false} WalkFaults(calls: seq<Call>, d: nat)
    ensures match Walk(calls, d)
      case Faulted => OpenLoops(calls, d) > 0
      case Returned(rest) => OpenLoops(calls, d) == OpenLoops(rest, 0)
      case Mismatch => true
      case _ => OpenLoops(calls, d) == 0
    decreases |calls|
  {
    if calls != [] {
      match calls[0]
      case Close(ok) =>
        if ok { WalkFaults(calls[1..], d); } else if calls[1..] == [] { assert OpenLoops(calls[1..], d) == 0; }
      case Task => if d > 0 { WalkFaults(calls[1..], d - 1); }
      case ConnectBlocking => WalkFaults(calls[1..], d + 1);
      case _ => WalkFaults(calls[1..], d);
    }
  }

  /** The outcome of a whole run is a use of ptrace on a process that was let go if and only if no call
      disturbs the flag and a blocking connect is still waiting for a task when the process exits. */
  lemma {:induction false} FaultExact(calls: seq<Call>)
    ensures Total(calls) == Faulted <==> Undisturbed(calls) && OpenLoops(calls, 0) > 0
    decreases |calls|
  {
    WalkShrinks(calls, 0);
    WalkAgrees(calls, 0);
    WalkFaults(calls, 0);
    match Walk(calls, 0)
    case Returned(rest) => FaultExact(rest);
    case _ =>
  }

  /** A client that connects, receives and exits without ever sending. */
  lemma SilentClientFaults()
    ensures Total([ConnectBlocking, Neutral, ExitCall]) == Faulted
  {
    var calls := [ConnectBlocking, Neutral, ExitCall];
    assert calls[1..] == [Neutral, ExitCall] && calls[1..][1..] == [ExitCall];
    assert Walk([ExitCall], 1) == Faulted;
    assert Walk([Neutral, ExitCall], 1) == Faulted;
  }

  // ----- the handler loop

  datatype Return = TaskFound | ProcessDead | Done

  class Tracer {
    var inSyscall: bool
    var stop: Stop
    var todo: seq<Call>
    var detached: bool
    var faulted: bool
    var disagreed: bool

    /** How many stops the process has left. */
    function Left(): nat
      reads this
    {
      4 * |todo| + match stop case Entry(_) => 3 case Event(_) => 2 case Exit(_) => 1 case Ended => 0
    }

    ghost predicate Fine()
      reads this
    {
      !detached && !faulted && !disagreed
    }

    /** The calls the handler loop has before it when it starts at this stop. */
    ghost function Ahead(): seq<Call>
      reads this
    {
      if stop.Entry? then [stop.c] + todo else todo
    }

    /** The loop starts at an entry stop with the flag down, or at the exit stop of a blocking
        connect with the flag up. */
    ghost predicate Start()
      reads this
    {
      Fine() && if stop.Entry? then !inSyscall else stop == Exit(ConnectBlocking) && inSyscall
    }

    /** Between two iterations: what is left of the given outcome. */
    ghost predicate Between(o: Outcome)
      reads this
    {
      match stop
      case Entry(c) => Fine() && o == if inSyscall then Mismatch else Walk([c] + todo, 0)
      case Event(c) =>
        && Fine() && inSyscall && (c == Clone || c == Execve(true))
        && o == if c == Clone then Mismatch else Walk(todo, 0)
      case Exit(c) =>
        && Fine() && c != ExitCall && c != Signal
        && if !inSyscall then o == Mismatch
           else if c == Close(false) then o == (if todo == [] then Finished else Mismatch)
           else o == Walk(todo, 0)
      case Ended => !disagreed && if faulted then o == Faulted else o == Finished && !detached
    }

    /** Between a handler and the resumption: what is left of the given outcome. */
    ghost predicate Handled(o: Outcome)
      reads this
    {
      !disagreed &&
      match stop
      case Entry(c) =>
        if detached then !faulted && o == Faulted
        else
          && Fine() && c != ExitCall
          && if c == Clone then inSyscall && o == Mismatch
             else if c == Execve(true) then inSyscall && o == Walk(todo, 0)
             else if c == Signal then inSyscall && o == (if todo == [] then Finished else Mismatch)
             else if !inSyscall then o == Mismatch
             else if c == Close(false) then o == (if todo == [] then Finished else Mismatch)
             else o == Walk(todo, 0)
      case Event(c) =>
        && Fine()
        && if c == Clone then !inSyscall && o == Mismatch else inSyscall && o == Walk(todo, 0) && c == Execve(true)
      case Exit(_) => Fine() && o == if inSyscall && todo != [] then Mismatch else Walk(todo, 0)
      case Ended => if faulted then o == Faulted else o == Finished && !detached
    }

    /** The outcome has come about. */
    ghost predicate Reached(o: Outcome, ret: Return)
      reads this
    {
      match o
      case Finished => stop == Ended && Fine()
      case Dead => detached && !faulted && !disagreed && stop == Entry(ExitCall) && ret == ProcessDead
      case Faulted => faulted && !disagreed && stop == Ended
      case Mismatch => disagreed
      case Returned(rest) => Fine() && !inSyscall && stop.Exit? && todo == rest && ret == TaskFound
    }

    /** ptrace_resume_process and waitpid: run to the next stop. */
    method Resume()
      requires stop != Ended || detached
      modifies this
      ensures inSyscall == old(inSyscall) && disagreed == old(disagreed) && detached == old(detached)
      ensures old(detached) ==> faulted && stop == Ended && todo == old(todo)
      ensures !old(detached) ==> faulted == old(faulted)
      ensures !old(detached) ==>
        if old(stop).Exit? || old(stop) == Entry(Signal) then
          if old(todo) == [] then stop == Ended && todo == []
          else stop == Entry(old(todo)[0]) && todo == old(todo)[1..]
        else if old(stop).Event? then todo == old(todo) && stop == Exit(old(stop).c)
        else
          && todo == old(todo) && old(stop).Entry?
          && stop == if old(stop).c == Clone || old(stop).c == Execve(true) then Event(old(stop).c) else Exit(old(stop).c)
    {
      if detached {
        faulted := true;
        stop := Ended;
        return;
      }
      if stop.Exit? || stop == Entry(Signal) {
        if todo == [] {
          stop := Ended;
        } else {
          stop, todo := Entry(todo[0]), todo[1..];
        }
      } else if stop.Event? || (stop.c != Clone && stop.c != Execve(true)) {
        stop := Exit(stop.c);
      } else {
        stop := Event(stop.c);
      }
    }

    /** Neutralised and resumed, the call ends at its exit stop without an event. */
    method Neutralize()
      requires stop.Entry?
      modifies this`stop
      ensures stop == Exit(old(stop).c)
    {
      stop := Exit(stop.c);
    }

    /** Resuming after a handler; a loop that has seen the end of the process is left. */
    method ResumeHandled(ghost o: Outcome)
      requires Handled(o)
      modifies this
      ensures Between(o) && Left() <= old(Left()) && (old(stop) != Ended ==> Left() < old(Left()))
    {
      if stop != Ended || detached {
        Resume();
        assert old(todo) != [] ==> [old(todo)[0]] + old(todo)[1..] == old(todo);
      }
    }

    /** The handler of the call at its entry stop. */
    method HandleEntry(ghost o: Outcome) returns (ret: Return)
      requires stop.Entry? && !inSyscall && Fine() && o == Walk([stop.c] + todo, 0)
      modifies this
      ensures ret != Done || disagreed ==> Reached(o, ret)
      ensures ret == Done && !disagreed ==> Handled(o) && (stop == Ended ==> Left() < old(Left()))
      ensures Left() <= old(Left())
      decreases Left(), 0
    {
      ret := Done;
      inSyscall := true;
      WalkCons(stop.c, todo, 0);
      match stop.c
      case Plain => case Close(_) => case Execve(_) => case Clone => case Signal =>
      case Neutral =>
        Neutralize();
        inSyscall := false;
      case AcceptReady =>
        Neutralize();
        inSyscall := false;
      case Task =>
        Neutralize();
        inSyscall := false;
        ret := TaskFound;
      case ConnectBlocking =>
        Neutralize();
        WalkNested(todo, 0);
        var inner := ProcessHandle();
      case ConnectForeign =>
        inSyscall := false;
      case PipeCall =>
        inSyscall := false;
      case ExitCall =>
        detached := true;
        ret := ProcessDead;
    }

    /** The handler of the call at its exit stop, or at an event before it. */
    method HandleLater(ghost o: Outcome)
      requires (stop.Event? || stop.Exit?) && inSyscall && Between(o)
      modifies this`inSyscall
      ensures Handled(o)
    {
      match stop
      case Event(c) =>
        if c == Clone {
          inSyscall := false;
        }
      case Exit(c) =>
        if c != Close(false) {
          inSyscall := false;
        }
    }

    /** process_handle: call the handler of the stop the process is at, resume it, and so on. The
        model ends the loop when the flag disagrees with the stop. */
    method ProcessHandle() returns (ret: Return)
      requires Start()
      modifies this
      ensures Reached(old(Walk(Ahead(), 0)), ret)
      ensures Left() <= old(Left())
      decreases Left(), 1
    {
      ghost var o := Walk(Ahead(), 0);
      ret := Done;
      while stop != Ended
        invariant Between(o) && Left() <= old(Left()) && ret == Done
        decreases Left()
      {
        if inSyscall == stop.Entry? {
          disagreed := true;
          return;
        }
        if stop.Entry? {
          ret := HandleEntry(o);
          if ret != Done || disagreed {
            return;
          }
        } else {
          HandleLater(o);
        }
        ResumeHandled(o);
      }
    }

    /** The loop of the process runner: a process that has been started and stopped outside any call is
        resumed and handled, again after every task, until it is dead. At some handler call the flag is
        down inside a call, or up outside one, if and only if a call disturbs it; otherwise ptrace is
        used on a process that was let go if and only if a blocking connect is open at the exit. */
    method Run() returns (ret: Return)
      requires Fine() && !inSyscall && stop.Exit?
      modifies this
      ensures Reached(old(Total(todo)), ret)
      ensures disagreed <==> !Undisturbed(old(todo))
      ensures !disagreed ==> (faulted <==> OpenLoops(old(todo), 0) > 0)
    {
      ghost var o := Total(todo);
      AgreementExact(todo);
      FaultExact(todo);
      ret := TaskFound;
      while ret == TaskFound
        invariant ret == TaskFound ==> Fine() && !inSyscall && stop.Exit? && o == Total(todo)
        invariant ret != TaskFound ==> Reached(o, ret)
        decreases ret == TaskFound, |todo|
      {
        ghost var calls := todo;
        Resume();
        if stop == Ended {
          return Done;
        }
        assert Ahead() == calls;
        WalkShrinks(calls, 0);
        ret := ProcessHandle();
        if disagreed || faulted || stop == Ended {
          return Done;
        }
      }
    }
  }
}
