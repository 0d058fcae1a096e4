/** The lists of pipe ends and the loops that change them while walking them
    (src/syscall_process.c:287-305, src/sys_dup.c:43-67, src/sys_clone.c:83-112). */
module PipeEnds {

  type Pid = nat
  type Fd = int

  /** pipe_end_s: a descriptor of a process. */
  datatype End = End(fd: Fd, pid: Pid)

  const UINT_MAX1 := 0x1_0000_0000

  // ----- removing

  /** The entries other than e, in order. */
  function Without(list: seq<End>, e: End): (r: seq<End>)
    ensures forall x :: x in r <==> x in list && x != e
    ensures |r| <= |list|
  {
    if list == [] then [] else (if list[0] == e then [] else [list[0]]) + Without(list[1..], e)
  }

  lemma {:induction false} WithoutNone(list: seq<End>, e: End)
    requires e !in list
    ensures Without(list, e) == list
  {
    if list != [] {
      assert list[0] in list && e !in list[1..];
      WithoutNone(list[1..], e);
    }
  }

  lemma WithoutEmpty(list: seq<End>, e: End)
    ensures Without(list, e) == [] <==> forall x :: x in list ==> x == e
  {
    var r := Without(list, e);
    if r != [] { assert r[0] in r; }
  }

  /** Unsigned 32-bit increment and decrement. */
  function Increment(cursor: nat): nat { (cursor + 1) % UINT_MAX1 }
  function Decrement(cursor: nat): nat { (cursor - 1) % UINT_MAX1 }

  lemma StepBack(cursor: nat)
    requires cursor < UINT_MAX1
    ensures Increment(Decrement(cursor)) == cursor
  {
  }

  lemma StepForward(cursor: nat)
    requires cursor + 1 < UINT_MAX1
    ensures Increment(cursor) == cursor + 1
  {
  }

  /** What the loop finds under its cursor, and what it has to keep. */
  lemma RemoveStep(kept: seq<End>, rest: seq<End>, e: End)
    requires rest != []
    ensures var r, k := kept + rest, |kept|;
      r[k] == rest[0] && r[..k] == kept && r[k + 1..] == rest[1..] && r == kept + [rest[0]] + rest[1..]
    ensures kept + Without(rest, e) ==
      (if rest[0] == e then kept else kept + [rest[0]]) + Without(rest[1..], e)
  {
  }

  /** The loop of process_close_call: removing the entry under the cursor steps the unsigned cursor
      back, so that it wraps around when the first entry goes, and the increment of the loop wraps it
      forward again. */
  method RemoveEnds(list: seq<End>, e: End) returns (r: seq<End>)
    requires |list| < UINT_MAX1
    ensures r == Without(list, e)
  {
    r := list;
    var cursor := 0;
    ghost var kept, rest := [], list;
    while cursor < |r|
      invariant r == kept + rest && cursor == |kept| && |r| <= |list|
      invariant Without(list, e) == kept + Without(rest, e)
      decreases |rest|
    {
      StepBack(cursor);
      StepForward(cursor);
      RemoveStep(kept, rest, e);
      if r[cursor] == e {
        r := r[..cursor] + r[cursor + 1..];
        cursor := Decrement(cursor);
      } else {
        kept := kept + [rest[0]];
      }
      cursor := Increment(cursor);
      rest := rest[1..];
    }
  }

  // ----- copying

  /** Entries of e, each renamed to descriptor fd. */
  function Duplicates(list: seq<End>, e: End, fd: Fd): (r: seq<End>)
    ensures forall x :: x in r <==> x == End(fd, e.pid) && e in list
  {
    if list == [] then [] else (if list[0] == e then [End(fd, e.pid)] else []) + Duplicates(list[1..], e, fd)
  }

  lemma {:induction false} DuplicatesAppend(a: seq<End>, b: seq<End>, e: End, fd: Fd)
    ensures Duplicates(a + b, e, fd) == Duplicates(a, e, fd) + Duplicates(b, e, fd)
  {
    if a == [] {
      assert a + b == b;
    } else {
      assert (a + b)[1..] == a[1..] + b;
      DuplicatesAppend(a[1..], b, e, fd);
    }
  }

  lemma {:induction false} DuplicatesNone(a: seq<End>, e: End, fd: Fd)
    requires e !in a
    ensures Duplicates(a, e, fd) == []
  {
    if a != [] {
      assert a[0] in a && e !in a[1..];
      DuplicatesNone(a[1..], e, fd);
    }
  }

  /** The loop of dup and dup2: push a renamed copy of every matching entry onto the list being
      walked. It ends because a copy does not match, or because there is nothing to copy. */
  method DuplicateEnds(list: seq<End>, e: End, fd: Fd) returns (r: seq<End>)
    requires fd != e.fd || e !in list
    ensures r == list + Duplicates(list, e, fd)
  {
    r := list;
    var cursor := 0;
    if e !in list { DuplicatesNone(list, e, fd); }
    while cursor < |r|
      invariant 0 <= cursor <= |r|
      invariant cursor <= |list| ==> r == list + Duplicates(list[..cursor], e, fd)
      invariant cursor > |list| ==> r == list + Duplicates(list, e, fd)
      decreases |list| + |Duplicates(list, e, fd)| - cursor
    {
      if cursor < |list| {
        assert list[..cursor + 1] == list[..cursor] + [list[cursor]];
        DuplicatesAppend(list[..cursor], [list[cursor]], e, fd);
        DuplicatesAppend(list[..cursor + 1], list[cursor + 1..], e, fd);
        assert list == list[..cursor + 1] + list[cursor + 1..];
      } else {
        assert list[..|list|] == list;
        assert r[cursor] in Duplicates(list, e, fd);
      }
      if r[cursor] == e {
        r := r + [End(fd, e.pid)];
      }
      cursor := cursor + 1;
    }
    assert list[..|list|] == list;
  }

  /** The entries of other processes, each renamed to the clone. */
  function Copies(list: seq<End>, clone: Pid): seq<End> {
    if list == [] then [] else
      (if list[0].pid != clone then [End(list[0].fd, clone)] else []) + Copies(list[1..], clone)
  }

  /** Every entry of another process has a copy. */
  lemma {:induction false} CopyMade(list: seq<End>, clone: Pid, x: End)
    requires x in list && x.pid != clone
    ensures End(x.fd, clone) in Copies(list, clone)
  {
    if x != list[0] { CopyMade(list[1..], clone, x); }
  }

  /** A copy belongs to the clone. */
  lemma {:induction false} CopyPid(list: seq<End>, clone: Pid, i: nat)
    requires i < |Copies(list, clone)|
    ensures Copies(list, clone)[i].pid == clone
  {
    if list[0].pid != clone {
      if i > 0 { CopyPid(list[1..], clone, i - 1); }
    } else {
      CopyPid(list[1..], clone, i);
    }
  }

  /** A copy comes from an entry of another process. */
  lemma {:induction false} CopyOrigin(list: seq<End>, clone: Pid, x: End) returns (y: End)
    requires x in Copies(list, clone)
    ensures y in list && y.pid != clone && x == End(y.fd, clone)
  {
    if list[0].pid != clone && x == End(list[0].fd, clone) {
      y := list[0];
    } else {
      y := CopyOrigin(list[1..], clone, x);
    }
  }

  lemma {:induction false} CopiesAppend(a: seq<End>, b: seq<End>, clone: Pid)
    ensures Copies(a + b, clone) == Copies(a, clone) + Copies(b, clone)
  {
    if a == [] {
      assert a + b == b;
    } else {
      assert (a + b)[1..] == a[1..] + b;
      CopiesAppend(a[1..], b, clone);
    }
  }

  lemma {:induction false} CopiesNone(a: seq<End>, clone: Pid)
    requires forall i :: 0 <= i < |a| ==> a[i].pid == clone
    ensures Copies(a, clone) == []
  {
    if a != [] { CopiesNone(a[1..], clone); }
  }

  lemma CopiesStep(list: seq<End>, i: nat, clone: Pid)
    requires i < |list|
    ensures Copies(list[..i + 1], clone) ==
      Copies(list[..i], clone) + if list[i].pid != clone then [End(list[i].fd, clone)] else []
    ensures |Copies(list[..i + 1], clone)| <= |Copies(list, clone)|
  {
    assert list[..i + 1] == list[..i] + [list[i]];
    CopiesAppend(list[..i], [list[i]], clone);
    assert list == list[..i + 1] + list[i + 1..];
    CopiesAppend(list[..i + 1], list[i + 1..], clone);
  }

  /** The loop of clone: push a copy of every entry of another process onto the list being walked. */
  method CopyEnds(list: seq<End>, clone: Pid) returns (r: seq<End>)
    ensures r == list + Copies(list, clone)
  {
    r := list;
    var cursor := 0;
    while cursor < |r|
      invariant 0 <= cursor <= |r|
      invariant r == list + Copies(list[..if cursor <= |list| then cursor else |list|], clone)
      decreases |list| + |Copies(list, clone)| - cursor
    {
      assert list[..|list|] == list;
      if cursor < |list| {
        CopiesStep(list, cursor, clone);
      } else {
        CopyPid(list, clone, cursor - |list|);
      }
      if r[cursor].pid != clone {
        r := r + [End(r[cursor].fd, clone)];
      }
      cursor := cursor + 1;
    }
    assert list[..|list|] == list;
  }

  /** The list after the loop of clone has run k times: once for every inherited descriptor. */
  function CopiedTimes(list: seq<End>, clone: Pid, k: nat): seq<End> {
    if k == 0 then list else CopiedTimes(list, clone, k - 1) + Copies(list, clone)
  }

  lemma {:induction false} CopyAgain(list: seq<End>, clone: Pid, k: nat)
    ensures Copies(CopiedTimes(list, clone, k), clone) == Copies(list, clone)
  {
    if k > 0 {
      CopyAgain(list, clone, k - 1);
      CopiesAppend(CopiedTimes(list, clone, k - 1), Copies(list, clone), clone);
      forall i | 0 <= i < |Copies(list, clone)| ensures Copies(list, clone)[i].pid == clone { CopyPid(list, clone, i); }
      CopiesNone(Copies(list, clone), clone);
    }
  }

  /** Running the loop of clone once more appends the same copies again. */
  lemma CopyMore(list: seq<End>, clone: Pid, k: nat)
    ensures var c := CopiedTimes(list, clone, k); CopiedTimes(list, clone, k + 1) == c + Copies(c, clone)
  {
    CopyAgain(list, clone, k);
  }

  /** Copying any positive number of times adds exactly the copies. */
  lemma {:induction false} CopiedMembers(list: seq<End>, clone: Pid, k: nat, x: End)
    ensures x in CopiedTimes(list, clone, k) <==> x in list || (k > 0 && x in Copies(list, clone))
  {
    if k > 0 { CopiedMembers(list, clone, k - 1, x); }
  }
}
