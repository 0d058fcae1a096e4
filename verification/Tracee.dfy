/** A traced process as ptrace shows it, and the helpers that read, write and steer it
    (src/ptrace_utils.c:77-187, 227-337). The kernel's answers are parameters. */
module Tracee {
  import opened Common

  type Byte = b: int | 0 <= b < 256 witness 0

  const WORD := 8

  /** How many words hold a number of bytes. */
  function Words(length: nat): nat { (length + 7) / 8 }

  /** The bytes that word-wise copying of a length touches. */
  function Padded(length: nat): nat { 8 * Words(length) }

  lemma PaddedCovers(length: nat)
    ensures length <= Padded(length) < length + 8
  {
  }

  /** A length that some words do not hold takes one more, and no more words than hold it. */
  lemma WordsCount(length: nat, words: nat)
    ensures 8 * words < length <==> words < Words(length)
  {
  }

  /** length & 0x8. */
  function Bit3(length: nat): nat { if length / 8 % 2 == 1 then 8 else 0 }

  /** Masking out the bit 0x8 and copying one more word for it copies as many words as the length
      has: the mask is harmless, though it is not the mask of the bits below a word. */
  lemma MaskSplit(length: nat)
    ensures Bit3(length) <= length && Words(length - Bit3(length)) + Bit3(length) / 8 == Words(length)
    ensures Padded(length - Bit3(length)) + Bit3(length) == Padded(length)
  {
    if length / 8 % 2 == 1 {
      assert (length - 8 + 7) / 8 + 1 == (length + 7) / 8;
    }
  }

  /** d with the bytes x written over it from a position on. */
  function Overlay(d: seq<Byte>, at: nat, x: seq<Byte>): (r: seq<Byte>)
    requires at + |x| <= |d|
    ensures |r| == |d| && r[at..at + |x|] == x && r[..at] == d[..at] && r[at + |x|..] == d[at + |x|..]
  {
    d[..at] + x + d[at + |x|..]
  }

  /** Writing the next word of s extends what has been written of it. */
  lemma OverlayNext(d: seq<Byte>, at: nat, s: seq<Byte>, from: nat, n: nat)
    requires at + n + 8 <= |d| && from + n + 8 <= |s|
    ensures Overlay(Overlay(d, at, s[from..from + n]), at + n, s[from + n..from + n + 8])
      == Overlay(d, at, s[from..from + n + 8])
  {
    var x, y, z := s[from..from + n], s[from + n..from + n + 8], s[from..from + n + 8];
    assert x + y == z;
    assert d[..at] + x + d[at + n..] == (d[..at] + x) + d[at + n..];
  }

  lemma OverlayNothing(d: seq<Byte>, at: nat)
    requires at <= |d|
    ensures Overlay(d, at, []) == d
  {
  }

  /** What was written over m is what reading it over d brings there. */
  lemma ReadBack(m: seq<Byte>, at: nat, s: seq<Byte>, d: seq<Byte>, n: nat, length: nat)
    requires length <= n <= |s| && n <= |d| && at + n <= |m|
    ensures var back := Overlay(d, 0, Overlay(m, at, s[..n])[at..at + n]);
      back[..length] == s[..length] && back[n..] == d[n..]
  {
    var back := Overlay(d, 0, Overlay(m, at, s[..n])[at..at + n]);
    assert back[..n] == s[..n];
    assert back[..n][..length] == back[..length] && s[..n][..length] == s[..length];
  }

  /** The transfer of one word. */
  method CopyWord(dst: array<Byte>, at: nat, src: array<Byte>, from: nat)
    requires at + 8 <= dst.Length && from + 8 <= src.Length && dst != src
    modifies dst
    ensures dst[..] == Overlay(old(dst[..]), at, src[..][from..from + 8])
  {
    forall i | 0 <= i < 8 {
      dst[at + i] := src[from + i];
    }
  }

  /** The transfer of the word after n bytes have been transferred. */
  method CopyNext(dst: array<Byte>, at: nat, src: array<Byte>, from: nat, n: nat, ghost d: seq<Byte>)
    requires at + n + 8 <= dst.Length == |d| && from + n + 8 <= src.Length && dst != src
    requires dst[..] == Overlay(d, at, src[..][from..from + n])
    modifies dst
    ensures dst[..] == Overlay(d, at, src[..][from..from + n + 8])
  {
    OverlayNext(d, at, src[..], from, n);
    CopyWord(dst, at + n, src, from + n);
  }

  datatype Regs = Regs(origRax: int, rax: int, rdi: int, rsi: int, rdx: int, r10: int, r8: int, r9: int, rip: int)

  const SYS_SOCKET := 41
  const SYS_TUXCALL := 184
  const AF_INET := 2
  const SOCK_STREAM := 1

  /** A system call the kernel has run: the registers and the memory it found. */
  datatype Call = Call(regs: Regs, mem: seq<Byte>)

  /** Where the process is stopped: entering a system call, or leaving it. */
  datatype Phase = Entry | Exit

  class Process {
    var regs: Regs
    var phase: Phase
    const mem: array<Byte>

    /** The calls the kernel has run for the process, in order. */
    ghost var ran: seq<Call>

    /** The address of the system call instruction, which is two bytes long, that the process is at. */
    ghost const site: int

    constructor (regs: Regs, mem: array<Byte>)
      requires regs.rax == -ENOSYS
      ensures this.regs == regs && this.mem == mem && ran == [] && Entering()
    {
      this.regs := regs;
      ran := [];
      this.mem := mem;
      phase := Entry;
      site := regs.rip - 2;
    }

    /** The process is stopped at the entry of its call, with the registers the kernel shows there. */
    ghost predicate Entering()
      reads this
    {
      phase == Entry && regs.rax == -ENOSYS && regs.rip == site + 2
    }

    // ----- memory

    /** The loop of ptrace_cpy: copy the words that hold len bytes. */
    method CopyWords(dst: array<Byte>, src: nat, len: nat) returns (sizeCopy: nat, peeks: nat)
      requires src + Padded(len) <= mem.Length && Padded(len) <= dst.Length && dst != mem
      modifies dst
      ensures peeks == Words(len) && sizeCopy == Padded(len)
      ensures dst[..] == Overlay(old(dst[..]), 0, mem[..][src..src + Padded(len)])
    {
      sizeCopy, peeks := 0, 0;
      OverlayNothing(dst[..], 0);
      assert mem[..][src..src] == [];
      while sizeCopy < len
        invariant sizeCopy == 8 * peeks && peeks <= Words(len)
        invariant dst[..] == Overlay(old(dst[..]), 0, mem[..][src..src + sizeCopy])
      {
        WordsCount(len, peeks);
        CopyNext(dst, 0, mem, src, sizeCopy, old(dst[..]));
        peeks := peeks + 1;
        sizeCopy := sizeCopy + 8;
      }
      WordsCount(len, peeks);
    }

    /** ptrace_cpy: copy from the process, word by word. */
    method Copy(dst: array<Byte>, src: nat, length: nat) returns (peeks: nat)
      requires src + Padded(length) <= mem.Length && Padded(length) <= dst.Length && dst != mem
      modifies dst
      ensures peeks == Words(length)
      ensures dst[..] == Overlay(old(dst[..]), 0, mem[..][src..src + Padded(length)])
    {
      MaskSplit(length);
      var rest := Bit3(length);
      var sizeCopy;
      sizeCopy, peeks := CopyWords(dst, src, length - rest);
      if rest != 0 {
        CopyNext(dst, 0, mem, src, sizeCopy, old(dst[..]));
        peeks := peeks + 1;
      }
    }

    /** ptrace_poke: copy into the process, word by word. */
    method Poke(dst: nat, src: array<Byte>, length: nat)
      requires dst + Padded(length) <= mem.Length && Padded(length) <= src.Length && src != mem
      modifies mem
      ensures mem[..] == Overlay(old(mem[..]), dst, src[..][..Padded(length)])
    {
      var sizeCopy := 0;
      ghost var words := 0;
      OverlayNothing(mem[..], dst);
      while sizeCopy < length
        invariant sizeCopy == 8 * words && words <= Words(length)
        invariant mem[..] == Overlay(old(mem[..]), dst, src[..][0..sizeCopy])
      {
        WordsCount(length, words);
        CopyNext(mem, dst, src, 0, sizeCopy, old(mem[..]));
        sizeCopy := sizeCopy + 8;
        words := words + 1;
      }
      WordsCount(length, words);
      assert src[..][0..sizeCopy] == src[..][..sizeCopy];
    }

    /** What is poked is what a copy from there brings back. */
    method PokeThenCopy(at: nat, src: array<Byte>, back: array<Byte>, length: nat)
      requires at + Padded(length) <= mem.Length && src != mem && back != mem && src != back
      requires Padded(length) <= src.Length && Padded(length) <= back.Length
      modifies mem, back
      ensures back[..][..length] == src[..][..length] && back[..][Padded(length)..] == old(back[..])[Padded(length)..]
    {
      PaddedCovers(length);
      ReadBack(mem[..], at, src[..], back[..], Padded(length), length);
      Poke(at, src, length);
      var _ := Copy(back, at, length);
    }

    // ----- steering

    /** Resuming a process stopped at entry runs the call in its registers up to the exit stop; answer
        is what the kernel returns. */
    method Finish(answer: int)
      requires phase == Entry
      modifies this
      ensures phase == Exit && regs == old(regs).(rax := answer)
      ensures ran == old(ran) + [Call(old(regs), mem[..])]
    {
      ran := ran + [Call(regs, mem[..])];
      regs := regs.(rax := answer);
      phase := Exit;
    }

    /** Resuming a process stopped at exit, with the instruction pointer on its system call
        instruction, runs that instruction up to the entry stop: the number is taken from rax. */
    method Reenter()
      requires phase == Exit && regs.rip == site
      modifies this`regs, this`phase
      ensures phase == Entry && regs == old(regs).(origRax := old(regs).rax, rax := -ENOSYS, rip := old(regs).rip + 2)
    {
      regs := regs.(origRax := regs.rax, rax := -ENOSYS, rip := regs.rip + 2);
      phase := Entry;
    }

    /** ptrace_rewind_syscalls: put the number back and step back over the instruction. */
    method Rewind()
      modifies this`regs
      ensures regs == old(regs).(rax := old(regs).origRax, rip := old(regs).rip - 2)
    {
      regs := regs.(rax := regs.origRax, rip := regs.rip - 2);
    }

    /** ptrace_neutralize_syscall: make the call a tuxcall, which does nothing, and run to its exit. */
    method Neutralize()
      requires phase == Entry
      modifies this
      ensures phase == Exit && regs == old(regs).(origRax := SYS_TUXCALL, rax := -ENOSYS)
      ensures ran == old(ran) + [Call(old(regs).(origRax := SYS_TUXCALL), mem[..])]
    {
      regs := regs.(origRax := SYS_TUXCALL);
      Finish(-ENOSYS);
    }

    /** ptrace_restore_syscall: put back the number and fake the result. */
    method Restore(number: int, result: int)
      modifies this`regs
      ensures regs == old(regs).(origRax := number, rax := result)
    {
      regs := regs.(origRax := number, rax := result);
    }

    /** A neutralised and restored call looks to the process as if the kernel had answered: only the
        result differs from the registers at entry, and the memory is untouched. What the kernel has run
        in its place is one tuxcall, whatever the call was. */
    method Answer(result: int)
      requires phase == Entry
      modifies this
      ensures phase == Exit && regs == old(regs).(rax := result)
      ensures ran == old(ran) + [Call(old(regs).(origRax := SYS_TUXCALL), mem[..])]
    {
      var number := regs.origRax;
      Neutralize();
      Restore(number, result);
    }

    /** ptrace_record_socket: make the process create a socket in place of the call it was entering,
        then let it enter that call again. Nothing of this shows in its registers, and the kernel has run
        one call, the creation of an internet stream socket. */
    method RecordSocket(fd: int) returns (res: int)
      requires Entering()
      modifies this
      ensures res == fd && Entering() && regs == old(regs)
      ensures ran == old(ran) +
        [Call(old(regs).(origRax := SYS_SOCKET, rdi := AF_INET, rsi := SOCK_STREAM, rdx := 0), mem[..])]
    {
      var save := regs;
      regs := regs.(origRax := SYS_SOCKET, rdi := AF_INET, rsi := SOCK_STREAM, rdx := 0);
      Finish(fd);
      res := regs.rax;
      regs := save;
      Rewind();
      Reenter();
    }

    // ----- searching for a port to bind to

    /** The port and address a bind call names: a 16-byte internet address in memory, port and
        address in network byte order. */
    function Named(): (int, seq<Byte>)
      requires 0 <= regs.rsi && regs.rsi + ADDRESS <= mem.Length
      reads this, mem
    {
      (BigEndian(mem[regs.rsi + 2], mem[regs.rsi + 3]), mem[regs.rsi + 4..regs.rsi + 8])
    }

    /** The kernel runs the bind call: it succeeds when the length is that of an internet address, the
        named address is the loopback address and the named port is free. */
    method FinishBind(free: set<int>) returns (ok: bool)
      requires phase == Entry && 0 <= regs.rsi && (regs.rdx == ADDRESS ==> regs.rsi + ADDRESS <= mem.Length)
      modifies this
      ensures phase == Exit
      ensures ok == (old(regs).rdx == ADDRESS && old(Named()).0 in free && old(Named()).1 == LOOPBACK_BYTES)
      ensures regs == old(regs).(rax := regs.rax) && (regs.rax == 0 <==> ok)
      ensures ran == old(ran) + [Call(old(regs), mem[..])]
    {
      if regs.rdx != ADDRESS {
        Finish(-EINVAL);
        return false;
      }
      ok := BigEndian(mem[regs.rsi + 2], mem[regs.rsi + 3]) in free && mem[regs.rsi + 4..regs.rsi + 8] == LOOPBACK_BYTES;
      Finish(if ok then 0 else -EADDRINUSE);
    }

    /** The registers of a bind call whose address, as long as it says, lies in memory and fits the
        structure that is to hold it. */
    ghost predicate Binding(at: nat, original: seq<Byte>)
      reads this
    {
      && regs.rsi == at && 0 <= regs.rdx <= ADDRESS && at + Padded(regs.rdx) <= mem.Length
      && |original| == ADDRESS
    }

    /** One try: name the port in the process's memory, as far as the length goes, and run the call. */
    method TryPort(at: nat, original: seq<Byte>, port: nat, free: set<int>) returns (ok: bool)
      requires phase == Entry && Binding(at, original) && port < 65536
      modifies this, mem
      ensures phase == Exit && ok == (regs.rdx == ADDRESS && port in free)
      ensures regs == old(regs).(rax := regs.rax) && (regs.rax == 0 <==> ok)
      ensures mem[..] == Overlay(old(mem[..]), at, WithPort(original, port)[..Padded(regs.rdx)])
      ensures ran == old(ran) + [Call(old(regs), mem[..])]
    {
      var w := WithPort(original, port);
      var temp := new Byte[ADDRESS](i requires 0 <= i < ADDRESS => w[i]);
      assert temp[..] == w;
      Poke(at, temp, regs.rdx);
      if regs.rdx == ADDRESS {
        assert mem[..][at..at + 16] == w;
        assert mem[at + 2] == mem[..][at..at + 16][2] && mem[at + 3] == mem[..][at..at + 16][3];
        assert mem[at + 4..at + 8] == mem[..][at..at + 16][4..8];
      }
      ok := FinishBind(free);
    }

    /** The search has made some tries down from the last port, all of the call that was entered with the
        saved registers and memory, and stands at the exit of the last one. */
    ghost predicate Tried(at: nat, original: seq<Byte>, last: nat, tries: nat, saved: Regs, before: seq<Byte>,
                          earlier: seq<Call>)
      reads this, mem
    {
      && |original| == ADDRESS && saved.rsi == at && 0 <= saved.rdx <= ADDRESS
      && saved.rax == -ENOSYS && saved.rip == site + 2
      && at + Padded(saved.rdx) <= |before| == mem.Length && last < 65536 && tries >= 1
      && phase == Exit && regs == saved.(rax := regs.rax)
      && mem[..] == Overlay(before, at, WithPort(original, Down(last, tries))[..Padded(saved.rdx)])
      && ran == earlier + Tries(saved, before, at, original, last, tries)
    }

    /** The first try. */
    method TryFirst(at: nat, original: seq<Byte>, last: nat, free: set<int>) returns (port: nat, ok: bool)
      requires Entering() && Binding(at, original) && last < 65536
      modifies this, mem
      ensures Tried(at, original, last, 1, old(regs), old(mem[..]), old(ran))
      ensures port == Down(last, 1) && ok == (regs.rdx == ADDRESS && port in free) && (regs.rax == 0 <==> ok)
    {
      port := Down(last, 1);
      ok := TryPort(at, original, port, free);
      assert Tries(old(regs), old(mem[..]), at, original, last, 0) == [];
    }

    /** The next try: step back over the call and enter it again. */
    method TryNext(at: nat, original: seq<Byte>, port: nat, free: set<int>, ghost last: nat, ghost tries: nat,
                   ghost saved: Regs, ghost before: seq<Byte>, ghost earlier: seq<Call>)
      returns (next: nat, ok: bool)
      requires Tried(at, original, last, tries, saved, before, earlier) && port == Down(last, tries)
      modifies this, mem
      ensures Tried(at, original, last, tries + 1, saved, before, earlier)
      ensures next == Down(last, tries + 1) && ok == (regs.rdx == ADDRESS && next in free) && (regs.rax == 0 <==> ok)
    {
      DownMore(last, tries);
      next := Down(port, 1);
      OverlayAgain(before, at, WithPort(original, port)[..Padded(saved.rdx)],
                   WithPort(original, next)[..Padded(saved.rdx)]);
      Rewind();
      Reenter();
      assert regs == saved;
      ok := TryPort(at, original, next, free);
      Associative(earlier, Tries(saved, before, at, original, last, tries), [Call(saved, mem[..])]);
    }

    /** The first tries of the search loop of ptrace_find_free_binding_port, down from the last port
        used. Whatever their number, none succeeds if the address is too short or no port is free: the
        loop of the code, which has no bound, does not end then. Every try runs the caller's own bind. */
    method SomeTries(at: nat, original: seq<Byte>, last: nat, free: set<int>, bound: nat)
      returns (ok: bool, tries: nat)
      requires Entering() && Binding(at, original) && last < 65536 && bound >= 1
      modifies this, mem
      ensures ok <==> old(regs).rdx == ADDRESS && exists j :: 1 <= j <= bound && Down(last, j) in free
      ensures 1 <= tries <= bound && (ok ==> Down(last, tries) in free) && (!ok ==> tries == bound)
      ensures Tried(at, original, last, tries, old(regs), old(mem[..]), old(ran))
    {
      var port;
      ghost var saved, before, earlier := regs, mem[..], ran;
      ghost var usable := if regs.rdx == ADDRESS then free else {};
      tries := 1;
      port, ok := TryFirst(at, original, last, free);
      while !ok && tries < bound
        invariant 1 <= tries <= bound && port == Down(last, tries) && ok == (port in usable)
        invariant NoneFree(last, tries, usable)
        invariant Tried(at, original, last, tries, saved, before, earlier)
      {
        port, ok := TryNext(at, original, port, free, last, tries, saved, before, earlier);
        tries := tries + 1;
      }
      SomeFree(last, tries, bound, usable);
    }

    /** The search loop of ptrace_find_free_binding_port: try the ports downwards from the last one
        used until the kernel accepts one, entering the call anew for each try. */
    method SearchPort(at: nat, original: seq<Byte>, last: nat, free: set<int>) returns (port: nat, ghost tries: nat)
      requires Entering() && Binding(at, original) && last < 65536
      requires regs.rdx == ADDRESS && exists p :: 0 <= p < 65536 && p in free
      modifies this, mem
      ensures tries >= 1 && port == Down(last, tries) && port in free
      ensures forall j :: 1 <= j < tries ==> Down(last, j) !in free
      ensures phase == Exit && regs == old(regs).(rax := 0)
      ensures mem[..] == Overlay(old(mem[..]), at, WithPort(original, port))
      ensures ran == old(ran) + Tries(old(regs), old(mem[..]), at, original, last, tries)
    {
      ghost var saved, before, earlier := regs, mem[..], ran;
      ghost var some :| 0 <= some < 65536 && some in free;
      var ok;
      tries := 1;
      port, ok := TryFirst(at, original, last, free);
      while !ok
        invariant 1 <= tries && port == Down(last, tries) && ok == (port in free) && (regs.rax == 0 <==> ok)
        invariant NoneFree(last, tries, free)
        invariant Tried(at, original, last, tries, saved, before, earlier)
        decreases Distance(last, some) - tries
      {
        TriesLeft(last, some, tries, free);
        port, ok := TryNext(at, original, port, free, last, tries, saved, before, earlier);
        tries := tries + 1;
      }
      assert WithPort(original, port)[..ADDRESS] == WithPort(original, port);
    }

    /** ptrace_find_free_binding_port: search a port, then put the caller's address back. */
    method FindFreeBindingPort(last: nat, free: set<int>) returns (port: nat, ghost tries: nat)
      requires Entering() && last < 65536 && regs.rdx == ADDRESS
      requires 0 <= regs.rsi && regs.rsi + ADDRESS <= mem.Length
      requires exists p :: 0 <= p < 65536 && p in free
      modifies this, mem
      ensures tries >= 1 && port == Down(last, tries) && port in free
      ensures forall j :: 1 <= j < tries ==> Down(last, j) !in free
      ensures phase == Exit && regs == old(regs).(rax := 0)
      ensures mem[..] == old(mem[..])
      ensures var at := old(regs).rsi;
        ran == old(ran) + Tries(old(regs), old(mem[..]), at, old(mem[..])[at..at + ADDRESS], last, tries)
    {
      var at := regs.rsi;
      var caller := new Byte[16];
      var _ := Copy(caller, at, 16);
      var original := caller[..];
      assert original == caller[..16] == mem[at..at + 16];
      port, tries := SearchPort(at, original, last, free);
      assert caller[..16] == original;
      Poke(at, caller, 16);
      OverlayAgain(old(mem[..]), at, WithPort(original, port), original);
      OverlaySame(old(mem[..]), at, original);
    }
  }

  /** The length of an internet address structure. */
  const ADDRESS := 16

  const LOOPBACK_BYTES: seq<Byte> := [127, 0, 0, 1]

  /** The 16-bit number two bytes in network byte order stand for. */
  function BigEndian(hi: Byte, lo: Byte): int {
    hi as int * 256 + lo as int
  }

  /** The address with another port, and the loopback address. */
  function WithPort(address: seq<Byte>, port: nat): (r: seq<Byte>)
    requires |address| == 16 && port < 65536
    ensures |r| == 16 && BigEndian(r[2], r[3]) == port && r[4..8] == LOOPBACK_BYTES
    ensures r[..2] == address[..2] && r[8..] == address[8..]
  {
    var hi: Byte := port / 256;
    var lo: Byte := port % 256;
    address[..2] + [hi, lo] + LOOPBACK_BYTES + address[8..]
  }

  /** The calls of a search: the same bind each time, naming the next port down. */
  ghost function Tries(regs: Regs, mem: seq<Byte>, at: nat, original: seq<Byte>, last: nat, tries: nat): seq<Call>
    requires |original| == ADDRESS && 0 <= regs.rdx <= ADDRESS && at + Padded(regs.rdx) <= |mem|
  {
    if tries == 0 then []
    else
      Tries(regs, mem, at, original, last, tries - 1)
      + [Call(regs, Overlay(mem, at, WithPort(original, Down(last, tries))[..Padded(regs.rdx)]))]
  }

  /** The unsigned 16-bit number j below another. */
  function Down(port: nat, j: nat): (r: nat)
    ensures r < 65536
  {
    (port - j) % 65536
  }

  /** How far below last a port lies, counting round. */
  function Distance(last: nat, port: nat): nat {
    (last - port - 1) % 65536 + 1
  }

  /** The ports of the tries before the given one are in use. */
  ghost predicate NoneFree(last: nat, tries: nat, free: set<int>) {
    forall j {:trigger Down(last, j)} :: 1 <= j < tries ==> Down(last, j) !in free
  }

  /** A search of so many tries finds a free port if its last try does, or not before the bound. */
  lemma SomeFree(last: nat, tries: nat, bound: nat, free: set<int>)
    requires 1 <= tries <= bound && NoneFree(last, tries, free)
    requires Down(last, tries) in free || tries == bound
    ensures Down(last, tries) in free <==> exists j :: 1 <= j <= bound && Down(last, j) in free
  {
  }

  lemma DownMore(last: nat, j: nat)
    requires last < 65536
    ensures Down(Down(last, j), 1) == Down(last, j + 1)
  {
  }

  lemma TriesLeft(last: nat, some: nat, tries: nat, free: set<int>)
    requires last < 65536 && some < 65536 && some in free && tries >= 1
    requires NoneFree(last, tries, free) && Down(last, tries) !in free
    ensures tries < Distance(last, some)
  {
    var d := Distance(last, some);
    assert Down(last, d) == some;
    assert d >= 1;
  }

  lemma OverlayAgain(d: seq<Byte>, at: nat, x: seq<Byte>, y: seq<Byte>)
    requires |x| == |y| && at + |x| <= |d|
    ensures Overlay(Overlay(d, at, x), at, y) == Overlay(d, at, y)
  {
  }

  lemma OverlaySame(d: seq<Byte>, at: nat, x: seq<Byte>)
    requires at + |x| <= |d| && x == d[at..at + |x|]
    ensures Overlay(d, at, x) == d
  {
  }
}
