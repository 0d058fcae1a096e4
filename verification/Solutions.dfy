/** The solution set of the queens workload: a linked list that is pushed at the head while
    solving and spliced in place while unifying (tests/apps/chess_advanced.c:52-122, 196-253). */
module Solutions {
  import opened Common
  import opened Boards

  /** A node of the list. The board it carries is a private copy that is never written again. */
  class Node {
    var next: Node?
    const data: Board

    constructor (data: Board, next: Node?)
      ensures this.data == data && this.next == next
    {
      this.data := data;
      this.next := next;
    }
  }

  // ----- value-level view of the list

  ghost function Data(nodes: seq<Node>): (boards: seq<Board>)
    ensures |boards| == |nodes| && forall i :: 0 <= i < |nodes| ==> boards[i] == nodes[i].data
  {
    seq(|nodes|, i requires 0 <= i < |nodes| => nodes[i].data)
  }

  lemma DataAround(nodes: seq<Node>, k: nat)
    requires k < |nodes|
    ensures Data(nodes[..k + 1]) == Data(nodes[..k]) + [nodes[k].data]
    ensures Data(nodes[k..]) == [nodes[k].data] + Data(nodes[k + 1..])
  {
  }

  /** No board occurs twice. */
  ghost predicate DistinctData(nodes: seq<Node>) {
    forall i, j :: 0 <= i < j < |nodes| ==> nodes[i].data != nodes[j].data
  }

  function Drop<T>(s: seq<T>, k: int): seq<T> {
    if 0 <= k < |s| then s[..k] + s[k + 1..] else s
  }

  lemma DropDistinct<T>(s: seq<T>, k: int)
    requires Distinct(s)
    ensures Distinct(Drop(s, k))
  {
  }

  lemma DropTail<T>(s: seq<T>, k: nat)
    requires s != []
    ensures Drop(s, k + 1) == [s[0]] + Drop(s[1..], k)
  {
  }

  /** The position of the first b in s, or |s|. */
  ghost function FirstIndex(s: seq<Board>, b: Board): (k: nat)
    ensures k <= |s| && b !in s[..k] && (k < |s| ==> s[k] == b)
  {
    if s == [] || s[0] == b then 0 else
      var k := 1 + FirstIndex(s[1..], b);
      assert s[..k] == [s[0]] + s[1..][..k - 1];
      k
  }

  lemma {:induction false} FirstIndexIs(s: seq<Board>, b: Board, i: nat)
    requires i < |s| && s[i] == b && b !in s[..i]
    ensures FirstIndex(s, b) == i
  {
    if i > 0 {
      assert s[..i][0] == s[0] && s[1..][..i - 1] == s[..i][1..];
      FirstIndexIs(s[1..], b, i - 1);
    }
  }

  /** The nodes whose boards are not in the given set, in order. */
  ghost function Kept(nodes: seq<Node>, gone: set<Board>): (r: seq<Node>)
    ensures forall i :: 0 <= i < |r| ==> r[i] in nodes && r[i].data !in gone
    ensures forall i :: 0 <= i < |nodes| && nodes[i].data !in gone ==> nodes[i] in r
  {
    if nodes == [] then [] else
      (if nodes[0].data in gone then [] else [nodes[0]]) + Kept(nodes[1..], gone)
  }

  lemma {:induction false} KeptAppend(a: seq<Node>, b: seq<Node>, gone: set<Board>)
    ensures Kept(a + b, gone) == Kept(a, gone) + Kept(b, gone)
  {
    if a == [] {
      assert a + b == b;
    } else {
      assert (a + b)[1..] == a[1..] + b;
      KeptAppend(a[1..], b, gone);
    }
  }

  lemma {:induction false} KeptAll(a: seq<Node>, gone: set<Board>)
    requires forall i :: 0 <= i < |a| ==> a[i].data !in gone
    ensures Kept(a, gone) == a
  {
    if a != [] { KeptAll(a[1..], gone); }
  }

  lemma {:induction false} KeptTwice(a: seq<Node>, x: set<Board>, y: set<Board>)
    ensures Kept(Kept(a, x), y) == Kept(a, x + y)
  {
    if a != [] {
      KeptTwice(a[1..], x, y);
      KeptAppend(if a[0].data in x then [] else [a[0]], Kept(a[1..], x), y);
    }
  }

  lemma {:induction false} KeptDistinct(a: seq<Node>, gone: set<Board>)
    requires DistinctData(a)
    ensures DistinctData(Kept(a, gone))
  {
    if a != [] {
      KeptDistinct(a[1..], gone);
      var t := Kept(a[1..], gone);
      forall j | 0 <= j < |t| ensures t[j].data != a[0].data {
        assert t[j] in a[1..];
      }
    }
  }

  /** In a list without repetitions, dropping the first b is dropping every b. */
  lemma {:induction false} DropFirstIsKept(a: seq<Node>, b: Board)
    requires DistinctData(a)
    ensures Drop(a, FirstIndex(Data(a), b)) == Kept(a, {b})
  {
    if a != [] {
      var d := Data(a);
      assert d[1..] == Data(a[1..]);
      if d[0] == b {
        assert FirstIndex(Data(a), b) == 0;
        KeptAll(a[1..], {b});
        assert Kept(a, {b}) == a[1..];
        assert Drop(a, 0) == a[1..];
      } else {
        assert Kept(a, {b}) == [a[0]] + Kept(a[1..], {b});
        DropFirstIsKept(a[1..], b);
        var k := FirstIndex(Data(a[1..]), b);
        assert FirstIndex(d, b) == 1 + FirstIndex(d[1..], b);
        DropTail(a, k);
      }
    }
  }

  // ----- comparing boards

  /** board_comp: equality of the first size rows. */
  method Compare(a: Board, b: Board, size: nat) returns (same: bool)
    requires |a| >= size && |b| >= size
    ensures same <==> a[..size] == b[..size]
  {
    for i := 0 to size
      invariant a[..i] == b[..i]
    {
      if a[i] != b[i] {
        assert a[..size][i] != b[..size][i];
        return false;
      }
    }
    return true;
  }

  lemma Prepended(n: Node, nodes: seq<Node>)
    requires Distinct(nodes) && n !in nodes
    ensures Distinct([n] + nodes) && ([n] + nodes)[1..] == nodes && Data([n] + nodes) == [n.data] + Data(nodes)
  {
    var s := [n] + nodes;
    forall i, j | 0 <= i < j < |s| ensures s[i] != s[j] {
      if i > 0 { assert nodes[i - 1] != nodes[j - 1]; } else { assert nodes[j - 1] in nodes; }
    }
  }

  // ----- the list

  class SolutionList {
    var head: Node?
    ghost var spine: seq<Node>

    ghost predicate Valid()
      reads this, spine
    {
      && Distinct(spine)
      && head == (if spine == [] then null else spine[0])
      && forall i :: 0 <= i < |spine| ==> spine[i].next == Successor(i)
    }

    /** What the node at position i must point to. */
    ghost function Successor(i: nat): Node?
      reads this
      requires i < |spine|
    {
      if i + 1 < |spine| then spine[i + 1] else null
    }

    ghost function Contents(): seq<Board>
      reads this
    {
      Data(spine)
    }

    constructor ()
      ensures Valid() && spine == []
    {
      head := null;
      spine := [];
    }

    /** list_push: prepend a node. */
    method Push(b: Board)
      requires Valid()
      modifies this
      ensures Valid() && |spine| > 0 && fresh(spine[0])
      ensures spine[1..] == old(spine) && Contents() == [b] + old(Contents())
    {
      var n := new Node(b, head);
      Prepended(n, spine);
      head := n;
      spine := [n] + spine;
      assert forall i :: 0 < i < |spine| ==> Successor(i) == (if i < |old(spine)| then old(spine)[i] else null);
    }

    /** list_pop: remove the first node. */
    method Pop() returns (data: Option<Board>)
      requires Valid()
      modifies this
      ensures Valid() && spine == Drop(old(spine), 0)
      ensures data == (if old(spine) == [] then None else Some(old(Contents())[0]))
    {
      if head == null {
        return None;
      }
      data := Some(head.data);
      head := head.next;
      spine := spine[1..];
      assert forall i :: 0 <= i < |spine| ==> spine[i] == old(spine)[i + 1];
    }

    /** list_remove: remove the node at a position. The walk follows next pointers that exist
        only up to one past the end of the list. */
    method RemoveAt(pos: int) returns (data: Option<Board>)
      requires Valid()
      requires pos <= |spine| || spine == []
      modifies this, spine
      ensures Valid() && spine == Drop(old(spine), pos)
      ensures data == (if 0 <= pos < |old(spine)| then Some(old(Contents())[pos]) else None)
    {
      if pos < 0 || head == null {
        return None;
      }
      if pos == 0 {
        data := Pop();
        return data;
      }
      var current := Walk(pos - 1);
      assert current.next == Successor(pos - 1);
      if current.next == null {
        return None;
      }
      data := Some(current.next.data);
      Unlink(current, pos);
    }

    /** The walk of list_remove: follow next a number of times. */
    method Walk(steps: nat) returns (n: Node)
      requires Valid() && steps < |spine|
      ensures n == spine[steps]
    {
      n := head;
      for i := 0 to steps
        invariant n == spine[i]
      {
        assert n.next == Successor(i);
        n := n.next;
      }
    }

    /** The splice of list_remove: bypass the successor of the node at pos - 1. */
    method Unlink(current: Node, ghost pos: nat)
      requires Valid() && 0 < pos < |spine| && current == spine[pos - 1]
      modifies this, current
      ensures Valid() && spine == Drop(old(spine), pos)
    {
      assert current.next == Successor(pos - 1) && spine[pos].next == Successor(pos);
      current.next := current.next.next;
      spine := Drop(spine, pos);
      DropDistinct(old(spine), pos);
      forall i | 0 <= i < |spine| ensures spine[i].next == Successor(i) {
        assert spine[i] == old(spine)[if i < pos then i else i + 1];
      }
    }

    /** sol_remove: remove the first node whose board equals the given one. */
    method Remove(b: Board, size: nat) returns (removed: bool)
      requires Valid() && |b| == size
      requires forall i :: 0 <= i < |spine| ==> |spine[i].data| == size
      modifies this, spine
      ensures Valid() && removed == (b in old(Contents()))
      ensures spine == Drop(old(spine), FirstIndex(old(Contents()), b))
    {
      var n := head;
      var i := 0;
      while n != null
        invariant Valid() && spine == old(spine) && 0 <= i <= |spine|
        invariant n == if i < |spine| then spine[i] else null
        invariant b !in Contents()[..i]
        decreases |spine| - i
      {
        var same := Compare(b, n.data, size);
        assert b[..size] == b && n.data[..size] == n.data;
        if same {
          FirstIndexIs(Contents(), b, i);
          var _ := RemoveAt(i);
          return true;
        }
        assert Contents()[..i + 1] == Contents()[..i] + [n.data];
        assert n.next == Successor(i);
        n := n.next;
        i := i + 1;
      }
      assert Contents()[..i] == Contents();
      return false;
    }
  }
}
