/** Removing congruent solutions from the list while it is being walked
    (tests/apps/chess_advanced.c:162-183, 214-281, 334-336). */
module Unify {
  import opened Boards
  import opened Solutions
  import opened Queens

  // ----- rotating and mirroring arrays

  /** board_rotate: a quarter turn. Source and destination may be the same array. */
  method RotateBoard(dest: array<int>, src: array<int>, size: nat)
    requires dest.Length == src.Length == size && Permutation(src[..])
    modifies dest
    ensures Image(QUARTER, old(src[..]), dest[..])
  {
    ghost var b := src[..];
    var board := new int[size];
    for i := 0 to size
      invariant src[..] == b
      invariant forall k :: 0 <= k < i ==> board[size - 1 - b[k]] == k
    {
      board[(size - 1) - src[i]] := i;
    }
    for i := 0 to size
      invariant dest[..i] == board[..i]
      invariant forall k :: 0 <= k < size ==> board[size - 1 - b[k]] == k
    {
      dest[i] := board[i];
    }
    assert forall k :: 0 <= k < size ==> dest[..][k] == board[k];
  }

  /** board_mirror: transposition at the main diagonal. */
  method MirrorBoard(dest: array<int>, src: Board, size: nat)
    requires dest.Length == |src| == size && Permutation(src)
    modifies dest
    ensures Image(MIRROR, src, dest[..])
  {
    for i := 0 to size
      invariant forall k :: 0 <= k < i ==> dest[src[k]] == k
    {
      dest[src[i]] := i;
    }
  }

  // ----- the boards removed on a visit

  /** The first k quarter turns of a board. */
  ghost function TurnsUpTo(b: Board, k: nat): (r: set<Board>)
    requires Permutation(b) && k < 4
  {
    if k == 0 then {} else TurnsUpTo(b, k - 1) + {Apply(Symmetry(k, false), b)}
  }

  ghost function Mirrored(b: Board): Board
    requires Permutation(b)
  {
    Apply(MIRROR, b)
  }

  /** What visiting b removes: its turns, its mirror image and the turns of that. */
  ghost function Gone(b: Board): (r: set<Board>)
    requires Permutation(b)
  {
    (TurnsUpTo(b, 3) - {b}) + ({Mirrored(b)} - {b}) + (TurnsUpTo(Mirrored(b), 3) - {Mirrored(b)})
  }

  lemma {:induction false} TurnIndex(a: Board, b: Board, k: nat) returns (j: nat)
    requires Permutation(b) && k < 4 && a in TurnsUpTo(b, k)
    ensures 1 <= j <= k && a == Apply(Symmetry(j, false), b)
  {
    if a in TurnsUpTo(b, k - 1) {
      j := TurnIndex(a, b, k - 1);
    } else {
      j := k;
    }
  }

  lemma {:induction false} TurnIn(b: Board, j: nat, k: nat)
    requires Permutation(b) && 1 <= j <= k < 4
    ensures Apply(Symmetry(j, false), b) in TurnsUpTo(b, k)
  {
    if j < k { TurnIn(b, j, k - 1); }
  }

  /** A quarter turn of the k-th turn is the next turn. */
  lemma NextTurn(b: Board, k: nat, before: Board, after: Board)
    requires Permutation(b) && k < 3 && before == Apply(Symmetry(k, false), b) && Image(QUARTER, before, after)
    ensures after == Apply(Symmetry(k + 1, false), b)
  {
    var g := Symmetry(k, false);
    assert QUARTER.After(g) == Symmetry(k + 1, false);
    ImageCompose(g, QUARTER, b, before, after);
    ImageUnique(Symmetry(k + 1, false), b, after, Apply(Symmetry(k + 1, false), b));
  }

  /** One more removal extends what has been removed by one more turn. */
  lemma RemovedTurns(nodes: seq<Node>, b: Board, k: nat)
    requires Permutation(b) && k < 3
    ensures Kept(Kept(nodes, TurnsUpTo(b, k) - {b}), {Apply(Symmetry(k + 1, false), b)} - {b})
      == Kept(nodes, TurnsUpTo(b, k + 1) - {b})
  {
    var next := Apply(Symmetry(k + 1, false), b);
    KeptTwice(nodes, TurnsUpTo(b, k) - {b}, {next} - {b});
    assert TurnsUpTo(b, k + 1) - {b} == (TurnsUpTo(b, k) - {b}) + ({next} - {b});
  }

  lemma SmallBoards(a: Board, b: Board, n: nat)
    requires OnBoard(a, n) && OnBoard(b, n) && n < 2
    ensures a == b
  {
  }

  /** A turn of the mirror image is never the board itself, unless it is the mirror image. */
  lemma GoneIsOther(a: Board, b: Board, n: nat)
    requires Solution(b, n) && Permutation(b) && a in TurnsUpTo(Mirrored(b), 3) && a != Mirrored(b)
    ensures Congruent(a, b) && a != b
  {
    var m := Mirrored(b);
    var k := TurnIndex(a, m, 3);
    ImageCompose(MIRROR, Symmetry(k, false), b, m, a);
    ImageSolution(MIRROR, b, m, n);
    ImageSolution(Symmetry(k, false), m, a, n);
    if n < 2 {
      SmallBoards(a, m, n);
    } else {
      NoReflectionFixes(Symmetry(k, false).After(MIRROR), b, n);
    }
  }

  lemma GoneCovers(a: Board, b: Board, g: Symmetry)
    requires Permutation(b) && g.Valid() && Image(g, b, a) && a != b
    ensures a in Gone(b)
  {
    var m, turns := Mirrored(b), Symmetry(g.turns, false);
    if g == IDENTITY {
      IdentityImage(b, a);
    } else if !g.mirrored {
      assert g == turns;
      ImageUnique(g, b, a, Apply(g, b));
      TurnIn(b, g.turns, 3);
    } else if g == MIRROR {
      ImageUnique(MIRROR, b, a, m);
    } else {
      assert turns.After(MIRROR) == g;
      ImageCompose(MIRROR, turns, b, m, Apply(turns, m));
      ImageUnique(g, b, a, Apply(turns, m));
      TurnIn(m, g.turns, 3);
    }
  }

  lemma TurnIsCongruent(a: Board, b: Board)
    requires Permutation(b) && a in TurnsUpTo(b, 3)
    ensures Congruent(a, b)
  {
    var k := TurnIndex(a, b, 3);
    assert Symmetry(k, false).Valid();
  }

  lemma MirrorIsCongruent(b: Board)
    requires Permutation(b)
    ensures Congruent(Mirrored(b), b)
  {
    assert Image(MIRROR, b, Mirrored(b));
  }

  lemma GoneIsCongruent(a: Board, b: Board, n: nat)
    requires Solution(b, n) && Permutation(b) && a in Gone(b)
    ensures Congruent(a, b) && a != b
  {
    if a in TurnsUpTo(b, 3) && a != b {
      TurnIsCongruent(a, b);
    } else if a == Mirrored(b) && a != b {
      MirrorIsCongruent(b);
    } else {
      GoneIsOther(a, b, n);
    }
  }

  /** Visiting a solution removes exactly the other members of its class. */
  lemma GoneIsClass(a: Board, b: Board, n: nat)
    requires Solution(b, n) && Permutation(b)
    ensures a in Gone(b) <==> Congruent(a, b) && a != b
  {
    if a in Gone(b) { GoneIsCongruent(a, b, n); }
    if Congruent(a, b) && a != b {
      var g: Symmetry :| g.Valid() && Image(g, b, a);
      GoneCovers(a, b, g);
    }
  }

  // ----- removing congruent boards from the list

  ghost predicate BoardsOf(nodes: seq<Node>, size: nat) {
    forall i :: 0 <= i < |nodes| ==> |nodes[i].data| == size
  }

  /** Remove a board other than the given one from a list without repetitions. */
  method RemoveOther(list: SolutionList, b: Board, other: Board, size: nat)
    requires list.Valid() && DistinctData(list.spine) && BoardsOf(list.spine, size)
    requires |b| == |other| == size
    modifies list, list.spine
    ensures list.Valid() && list.spine == Kept(old(list.spine), {other} - {b})
    ensures DistinctData(list.spine)
  {
    KeptDistinct(list.spine, {other} - {b});
    var same := Compare(b, other, size);
    assert b[..size] == b && other[..size] == other;
    if !same {
      DropFirstIsKept(list.spine, other);
      assert {other} - {b} == {other};
      var _ := list.Remove(other, size);
    } else {
      KeptAll(list.spine, {other} - {b});
    }
  }

  /** sol_remove_rotation: remove the quarter turns of a board, but not the board itself. */
  method RemoveRotations(list: SolutionList, b: Board, size: nat)
    requires list.Valid() && DistinctData(list.spine) && BoardsOf(list.spine, size)
    requires |b| == size && Permutation(b)
    modifies list, list.spine
    ensures list.Valid() && list.spine == Kept(old(list.spine), TurnsUpTo(b, 3) - {b})
    ensures DistinctData(list.spine)
  {
    var tmp := new int[size](i requires 0 <= i < size => b[i]);
    ghost var spine := list.spine;
    KeptAll(spine, TurnsUpTo(b, 0) - {b});
    assert tmp[..] == b;
    IdentityImage(b, Apply(IDENTITY, b));
    for i := 0 to 3
      invariant list.Valid() && DistinctData(list.spine)
      invariant list.spine == Kept(spine, TurnsUpTo(b, i) - {b})
      invariant fresh(tmp) && tmp[..] == Apply(Symmetry(i, false), b)
    {
      RemoveNextTurn(list, tmp, b, size, i);
      RemovedTurns(spine, b, i);
    }
  }

  /** The loop body of sol_remove_rotation. */
  method RemoveNextTurn(list: SolutionList, tmp: array<int>, b: Board, size: nat, ghost i: nat)
    requires list.Valid() && DistinctData(list.spine) && BoardsOf(list.spine, size)
    requires |b| == size && Permutation(b) && i < 3
    requires tmp[..] == Apply(Symmetry(i, false), b)
    modifies list, list.spine, tmp
    ensures list.Valid() && DistinctData(list.spine)
    ensures tmp[..] == Apply(Symmetry(i + 1, false), b)
    ensures list.spine == Kept(old(list.spine), {tmp[..]} - {b})
  {
    assert tmp.Length == |tmp[..]| == size;
    RotateBoard(tmp, tmp, size);
    NextTurn(b, i, old(tmp[..]), tmp[..]);
    RemoveOther(list, b, tmp[..], size);
  }

  /** sol_remove_mirrors: remove the mirror image of a board and the quarter turns of that. */
  method RemoveMirrors(list: SolutionList, b: Board, size: nat)
    requires list.Valid() && DistinctData(list.spine) && BoardsOf(list.spine, size)
    requires |b| == size && Permutation(b)
    modifies list, list.spine
    ensures list.Valid() && DistinctData(list.spine)
    ensures list.spine == Kept(old(list.spine), ({Mirrored(b)} - {b}) + (TurnsUpTo(Mirrored(b), 3) - {Mirrored(b)}))
  {
    var tmp := new int[size];
    ghost var spine := list.spine;
    MirrorBoard(tmp, b, size);
    var m := tmp[..];
    ImageUnique(MIRROR, b, m, Mirrored(b));
    RemoveOther(list, b, m, size);
    RemoveRotations(list, m, size);
    KeptTwice(spine, {m} - {b}, TurnsUpTo(m, 3) - {m});
  }

  // ----- one representative per class

  /** The boards not congruent to b, in order. */
  ghost function Without(boards: seq<Board>, b: Board): (r: seq<Board>)
    ensures |r| <= |boards|
  {
    if boards == [] then [] else
      (if Congruent(boards[0], b) then [] else [boards[0]]) + Without(boards[1..], b)
  }

  /** The first board of every class, in order. */
  ghost function Representatives(boards: seq<Board>): seq<Board>
    decreases |boards|
  {
    if boards == [] then [] else [boards[0]] + Representatives(Without(boards[1..], boards[0]))
  }

  lemma {:induction false} WithoutMembers(boards: seq<Board>, b: Board)
    ensures forall a :: a in Without(boards, b) <==> a in boards && !Congruent(a, b)
  {
    if boards != [] {
      WithoutMembers(boards[1..], b);
      assert forall a :: a in boards <==> a == boards[0] || a in boards[1..];
    }
  }

  lemma {:induction false} RepresentativesMembers(boards: seq<Board>)
    ensures forall a :: a in Representatives(boards) ==> a in boards
    decreases |boards|
  {
    if boards != [] {
      RepresentativesMembers(Without(boards[1..], boards[0]));
      WithoutMembers(boards[1..], boards[0]);
    }
  }

  ghost predicate AllSolutions(nodes: seq<Node>, size: nat) {
    forall i :: 0 <= i < |nodes| ==> Solution(nodes[i].data, size)
  }

  /** On nodes that carry other solutions than b, dropping what a visit of b removes is dropping
      the class of b. */
  lemma {:induction false} KeptIsWithout(nodes: seq<Node>, b: Board, size: nat)
    requires Solution(b, size) && Permutation(b)
    requires forall i :: 0 <= i < |nodes| ==> nodes[i].data != b
    ensures Data(Kept(nodes, Gone(b))) == Without(Data(nodes), b)
  {
    if nodes != [] {
      KeptIsWithout(nodes[1..], b, size);
      GoneIsClass(nodes[0].data, b, size);
      assert Data(nodes)[1..] == Data(nodes[1..]);
    }
  }

  /** No node is congruent to one of the first k. */
  ghost predicate Settled(nodes: seq<Node>, k: nat) {
    forall p, q :: 0 <= p < q < |nodes| && p < k ==> !Congruent(nodes[q].data, nodes[p].data)
  }

  /** A visit leaves the node visited and all nodes before it in place. */
  lemma VisitKeeps(nodes: seq<Node>, k: nat, size: nat)
    requires k < |nodes| && AllSolutions(nodes, size) && DistinctData(nodes) && Settled(nodes, k)
    requires Permutation(nodes[k].data)
    ensures Kept(nodes, Gone(nodes[k].data)) == nodes[..k + 1] + Kept(nodes[k + 1..], Gone(nodes[k].data))
  {
    var b, head := nodes[k].data, nodes[..k + 1];
    forall i | 0 <= i < |head| ensures head[i].data !in Gone(b) {
      NotGone(nodes, i, k, size);
    }
    KeptAll(head, Gone(b));
    KeptAppend(head, nodes[k + 1..], Gone(b));
    assert nodes == head + nodes[k + 1..];
  }

  lemma NotGone(nodes: seq<Node>, i: nat, k: nat, size: nat)
    requires i <= k < |nodes| && AllSolutions(nodes, size) && Settled(nodes, k)
    requires Permutation(nodes[k].data)
    ensures nodes[i].data !in Gone(nodes[k].data)
  {
    var a, b := nodes[i].data, nodes[k].data;
    GoneIsClass(a, b, size);
    if i < k {
      assert !Congruent(nodes[k].data, nodes[i].data);
      if Congruent(a, b) { CongruentSymmetric(a, b); }
    }
  }

  /** What a visit of b keeps behind it was there before, and is not congruent to b. */
  lemma KeptApart(post: seq<Node>, b: Board, size: nat, q: nat)
    requires Solution(b, size) && Permutation(b) && q < |Kept(post, Gone(b))|
    requires forall i :: 0 <= i < |post| ==> post[i].data != b
    ensures Kept(post, Gone(b))[q] in post && !Congruent(Kept(post, Gone(b))[q].data, b)
  {
    var kept := Kept(post, Gone(b));
    assert kept[q] in post && kept[q].data !in Gone(b);
    GoneIsClass(kept[q].data, b, size);
  }

  lemma SettledNext(nodes: seq<Node>, k: nat, tail: seq<Node>)
    requires k < |nodes| && Settled(nodes, k)
    requires forall q :: 0 <= q < |tail| ==> tail[q] in nodes[k + 1..] && !Congruent(tail[q].data, nodes[k].data)
    ensures Settled(nodes[..k + 1] + tail, k + 1)
  {
    var r, post := nodes[..k + 1] + tail, nodes[k + 1..];
    forall p, q | 0 <= p < q < |r| && p < k + 1 ensures !Congruent(r[q].data, r[p].data) {
      if q <= k {
        assert !Congruent(nodes[q].data, nodes[p].data);
      } else {
        var t := tail[q - k - 1];
        assert r[q] == t && t in post;
        if p < k {
          var j :| 0 <= j < |post| && post[j] == t;
          assert !Congruent(nodes[k + 1 + j].data, nodes[p].data);
        }
      }
    }
  }

  lemma VisitSettles(nodes: seq<Node>, k: nat, size: nat)
    requires k < |nodes| && AllSolutions(nodes, size) && DistinctData(nodes) && Settled(nodes, k)
    requires Permutation(nodes[k].data)
    ensures var r := Kept(nodes, Gone(nodes[k].data));
      AllSolutions(r, size) && Settled(r, k + 1)
  {
    var b, post := nodes[k].data, nodes[k + 1..];
    var tail := Kept(post, Gone(b));
    VisitKeeps(nodes, k, size);
    forall q | 0 <= q < |tail| ensures tail[q] in post && !Congruent(tail[q].data, b) {
      KeptApart(post, b, size, q);
    }
    SettledNext(nodes, k, tail);
  }

  /** What the walk will leave: the boards before the cursor and one representative of each class
      from the cursor on. */
  ghost function Outcome(nodes: seq<Node>, k: nat): seq<Board>
    requires k <= |nodes|
  {
    Data(nodes[..k]) + Representatives(Data(nodes[k..]))
  }

  lemma RepresentativesStep(pre: seq<Board>, b: Board, post: seq<Board>)
    ensures pre + [b] + Representatives(Without(post, b)) == pre + Representatives([b] + post)
  {
    assert ([b] + post)[1..] == post;
    assert Representatives([b] + post) == [b] + Representatives(Without(post, b));
  }

  lemma VisitOutcome(nodes: seq<Node>, k: nat, gone: set<Board>)
    requires k < |nodes|
    requires Data(Kept(nodes[k + 1..], gone)) == Without(Data(nodes[k + 1..]), nodes[k].data)
    requires Kept(nodes, gone) == nodes[..k + 1] + Kept(nodes[k + 1..], gone)
    ensures Outcome(Kept(nodes, gone), k + 1) == Outcome(nodes, k)
  {
    var b, r, post := nodes[k].data, Kept(nodes, gone), nodes[k + 1..];
    assert r[..k + 1] == nodes[..k + 1] && r[k + 1..] == Kept(post, gone);
    DataAround(nodes, k);
    RepresentativesStep(Data(nodes[..k]), b, Data(post));
  }

  /** The walk stands at node k, and will leave the given boards. */
  ghost predicate Walking(nodes: seq<Node>, k: nat, size: nat, goal: seq<Board>) {
    && k <= |nodes| && AllSolutions(nodes, size) && DistinctData(nodes)
    && Settled(nodes, k) && Outcome(nodes, k) == goal
  }

  /** Visiting a node keeps it where it is, and keeps what the walk will leave. */
  lemma VisitStep(nodes: seq<Node>, k: nat, size: nat, goal: seq<Board>)
    requires Walking(nodes, k, size, goal) && k < |nodes| && Permutation(nodes[k].data)
    ensures var r := Kept(nodes, Gone(nodes[k].data));
      k < |r| <= |nodes| && r[k] == nodes[k] && Walking(r, k + 1, size, goal)
  {
    var b := nodes[k].data;
    VisitKeeps(nodes, k, size);
    VisitSettles(nodes, k, size);
    KeptIsWithout(nodes[k + 1..], b, size);
    VisitOutcome(nodes, k, Gone(b));
    KeptDistinct(nodes, Gone(b));
    KeptShorter(nodes, Gone(b));
  }

  lemma {:induction false} KeptShorter(nodes: seq<Node>, gone: set<Board>)
    ensures |Kept(nodes, gone)| <= |nodes|
  {
    if nodes != [] { KeptShorter(nodes[1..], gone); }
  }

  /** Remove the other members of a board's class. */
  method RemoveClass(list: SolutionList, b: Board, size: nat)
    requires list.Valid() && DistinctData(list.spine) && BoardsOf(list.spine, size)
    requires |b| == size && Permutation(b)
    modifies list, list.spine
    ensures list.Valid() && list.spine == Kept(old(list.spine), Gone(b))
  {
    ghost var nodes := list.spine;
    RemoveRotations(list, b, size);
    RemoveMirrors(list, b, size);
    ghost var m := Mirrored(b);
    ghost var x, y := TurnsUpTo(b, 3) - {b}, ({m} - {b}) + (TurnsUpTo(m, 3) - {m});
    KeptTwice(nodes, x, y);
    assert Gone(b) == x + y;
  }

  /** The body of the walk of sol_unique. */
  method Visit(list: SolutionList, n: Node, size: nat, ghost k: nat, ghost goal: seq<Board>)
    requires list.Valid() && Walking(list.spine, k, size, goal)
    requires k < |list.spine| && n == list.spine[k]
    modifies list, list.spine
    ensures list.Valid() && Walking(list.spine, k + 1, size, goal)
    ensures k < |list.spine| <= |old(list.spine)| && list.spine[k] == n
    ensures forall i :: 0 <= i < |list.spine| ==> list.spine[i] in old(list.spine)
  {
    SolutionIsPermutation(n.data, size);
    VisitStep(list.spine, k, size, goal);
    RemoveClass(list, n.data, size);
  }

  /** sol_unique: walk the list, removing at every node the other members of its class. The node
      visited and the nodes before it are never removed. */
  method Unique(list: SolutionList, size: nat)
    requires list.Valid() && AllSolutions(list.spine, size) && DistinctData(list.spine)
    modifies list, list.spine
    ensures list.Valid() && list.Contents() == Representatives(old(list.Contents()))
  {
    var n := list.head;
    ghost var k, goal := 0, Representatives(list.Contents());
    assert list.spine[..0] == [] && list.spine[0..] == list.spine;
    while n != null
      invariant list.Valid() && Walking(list.spine, k, size, goal)
      invariant forall i :: 0 <= i < |list.spine| ==> list.spine[i] in old(list.spine)
      invariant n == if k < |list.spine| then list.spine[k] else null
      decreases |list.spine| - k
    {
      Visit(list, n, size, k, goal);
      assert n.next == list.Successor(k);
      n := n.next;
      k := k + 1;
    }
    assert list.spine[..k] == list.spine && list.spine[k..] == [];
  }

  // ----- what is left

  ghost predicate AllSolve(boards: seq<Board>, size: nat) {
    forall b :: b in boards ==> Solution(b, size)
  }

  lemma {:induction false} WithoutDescending(boards: seq<Board>, b: Board)
    requires Descending(boards)
    ensures Descending(Without(boards, b))
  {
    if boards != [] {
      WithoutDescending(boards[1..], b);
      var t := Without(boards[1..], b);
      WithoutMembers(boards[1..], b);
      forall j | 0 <= j < |t| ensures Less(t[j], boards[0]) {
        assert t[j] in boards[1..];
      }
    }
  }

  /** x is at least as great as every board of the list that is congruent to it. */
  ghost predicate GreatestOfClass(x: Board, boards: seq<Board>) {
    forall a :: a in boards && Congruent(a, x) ==> a == x || Less(a, x)
  }

  ghost predicate Represented(a: Board, reps: seq<Board>) {
    exists x :: x in reps && Congruent(a, x)
  }

  lemma {:induction false} RepresentativesDescend(boards: seq<Board>)
    requires Descending(boards)
    ensures Descending(Representatives(boards))
    decreases |boards|
  {
    if boards != [] {
      var w := Without(boards[1..], boards[0]);
      WithoutDescending(boards[1..], boards[0]);
      RepresentativesDescend(w);
      WithoutMembers(boards[1..], boards[0]);
      RepresentativesMembers(w);
      var r := Representatives(w);
      forall j | 0 <= j < |r| ensures Less(r[j], boards[0]) {
        assert r[j] in w && r[j] in boards[1..];
      }
    }
  }

  /** Two representatives are never congruent. */
  lemma {:induction false} RepresentativesApart(boards: seq<Board>)
    ensures forall i, j :: 0 <= i < j < |Representatives(boards)| ==>
      !Congruent(Representatives(boards)[j], Representatives(boards)[i])
    decreases |boards|
  {
    if boards != [] {
      var w := Without(boards[1..], boards[0]);
      RepresentativesApart(w);
      WithoutMembers(boards[1..], boards[0]);
      RepresentativesMembers(w);
      var r := Representatives(w);
      forall j | 0 <= j < |r| ensures !Congruent(r[j], boards[0]) {
        assert r[j] in w;
      }
    }
  }

  /** Every board is congruent to a representative. */
  lemma {:induction false} RepresentativesCover(boards: seq<Board>, size: nat, a: Board)
    requires AllSolve(boards, size) && a in boards
    ensures Represented(a, Representatives(boards))
    decreases |boards|
  {
    var w := Without(boards[1..], boards[0]);
    var r := Representatives(w);
    WithoutMembers(boards[1..], boards[0]);
    if Congruent(a, boards[0]) {
      assert boards[0] in Representatives(boards);
    } else if a == boards[0] {
      CongruentReflexive(a);
    } else {
      RepresentativesCover(w, size, a);
      var x :| x in r && Congruent(a, x);
      assert x in Representatives(boards);
    }
  }

  /** Every representative is the greatest board of its class. */
  lemma {:induction false} RepresentativesGreatest(boards: seq<Board>, size: nat, x: Board)
    requires Descending(boards) && AllSolve(boards, size) && x in Representatives(boards)
    ensures GreatestOfClass(x, boards)
    decreases |boards|
  {
    var w := Without(boards[1..], boards[0]);
    if x == boards[0] {
      forall a | a in boards && Congruent(a, x) ensures a == x || Less(a, x) {
        var i :| 0 <= i < |boards| && boards[i] == a;
      }
    } else {
      WithoutMembers(boards[1..], boards[0]);
      WithoutDescending(boards[1..], boards[0]);
      RepresentativesMembers(w);
      RepresentativesGreatest(w, size, x);
      forall a | a in boards && Congruent(a, x) ensures a == x || Less(a, x) {
        StaysWithout(boards, size, a, x);
      }
    }
  }

  /** A board congruent to one outside the first board's class is outside that class itself. */
  lemma StaysWithout(boards: seq<Board>, size: nat, a: Board, x: Board)
    requires boards != [] && AllSolve(boards, size)
    requires a in boards && Congruent(a, x) && x in Without(boards[1..], boards[0])
    ensures a in Without(boards[1..], boards[0])
  {
    WithoutMembers(boards[1..], boards[0]);
    SolutionIsPermutation(x, size);
    CongruentSymmetric(a, x);
    assert !Congruent(x, boards[0]);
    if Congruent(a, boards[0]) {
      CongruentTransitive(x, a, boards[0]);
    } else if a == boards[0] {
      CongruentReflexive(a);
    }
  }

  /** The boards are one of each class of solutions under the eight symmetries, namely the
      lexicographically greatest, listed in descending order. */
  ghost predicate OnePerClass(reps: seq<Board>, size: nat) {
    && Descending(reps) && AllSolve(reps, size)
    && (forall i, j :: 0 <= i < j < |reps| ==> !Congruent(reps[j], reps[i]))
    && (forall s :: Solution(s, size) ==> Represented(s, reps))
    && (forall x, s :: x in reps && Solution(s, size) && Congruent(s, x) ==> s == x || Less(s, x))
  }

  /** The representatives of a complete list of solutions. */
  lemma RepresentativesOfAll(boards: seq<Board>, size: nat)
    requires Descending(boards) && forall b :: b in boards <==> Solution(b, size)
    ensures OnePerClass(Representatives(boards), size)
  {
    var r := Representatives(boards);
    RepresentativesMembers(boards);
    RepresentativesDescend(boards);
    RepresentativesApart(boards);
    forall s | Solution(s, size) ensures Represented(s, r) {
      RepresentativesCover(boards, size, s);
    }
    forall x, s | x in r && Solution(s, size) && Congruent(s, x) ensures s == x || Less(s, x) {
      RepresentativesGreatest(boards, size, x);
      assert GreatestOfClass(x, boards);
    }
  }

  lemma ReadyToUnify(nodes: seq<Node>, size: nat)
    requires Descending(Data(nodes)) && forall b :: b in Data(nodes) <==> Solution(b, size)
    ensures AllSolutions(nodes, size) && DistinctData(nodes)
    ensures OnePerClass(Representatives(Data(nodes)), size)
  {
    var all := Data(nodes);
    DescendingDistinct(all);
    forall i | 0 <= i < |nodes| ensures Solution(nodes[i].data, size) {
      assert all[i] in all;
    }
    forall i, j | 0 <= i < j < |nodes| ensures nodes[i].data != nodes[j].data {
      assert all[i] != all[j];
    }
    RepresentativesOfAll(all, size);
  }

  /** main: solve, then unify. */
  method CongruenceFree(size: nat) returns (sol: SolutionList)
    requires size >= 1
    ensures sol.Valid() && OnePerClass(sol.Contents(), size)
  {
    var solutions;
    sol, solutions := Solve(size);
    ReadyToUnify(sol.spine, size);
    Unique(sol, size);
  }
}
