/** Boards of the queens workload (tests/apps/chess_advanced.c): a board is the sequence of
    the rows of its queens, one per column. This module holds the value theory: when queens
    conflict, and what the eight symmetries of the square do to a board. */
module Boards {
  import opened Common

  type Board = seq<int>

  /** The queens of columns i and j share a row or a diagonal. */
  predicate Attacks(b: Board, i: nat, j: nat)
    requires i < |b| && j < |b|
  {
    b[i] == b[j] || b[i] + i == b[j] + j || b[i] - i == b[j] - j
  }

  /** No two of the first k queens attack each other. */
  predicate ConflictFree(b: Board, k: nat)
    requires k <= |b|
  {
    forall i, j :: 0 <= i < j < k ==> !Attacks(b, i, j)
  }

  predicate OnBoard(b: Board, n: nat) {
    |b| == n && forall i :: 0 <= i < n ==> 0 <= b[i] < n
  }

  predicate Solution(b: Board, n: nat) {
    OnBoard(b, n) && ConflictFree(b, n)
  }

  /** One queen in every row: what rotating and mirroring need of a board. */
  ghost predicate Permutation(b: Board) {
    OnBoard(b, |b|) && forall i, j :: 0 <= i < j < |b| ==> b[i] != b[j]
  }

  lemma SolutionIsPermutation(b: Board, n: nat)
    requires Solution(b, n)
    ensures Permutation(b)
  {
    forall i, j | 0 <= i < j < |b| ensures b[i] != b[j] {
      assert !Attacks(b, i, j);
    }
  }

  // ----- every row is hit

  ghost function Range(n: nat): (r: set<int>)
    ensures |r| == n && forall x :: x in r <==> 0 <= x < n
  {
    if n == 0 then {} else Range(n - 1) + {n - 1}
  }

  ghost function Rows(b: Board): (rows: set<int>) {
    set i | 0 <= i < |b| :: b[i]
  }

  lemma {:induction false} RowsCount(b: Board)
    requires forall i, j :: 0 <= i < j < |b| ==> b[i] != b[j]
    ensures |Rows(b)| == |b|
  {
    if |b| > 0 {
      var k := |b| - 1;
      RowsCount(b[..k]);
      assert Rows(b) == Rows(b[..k]) + {b[k]};
    }
  }

  /** Pigeonhole: n queens in n distinct rows leave no row empty. */
  lemma EveryRowHit(b: Board, row: int)
    requires Permutation(b) && 0 <= row < |b|
    ensures exists i :: 0 <= i < |b| && b[i] == row
  {
    RowsCount(b);
    SubsetCount(Rows(b) + {row}, Range(|b|));
    assert row in Rows(b);
  }

  /** The column whose queen stands in the given row. */
  ghost function Column(b: Board, row: int): (col: nat)
    requires Permutation(b) && 0 <= row < |b|
    ensures col < |b| && b[col] == row
  {
    EveryRowHit(b, row);
    var i :| 0 <= i < |b| && b[i] == row;
    i
  }

  // ----- the eight symmetries of the square

  datatype Square = Square(x: int, y: int)

  /** A symmetry: an optional mirroring at the main diagonal, then a number of quarter turns. */
  datatype Symmetry = Symmetry(turns: nat, mirrored: bool) {
    predicate Valid() { turns < 4 }

    /** Where the symmetry moves a square of the n by n board. */
    function Move(n: nat, s: Square): Square {
      var t := if mirrored then Square(s.y, s.x) else s;
      match turns
      case 0 => t
      case 1 => Square(n - 1 - t.y, t.x)
      case 2 => Square(n - 1 - t.x, n - 1 - t.y)
      case _ => Square(t.y, n - 1 - t.x)
    }

    /** First g, then this symmetry. */
    function After(g: Symmetry): Symmetry {
      Symmetry((if mirrored then turns + 3 * g.turns else turns + g.turns) % 4, mirrored != g.mirrored)
    }

    function Inverse(): Symmetry
      requires Valid()
    {
      if mirrored then this else Symmetry((4 - turns) % 4, false)
    }
  }

  const IDENTITY := Symmetry(0, false)
  const QUARTER := Symmetry(1, false)
  const MIRROR := Symmetry(0, true)

  /** Composition of symmetries does on squares what its name says. */
  lemma MoveAfter(g: Symmetry, h: Symmetry, n: nat, s: Square)
    requires g.Valid() && h.Valid()
    ensures h.After(g).Valid() && h.Move(n, g.Move(n, s)) == h.After(g).Move(n, s)
  {
    var k := if h.mirrored then h.turns + 3 * g.turns else h.turns + g.turns;
    assert k % 4 == if k < 4 then k else if k < 8 then k - 4 else if k < 12 then k - 8 else k - 12;
  }

  lemma MoveBack(g: Symmetry, n: nat, s: Square)
    requires g.Valid()
    ensures g.Inverse().Valid() && g.Inverse().Move(n, g.Move(n, s)) == s
  {
  }

  function At(b: Board, i: nat): Square
    requires i < |b|
  {
    Square(i, b[i])
  }

  /** a shows exactly the squares of b, moved by g. */
  ghost predicate Image(g: Symmetry, b: Board, a: Board) {
    && |a| == |b|
    && forall i :: 0 <= i < |b| ==>
      var s := g.Move(|b|, At(b, i));
      0 <= s.x < |a| && a[s.x] == s.y
  }

  lemma ImageAt(g: Symmetry, b: Board, a: Board, i: nat)
    requires Image(g, b, a) && i < |b|
    ensures var s := g.Move(|b|, At(b, i)); 0 <= s.x < |a| && At(a, s.x) == s
  {
  }

  /** The column of b whose queen g moves to column x. */
  ghost function Origin(g: Symmetry, b: Board, x: nat): (i: nat)
    requires Permutation(b) && g.Valid() && x < |b|
    ensures i < |b| && g.Move(|b|, At(b, i)).x == x
  {
    var back := if g.turns == 0 || g.turns == 3 then x else |b| - 1 - x;
    if (g.turns % 2 == 0) == g.mirrored then Column(b, back) else back
  }

  lemma ImageIsPermutation(g: Symmetry, b: Board, a: Board)
    requires Permutation(b) && g.Valid() && Image(g, b, a)
    ensures Permutation(a)
  {
    forall x, y | 0 <= x < y < |a| ensures 0 <= a[x] < |a| && a[x] != a[y] && 0 <= a[y] < |a| {
      var i, j := Origin(g, b, x), Origin(g, b, y);
      ImageAt(g, b, a, i);
      ImageAt(g, b, a, j);
    }
    forall x | 0 <= x < |a| ensures 0 <= a[x] < |a| {
      ImageAt(g, b, a, Origin(g, b, x));
    }
  }

  /** A symmetry has one image of a board. */
  lemma ImageUnique(g: Symmetry, b: Board, a: Board, c: Board)
    requires Permutation(b) && g.Valid() && Image(g, b, a) && Image(g, b, c)
    ensures a == c
  {
    forall x | 0 <= x < |b| ensures a[x] == c[x] {
      ImageAt(g, b, a, Origin(g, b, x));
      ImageAt(g, b, c, Origin(g, b, x));
    }
  }

  /** The image of a board under a symmetry. */
  ghost function Apply(g: Symmetry, b: Board): (a: Board)
    requires Permutation(b) && g.Valid()
    ensures Image(g, b, a) && Permutation(a)
  {
    var a := seq(|b|, x requires 0 <= x < |b| => g.Move(|b|, At(b, Origin(g, b, x))).y);
    ApplyIsImage(g, b, a);
    ImageIsPermutation(g, b, a);
    a
  }

  lemma ApplyIsImage(g: Symmetry, b: Board, a: Board)
    requires Permutation(b) && g.Valid() && |a| == |b|
    requires forall x :: 0 <= x < |b| ==> a[x] == g.Move(|b|, At(b, Origin(g, b, x))).y
    ensures Image(g, b, a)
  {
    forall i | 0 <= i < |b|
      ensures var s := g.Move(|b|, At(b, i)); 0 <= s.x < |a| && a[s.x] == s.y
    {
      assert Origin(g, b, g.Move(|b|, At(b, i)).x) == i;
    }
  }

  lemma ImageCompose(g: Symmetry, h: Symmetry, b: Board, a: Board, c: Board)
    requires g.Valid() && h.Valid() && Image(g, b, a) && Image(h, a, c)
    ensures h.After(g).Valid() && Image(h.After(g), b, c)
  {
    forall i | 0 <= i < |b|
      ensures var s := h.After(g).Move(|b|, At(b, i)); 0 <= s.x < |c| && c[s.x] == s.y
    {
      MoveAfter(g, h, |b|, At(b, i));
      ImageAt(g, b, a, i);
      ImageAt(h, a, c, g.Move(|b|, At(b, i)).x);
    }
  }

  lemma ImageInverse(g: Symmetry, b: Board, a: Board)
    requires Permutation(b) && g.Valid() && Image(g, b, a)
    ensures g.Inverse().Valid() && Image(g.Inverse(), a, b)
  {
    forall x | 0 <= x < |a|
      ensures var s := g.Inverse().Move(|a|, At(a, x)); 0 <= s.x < |b| && b[s.x] == s.y
    {
      var i := Origin(g, b, x);
      ImageAt(g, b, a, i);
      MoveBack(g, |b|, At(b, i));
    }
  }

  // ----- congruence

  /** a is one of the eight images of b. */
  ghost predicate Congruent(a: Board, b: Board) {
    exists g: Symmetry :: g.Valid() && Image(g, b, a)
  }

  lemma CongruentReflexive(b: Board)
    requires OnBoard(b, |b|)
    ensures Congruent(b, b)
  {
    assert Image(IDENTITY, b, b);
  }

  lemma CongruentSymmetric(a: Board, b: Board)
    requires Permutation(b) && Congruent(a, b)
    ensures Congruent(b, a)
  {
    var g: Symmetry :| g.Valid() && Image(g, b, a);
    ImageInverse(g, b, a);
  }

  lemma CongruentTransitive(a: Board, b: Board, c: Board)
    requires Congruent(a, b) && Congruent(b, c)
    ensures Congruent(a, c)
  {
    var h: Symmetry :| h.Valid() && Image(h, b, a);
    var g: Symmetry :| g.Valid() && Image(g, c, b);
    ImageCompose(g, h, c, b, a);
  }

  // ----- the laws unification relies on

  /** Four quarter turns lead back to the board. */
  lemma FourTurns(b: Board, r1: Board, r2: Board, r3: Board, r4: Board)
    requires Permutation(b)
    requires Image(QUARTER, b, r1) && Image(QUARTER, r1, r2) && Image(QUARTER, r2, r3) && Image(QUARTER, r3, r4)
    ensures r4 == b
  {
    var half := Symmetry(2, false);
    assert QUARTER.After(QUARTER) == half && half.After(half) == IDENTITY;
    ImageCompose(QUARTER, QUARTER, b, r1, r2);
    ImageCompose(QUARTER, QUARTER, r2, r3, r4);
    ImageCompose(half, half, b, r2, r4);
    IdentityImage(b, r4);
  }

  /** Two mirrorings lead back to the board. */
  lemma TwoMirrors(b: Board, m1: Board, m2: Board)
    requires Permutation(b) && Image(MIRROR, b, m1) && Image(MIRROR, m1, m2)
    ensures m2 == b
  {
    ImageCompose(MIRROR, MIRROR, b, m1, m2);
    IdentityImage(b, m2);
  }

  lemma IdentityImage(b: Board, a: Board)
    requires Image(IDENTITY, b, a)
    ensures a == b
  {
    forall i | 0 <= i < |b| ensures a[i] == b[i] { ImageAt(IDENTITY, b, a, i); }
  }

  /** Mirroring after a quarter turn is the inverse quarter turn after mirroring. */
  lemma MirrorAfterRotate(b: Board, r: Board, rm: Board, m: Board, mr: Board)
    requires Permutation(b)
    requires Image(QUARTER, b, r) && Image(MIRROR, r, rm)
    requires Image(MIRROR, b, m) && Image(QUARTER.Inverse(), m, mr)
    ensures rm == mr
  {
    var both := Symmetry(3, true);
    assert MIRROR.After(QUARTER) == both && QUARTER.Inverse().After(MIRROR) == both;
    ImageCompose(QUARTER, MIRROR, b, r, rm);
    ImageCompose(MIRROR, QUARTER.Inverse(), b, m, mr);
    ImageUnique(both, b, rm, mr);
  }

  /** Two squares on a common column, row or diagonal. */
  predicate Aligned(s: Square, t: Square) {
    s.x == t.x || s.y == t.y || s.x + s.y == t.x + t.y || s.x - s.y == t.x - t.y
  }

  lemma AlignedMoved(g: Symmetry, n: nat, s: Square, t: Square)
    requires g.Valid()
    ensures Aligned(g.Move(n, s), g.Move(n, t)) <==> Aligned(s, t)
  {
  }

  lemma SolutionAligned(b: Board, n: nat, i: nat, j: nat)
    requires Solution(b, n) && i < n && j < n
    ensures Aligned(At(b, i), At(b, j)) <==> i == j
  {
    assert i < j ==> !Attacks(b, i, j);
    assert j < i ==> !Attacks(b, j, i);
  }

  /** Every symmetry keeps a placement conflict-free. */
  lemma ImageSolution(g: Symmetry, b: Board, a: Board, n: nat)
    requires Solution(b, n) && g.Valid() && Image(g, b, a)
    ensures Solution(a, n)
  {
    SolutionIsPermutation(b, n);
    ImageIsPermutation(g, b, a);
    forall x, y | 0 <= x < y < n ensures !Attacks(a, x, y) {
      var i, j := Origin(g, b, x), Origin(g, b, y);
      ImageAt(g, b, a, i);
      ImageAt(g, b, a, j);
      SolutionAligned(b, n, i, j);
      AlignedMoved(g, n, At(b, i), At(b, j));
    }
  }

  /** No solution of size two or more is its own reflection: a queen off the axis attacks its
      reflection, and two queens on the axis attack each other. */
  lemma NoReflectionFixes(g: Symmetry, b: Board, n: nat)
    requires Solution(b, n) && n >= 2 && g.Valid() && g.mirrored
    ensures !Image(g, b, b)
  {
    assert !Attacks(b, 0, 1) && !Attacks(b, 0, n - 1);
    if g.turns % 2 == 0 {
      OffAxis(g, b, n, 0);
      OffAxis(g, b, n, 1);
    } else if Image(g, b, b) {
      ImageAt(g, b, b, 0);
      ImageAt(g, b, b, 1);
    }
  }

  /** A queen that a reflection moves to a square of the same board stood on a diagonal axis. */
  lemma OffAxis(g: Symmetry, b: Board, n: nat, i: nat)
    requires Solution(b, n) && g.Valid() && g.mirrored && g.turns % 2 == 0 && i < n
    ensures Image(g, b, b) ==> g.Move(n, At(b, i)) == At(b, i)
  {
    if Image(g, b, b) {
      ImageAt(g, b, b, i);
      SolutionAligned(b, n, i, g.Move(n, At(b, i)).x);
    }
  }
}
