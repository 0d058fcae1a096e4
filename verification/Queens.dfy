/** The backtracking enumerator (tests/apps/chess_advanced.c:126-137, 242-253 and 285-320). */
module Queens {
  import opened Common
  import opened Boards
  import opened Solutions

  // ----- lexicographic order

  ghost predicate LessAt(a: Board, b: Board, k: nat) {
    k < |a| && k < |b| && a[..k] == b[..k] && a[k] < b[k]
  }

  ghost predicate Less(a: Board, b: Board) {
    exists k: nat :: LessAt(a, b, k)
  }

  ghost predicate Descending(s: seq<Board>) {
    forall i, j :: 0 <= i < j < |s| ==> Less(s[j], s[i])
  }

  lemma LessIrreflexive(a: Board)
    ensures !Less(a, a)
  {
  }

  lemma DescendingDistinct(s: seq<Board>)
    requires Descending(s)
    ensures Distinct(s)
  {
    forall i, j | 0 <= i < j < |s| ensures s[i] != s[j] {
      assert Less(s[j], s[i]);
      LessIrreflexive(s[i]);
    }
  }

  // ----- solving

  /** The queen of column col attacks one to its left. */
  ghost predicate Conflicted(b: Board, col: nat)
    requires col < |b|
  {
    exists i: nat :: i < col && Attacks(b, i, col)
  }

  /** board_conflict: does the queen of column col attack one to its left? */
  method Conflict(cboard: array<int>, col: nat) returns (conflict: bool)
    requires col < cboard.Length
    ensures conflict == Conflicted(cboard[..], col)
  {
    for i := 0 to col
      invariant forall j: nat :: j < i ==> !Attacks(cboard[..], j, col)
    {
      if cboard[i] == cboard[col] || cboard[i] + i == cboard[col] + col || cboard[i] - i == cboard[col] - col {
        assert Attacks(cboard[..], i, col);
        return true;
      }
    }
    return false;
  }

  /** How many base size + 1 numbers lie above the board, read as such a number. */
  ghost function Above(b: Board, size: nat): int {
    if b == [] then 0 else Above(b[..|b| - 1], size) * (size + 1) + (size - b[|b| - 1])
  }

  lemma {:induction false} AboveBounded(b: Board, size: nat)
    requires forall i :: 0 <= i < |b| ==> b[i] <= size
    ensures Above(b, size) >= 0
  {
    if b != [] {
      AboveBounded(b[..|b| - 1], size);
      assert Above(b[..|b| - 1], size) * (size + 1) >= 0;
    }
  }

  lemma MulLess(x: int, y: int, base: nat)
    requires x < y && base > 0
    ensures x * base < y * base
  {
  }

  lemma {:induction false} AboveSuffix(p: Board, q: Board, s: Board, size: nat)
    requires Above(p, size) < Above(q, size)
    ensures Above(p + s, size) < Above(q + s, size)
  {
    if s == [] {
      assert p + s == p && q + s == q;
    } else {
      var t := s[..|s| - 1];
      AboveSuffix(p, q, t, size);
      assert (p + s)[..|p + s| - 1] == p + t && (q + s)[..|q + s| - 1] == q + t;
      MulLess(Above(p + t, size), Above(q + t, size), size + 1);
    }
  }

  /** Trying the next row in column c moves the board up. */
  lemma AboveIncrement(b: Board, c: nat, size: nat)
    requires c < |b|
    ensures Above(b[c := b[c] + 1], size) < Above(b, size)
  {
    var p, q := b[..c] + [b[c] + 1], b[..c + 1];
    assert p[..c] == b[..c] && q[..c] == b[..c];
    AboveSuffix(p, q, b[c + 1..], size);
    assert b == q + b[c + 1..] && b[c := b[c] + 1] == p + b[c + 1..];
  }

  /** Clearing an exhausted column c + 1 and trying the next row in column c moves the board up. */
  lemma AboveRetreat(b: Board, c: nat, size: nat)
    requires c + 1 < |b| && b[c + 1] == size
    ensures Above(b[c + 1 := 0][c := b[c] + 1], size) < Above(b, size)
  {
    var p, q := b[..c] + [b[c] + 1, 0], b[..c + 2];
    assert p[..c + 1] == b[..c] + [b[c] + 1] && p[..c + 1][..c] == b[..c];
    assert q[..c + 1] == b[..c + 1] && b[..c + 1][..c] == b[..c];
    var v := Above(b[..c], size);
    assert Above(p[..c + 1], size) == v * (size + 1) + (size - b[c] - 1);
    assert Above(q[..c + 1], size) == v * (size + 1) + (size - b[c]);
    AboveSuffix(p, q, b[c + 2..], size);
    assert b == q + b[c + 2..] && b[c + 1 := 0][c := b[c] + 1] == p + b[c + 2..];
  }

  /** The state of the search: the columns left of col hold a conflict-free placement, column col
      holds the row to try next, the columns to its right are clear. */
  ghost predicate Searching(b: Board, col: nat, size: nat) {
    && |b| == size && col < size
    && (forall i :: 0 <= i < col ==> 0 <= b[i] < size)
    && 0 <= b[col] <= size
    && (forall i :: col < i < size ==> b[i] == 0)
    && ConflictFree(b, col)
  }

  /** The stored boards are the solutions below the frontier, newest first. */
  ghost predicate Stored(list: seq<Board>, b: Board, col: nat, size: nat)
    requires col < |b|
  {
    && Descending(list)
    && forall s :: s in list <==> Solution(s, size) && Less(s, b[..col + 1])
  }

  /** When column col is exhausted, everything below the frontier stays below it. */
  lemma RetreatFrontier(s: Board, b: Board, col: nat, size: nat)
    requires OnBoard(s, size) && |b| == size && 0 < col < size && b[col] == size
    ensures Less(s, b[..col + 1]) <==> Less(s, b[col := 0][col - 1 := b[col - 1] + 1][..col])
  {
    var f, g := b[..col + 1], b[col := 0][col - 1 := b[col - 1] + 1][..col];
    if Less(s, f) {
      var k: nat :| LessAt(s, f, k);
      assert f[..k] == b[..k];
      if k < col - 1 {
        assert LessAt(s, g, k);
      } else {
        assert s[..col - 1] == g[..col - 1] by {
          assert s[..col - 1] == s[..k][..col - 1];
        }
        assert s[col - 1] <= b[col - 1] by {
          if k == col { assert s[..col][col - 1] == b[..col][col - 1]; }
        }
        assert LessAt(s, g, col - 1);
      }
    }
    if Less(s, g) {
      var k: nat :| LessAt(s, g, k);
      assert g[..k] == f[..k];
      if k < col - 1 || s[k] < b[k] {
        assert LessAt(s, f, k);
      } else {
        assert s[..col] == s[..k] + [s[k]] && f[..col] == f[..k] + [f[k]];
        assert LessAt(s, f, col);
      }
    }
  }

  /** Moving on to a clear column moves no board below the frontier. */
  lemma AdvanceFrontier(s: Board, b: Board, col: nat, size: nat)
    requires OnBoard(s, size) && |b| == size && col + 1 < size && b[col + 1] == 0
    ensures Less(s, b[..col + 1]) <==> Less(s, b[..col + 2])
  {
    var f, g := b[..col + 1], b[..col + 2];
    if Less(s, f) {
      var k: nat :| LessAt(s, f, k);
      assert f[..k] == g[..k];
      assert LessAt(s, g, k);
    }
    if Less(s, g) {
      var k: nat :| LessAt(s, g, k);
      assert f[..k] == g[..k];
      assert LessAt(s, f, k);
    }
  }

  /** Trying the next row adds exactly the boards that start with the row just tried. */
  lemma NextRowFrontier(s: Board, b: Board, col: nat, size: nat)
    requires OnBoard(s, size) && |b| == size && col < size
    ensures Less(s, b[col := b[col] + 1][..col + 1]) <==> Less(s, b[..col + 1]) || s[..col + 1] == b[..col + 1]
  {
    var f, g := b[..col + 1], b[col := b[col] + 1][..col + 1];
    if Less(s, f) {
      var k: nat :| LessAt(s, f, k);
      assert f[..k] == g[..k];
      assert LessAt(s, g, k);
    }
    if s[..col + 1] == f {
      assert s[..col] == s[..col + 1][..col] && g[..col] == f[..col] && s[col] == f[col];
      assert LessAt(s, g, col);
    }
    if Less(s, g) {
      var k: nat :| LessAt(s, g, k);
      assert f[..k] == g[..k];
      if k < col || s[k] < b[k] {
        assert LessAt(s, f, k);
      } else {
        assert s[..col + 1] == s[..col] + [s[col]] && f == f[..col] + [f[col]];
      }
    }
  }

  /** A conflict in a prefix is a conflict in every board that starts with it. */
  lemma ConflictPrefix(s: Board, b: Board, col: nat, size: nat, i: nat)
    requires |b| == |s| == size && i < col < size && s[..col + 1] == b[..col + 1] && Attacks(b, i, col)
    ensures !Solution(s, size)
  {
    assert s[i] == s[..col + 1][i] && s[col] == s[..col + 1][col];
    assert Attacks(s, i, col);
  }

  lemma ExtendConflictFree(b: Board, col: nat)
    requires col < |b| && ConflictFree(b, col)
    requires !Conflicted(b, col)
    ensures ConflictFree(b, col + 1)
  {
  }

  lemma SameConflictFree(b: Board, c: Board, col: nat)
    requires col <= |b| && col <= |c| && ConflictFree(b, col) && forall i :: 0 <= i < col ==> b[i] == c[i]
    ensures ConflictFree(c, col)
  {
    forall i, j | 0 <= i < j < col ensures !Attacks(c, i, j) {
      assert !Attacks(b, i, j);
    }
  }

  // The four branches of the search loop, each keeping the stored boards exact.

  lemma StoredRetreat(list: seq<Board>, b: Board, col: nat, size: nat)
    requires Searching(b, col, size) && Stored(list, b, col, size) && col > 0 && b[col] == size
    ensures var c := b[col := 0][col - 1 := b[col - 1] + 1];
      Searching(c, col - 1, size) && Stored(list, c, col - 1, size)
  {
    var c := b[col := 0][col - 1 := b[col - 1] + 1];
    SameConflictFree(b, c, col - 1);
    forall s ensures s in list <==> Solution(s, size) && Less(s, c[..col]) {
      if Solution(s, size) { RetreatFrontier(s, b, col, size); }
    }
  }

  lemma StoredAdvance(list: seq<Board>, b: Board, col: nat, size: nat)
    requires Searching(b, col, size) && Stored(list, b, col, size) && b[col] < size && col + 1 < size
    requires !Conflicted(b, col)
    ensures Searching(b, col + 1, size) && Stored(list, b, col + 1, size)
  {
    ExtendConflictFree(b, col);
    forall s ensures s in list <==> Solution(s, size) && Less(s, b[..col + 2]) {
      if Solution(s, size) { AdvanceFrontier(s, b, col, size); }
    }
  }

  lemma StoredSolution(list: seq<Board>, b: Board, col: nat, size: nat)
    requires Searching(b, col, size) && Stored(list, b, col, size) && b[col] < size && col + 1 == size
    requires !Conflicted(b, col)
    ensures var c := b[col := b[col] + 1];
      Searching(c, col, size) && Stored([b] + list, c, col, size)
  {
    var c := b[col := b[col] + 1];
    ExtendConflictFree(b, col);
    SameConflictFree(b, c, col);
    assert b[..size] == b;
    forall j | 0 <= j < |list| ensures Less(list[j], b) {
      assert list[j] in list;
    }
    forall s ensures s in [b] + list <==> Solution(s, size) && Less(s, c[..col + 1]) {
      if Solution(s, size) {
        NextRowFrontier(s, b, col, size);
        assert s[..size] == s;
      }
      assert s in [b] + list <==> s == b || s in list;
    }
  }

  lemma StoredConflict(list: seq<Board>, b: Board, col: nat, size: nat)
    requires Searching(b, col, size) && Stored(list, b, col, size) && b[col] < size
    requires Conflicted(b, col)
    ensures var c := b[col := b[col] + 1];
      Searching(c, col, size) && Stored(list, c, col, size)
  {
    var c := b[col := b[col] + 1];
    SameConflictFree(b, c, col);
    var i: nat :| i < col && Attacks(b, i, col);
    forall s ensures s in list <==> Solution(s, size) && Less(s, c[..col + 1]) {
      if Solution(s, size) {
        NextRowFrontier(s, b, col, size);
        if s[..col + 1] == b[..col + 1] { ConflictPrefix(s, b, col, size, i); }
      }
    }
  }

  lemma StoredAll(list: seq<Board>, b: Board, size: nat)
    requires Searching(b, 0, size) && Stored(list, b, 0, size) && b[0] == size
    ensures forall s :: s in list <==> Solution(s, size)
  {
    forall s | Solution(s, size) ensures s in list {
      assert LessAt(s, b[..1], 0);
    }
  }

  lemma StoredNone(b: Board, size: nat)
    requires |b| == size && size >= 1 && forall i :: 0 <= i < size ==> b[i] == 0
    ensures Searching(b, 0, size) && Stored([], b, 0, size)
  {
    forall s ensures !(Solution(s, size) && Less(s, b[..1])) {
    }
  }

  /** The search between two iterations: board, column and stored solutions. */
  datatype Search = Search(b: Board, col: nat, list: seq<Board>) {
    ghost predicate Valid(size: nat) {
      Searching(b, col, size) && Stored(list, b, col, size)
    }

    predicate Exhausted(size: nat) {
      col == 0 && |b| > 0 && b[0] == size
    }

    /** One iteration of the search loop. */
    ghost function Next(size: nat): Search
      requires col < |b| && !Exhausted(size)
    {
      if b[col] == size then Search(b[col := 0][col - 1 := b[col - 1] + 1], col - 1, list)
      else if Conflicted(b, col) then Search(b[col := b[col] + 1], col, list)
      else if col == size - 1 then Search(b[col := b[col] + 1], col, [b] + list)
      else Search(b, col + 1, list)
    }
  }

  /** Going to another column. */
  lemma MoveKeeps(s: Search, size: nat)
    requires s.Valid(size) && !s.Exhausted(size)
    requires s.b[s.col] == size || (!Conflicted(s.b, s.col) && s.col != size - 1)
    ensures s.Next(size).Valid(size)
  {
    if s.b[s.col] == size {
      StoredRetreat(s.list, s.b, s.col, size);
    } else {
      StoredAdvance(s.list, s.b, s.col, size);
    }
  }

  /** Trying the next row of the same column. */
  lemma RaiseKeeps(s: Search, size: nat)
    requires s.Valid(size) && s.b[s.col] != size && (Conflicted(s.b, s.col) || s.col == size - 1)
    ensures s.Next(size).Valid(size)
  {
    if Conflicted(s.b, s.col) {
      StoredConflict(s.list, s.b, s.col, size);
    } else {
      StoredSolution(s.list, s.b, s.col, size);
    }
  }

  /** Every iteration keeps the stored boards exact. */
  lemma NextKeeps(s: Search, size: nat)
    requires s.Valid(size) && !s.Exhausted(size)
    ensures s.Next(size).Valid(size)
  {
    if s.b[s.col] != size && (Conflicted(s.b, s.col) || s.col == size - 1) {
      RaiseKeeps(s, size);
    } else {
      MoveKeeps(s, size);
    }
  }

  /** The search came nearer to its end: the board moved up, or it stayed and the column moved right. */
  ghost predicate Nearer(s: Search, t: Search, size: nat) {
    Above(t.b, size) < Above(s.b, size) || (t.b == s.b && t.col > s.col)
  }

  lemma NextProgresses(s: Search, size: nat)
    requires s.col < |s.b| && !s.Exhausted(size)
    ensures Nearer(s, s.Next(size), size)
  {
    if s.b[s.col] == size {
      AboveRetreat(s.b, s.col - 1, size);
    } else {
      AboveIncrement(s.b, s.col, size);
    }
  }

  /** One iteration keeps the search valid and brings it nearer to its end. */
  lemma IterationKeeps(s: Search, size: nat)
    requires s.Valid(size) && !s.Exhausted(size)
    ensures s.Next(size).Valid(size) && Nearer(s, s.Next(size), size) && Above(s.b, size) >= 0 && s.col < size
  {
    NextKeeps(s, size);
    NextProgresses(s, size);
    AboveBounded(s.b, size);
  }

  ghost function Stacked(found: Option<Board>, list: seq<Board>): seq<Board> {
    if found.Some? then [found.value] + list else list
  }

  /** The body of the search loop: found is the copy of the board to be stored, if there is one;
      done tells that the first column is exhausted. */
  method Iterate(cboard: array<int>, col: nat, size: nat, ghost s: Search)
    returns (col': nat, found: Option<Board>, done: bool)
    requires cboard.Length == size && col < size && cboard[col] <= size
    requires s.b == cboard[..] && s.col == col
    modifies cboard
    ensures done == s.Exhausted(size)
    ensures !done ==> s.Next(size) == Search(cboard[..], col', Stacked(found, s.list))
  {
    ghost var b := cboard[..];
    col', found, done := col, None, false;
    if cboard[col] > size - 1 {
      cboard[col] := 0;
      if col == 0 {
        return col, None, true;
      }
      col' := col - 1;
      cboard[col'] := cboard[col'] + 1;
      assert cboard[..] == b[col := 0][col' := b[col'] + 1];
    } else {
      var conflict := Conflict(cboard, col);
      if conflict {
        cboard[col] := cboard[col] + 1;
        assert cboard[..] == b[col := b[col] + 1];
      } else if col == size - 1 {
        found := Some(cboard[..]);
        cboard[col] := cboard[col] + 1;
        assert cboard[..] == b[col := b[col] + 1];
      } else {
        col' := col + 1;
      }
    }
  }

  /** sol_store: put a board in front of the list. */
  method Store(sol: SolutionList, b: Board)
    requires sol.Valid()
    modifies sol
    ensures sol.Valid() && sol.Contents() == [b] + old(sol.Contents())
    ensures forall i :: 0 <= i < |sol.spine| ==> fresh(sol.spine[i]) || sol.spine[i] in old(sol.spine)
  {
    sol.Push(b);
    assert forall i :: 0 < i < |sol.spine| ==> sol.spine[i] == sol.spine[1..][i - 1];
  }

  /** solve_queensproblem: every conflict-free placement is stored exactly once, the list runs
      through them in descending lexicographic order, and the search ends. */
  method Solve(size: nat) returns (sol: SolutionList, solutions: nat)
    requires size >= 1
    ensures sol.Valid() && fresh(sol) && forall i :: 0 <= i < |sol.spine| ==> fresh(sol.spine[i])
    ensures Descending(sol.Contents())
    ensures forall b :: b in sol.Contents() <==> Solution(b, size)
    ensures solutions == |sol.Contents()|
  {
    var cboard := new int[size](_ => 0);
    var col: nat := 0;
    solutions := 0;
    sol := new SolutionList();
    ghost var s := Search(cboard[..], 0, []);
    StoredNone(s.b, size);
    while true
      invariant sol.Valid() && fresh(sol) && fresh(cboard)
      invariant forall i :: 0 <= i < |sol.spine| ==> fresh(sol.spine[i])
      invariant s.b == cboard[..] && s.col == col && s.list == sol.Contents() && s.Valid(size)
      invariant solutions == |sol.Contents()|
      decreases Above(s.b, size), size - s.col
    {
      var found, done;
      col, found, done := Iterate(cboard, col, size, s);
      if done {
        StoredAll(s.list, s.b, size);
        break;
      }
      IterationKeeps(s, size);
      s := s.Next(size);
      if found.Some? {
        solutions := solutions + 1;
        Store(sol, found.value);
      }
    }
  }
}
