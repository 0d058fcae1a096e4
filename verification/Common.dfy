/** Datatypes, constants and facts shared by the modules of this project. */
module Common {

  datatype Option<+T> = None | Some(value: T)

  // error numbers
  const EINVAL := 22
  const ENOSYS := 38
  const EADDRINUSE := 98
  const ECONNREFUSED := 111

  /** Nothing occurs twice. */
  ghost predicate Distinct<T>(s: seq<T>) {
    forall i, j :: 0 <= i < j < |s| ==> s[i] != s[j]
  }

  /** A subset is no larger. */
  lemma {:induction false} SubsetCount<T>(a: set<T>, b: set<T>)
    requires a <= b
    ensures |a| <= |b|
    decreases a
  {
    if x :| x in a {
      SubsetCount(a - {x}, b - {x});
    }
  }

  lemma Associative<T>(a: seq<T>, b: seq<T>, c: seq<T>)
    ensures (a + b) + c == a + (b + c)
  {
  }
}
