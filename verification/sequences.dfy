/** Keys of a dictionary in order of insertion, and sizes of sets. */
module Sequences {

  predicate Distinct<T(==)>(s: seq<T>) {
    forall i, j :: 0 <= i < j < |s| ==> s[i] != s[j]
  }

  /** `a` was inserted before `b`. */
  predicate Before(keys: seq<string>, a: string, b: string) {
    exists i, j :: 0 <= i < j < |keys| && keys[i] == a && keys[j] == b
  }

  lemma BeforeStays(keys: seq<string>, last: string, a: string, b: string)
    requires Before(keys, a, b)
    ensures Before(keys + [last], a, b)
  {
    var i, j :| 0 <= i < j < |keys| && keys[i] == a && keys[j] == b;
    assert (keys + [last])[i] == a && (keys + [last])[j] == b;
  }

  lemma BeforeLast(keys: seq<string>, last: string, a: string)
    requires a in keys
    ensures Before(keys + [last], a, last)
  {
    var i :| 0 <= i < |keys| && keys[i] == a;
    assert (keys + [last])[i] == a && (keys + [last])[|keys|] == last;
  }

  lemma NotBeforeItself(keys: seq<string>, a: string)
    requires Distinct(keys)
    ensures !Before(keys, a, a)
  {
  }

  lemma NotBoth(keys: seq<string>, a: string, b: string)
    requires Distinct(keys) && a != b
    ensures !(Before(keys, a, b) && Before(keys, b, a))
  {
  }

  lemma SubsetSize<T>(a: set<T>, b: set<T>)
    requires a <= b
    ensures |a| <= |b|
  {
    assert b == a + (b - a);
  }

  lemma SplitLast<T>(s: seq<T>)
    requires s != []
    ensures s == s[..|s| - 1] + [s[|s| - 1]]
  {
  }
}
