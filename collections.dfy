/**
 * Lists and the sets they are collected into: the schema files declare the
 * same collections once as `Vec` (ordered, repeats kept) and once as
 * `HashSet` (unordered, each member once).
 */
module Collections {
  /** The members of a list, as a set. */
  function SetOf<T(==,!new)>(s: seq<T>): (r: set<T>)
    ensures forall x :: x in r <==> x in s
  {
    set x | x in s
  }

  /** No member occurs twice. */
  predicate NoDuplicates<T(==,!new)>(s: seq<T>)
  {
    forall i, j :: 0 <= i < j < |s| ==> s[i] != s[j]
  }

  /** A list starting with `x` is free of repeats exactly when its rest is and does not hold `x`. */
  lemma NoDuplicatesCons<T(!new)>(x: T, t: seq<T>)
    ensures NoDuplicates([x] + t) <==> x !in t && NoDuplicates(t)
  {
    var s := [x] + t;
    if NoDuplicates(s) {
      forall i, j | 0 <= i < j < |t| ensures t[i] != t[j] {
        assert t[i] == s[i + 1] && t[j] == s[j + 1];
      }
    }
    if x in t {
      var j :| 0 <= j < |t| && t[j] == x;
      assert s[0] == s[j + 1];
    }
    if x !in t && NoDuplicates(t) {
      forall i, j | 0 <= i < j < |s| ensures s[i] != s[j] {
        assert s[j] == t[j - 1];
        if i > 0 {
          assert s[i] == t[i - 1];
        }
      }
    }
  }

  /**
   * Collecting a list into a set never adds members, and keeps the count
   * exactly when the list holds no repeats.
   */
  lemma {:induction false} CardSetOf<T(!new)>(s: seq<T>)
    ensures |SetOf(s)| <= |s|
    ensures |SetOf(s)| == |s| <==> NoDuplicates(s)
  {
    if s != [] {
      var x, t := s[0], s[1..];
      assert s == [x] + t;
      CardSetOf(t);
      NoDuplicatesCons(x, t);
      assert SetOf(s) == {x} + SetOf(t);
      if x in t {
        assert SetOf(s) == SetOf(t);
      } else {
        assert |SetOf(s)| == |SetOf(t)| + 1;
      }
    }
  }
}
