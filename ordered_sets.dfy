/**
 * JavaScript's `Set` as the library uses it: a duplicate-free sequence in
 * insertion order, which is also the order `forEach` visits.
 */
module OrderedSets {

  predicate NoDup<T(==, !new)>(s: seq<T>) {
    forall i, j :: 0 <= i < j < |s| ==> s[i] != s[j]
  }

  /** `set.add(x)`: appends `x` unless it is already there. */
  function Insert<T(==, !new)>(s: seq<T>, x: T): (r: seq<T>)
    ensures x in s ==> r == s
    ensures x !in s ==> r == s + [x]
    ensures NoDup(s) ==> NoDup(r)
    ensures forall y :: y in r <==> y in s || y == x
  {
    if x in s then s else s + [x]
  }

  /** `set.delete(x)`: drops `x`, keeping the order of the rest. */
  function Delete<T(==, !new)>(s: seq<T>, x: T): (r: seq<T>)
    ensures forall y :: y in r <==> y in s && y != x
    ensures NoDup(s) ==> NoDup(r)
    ensures x !in s ==> r == s
    ensures |r| <= |s|
  {
    if s == [] then []
    else if s[0] == x then Delete(s[1..], x)
    else
      var rest := Delete(s[1..], x);
      assert NoDup(s) ==> s[0] !in s[1..];
      [s[0]] + rest
  }

  /** Inserting an element that was not there and deleting it again gives the set back. */
  lemma {:induction false} DeleteInserted<T(!new)>(s: seq<T>, x: T)
    requires x !in s
    ensures Delete(Insert(s, x), x) == s
  {
    if s != [] {
      DeleteInserted(s[1..], x);
      assert (s + [x])[1..] == s[1..] + [x];
    } else {
      assert Delete([x], x) == Delete([], x);
    }
  }

  /** Deleting twice is deleting once. */
  lemma DeleteIdempotent<T(!new)>(s: seq<T>, x: T)
    ensures Delete(Delete(s, x), x) == Delete(s, x)
  {
  }
}
