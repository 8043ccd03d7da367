/** Inserting an element into a sequence, the step of both sorts. */
module Insertion {

  function InsertAt<T>(s: seq<T>, x: T, j: nat): seq<T>
    requires j <= |s|
  {
    s[..j] + [x] + s[j..]
  }

  lemma InsertedAt<T>(s: seq<T>, x: T, j: nat, a: nat)
    requires j <= |s| && a <= |s|
    ensures InsertAt(s, x, j)[a] == if a < j then s[a] else if a == j then x else s[a - 1]
  {}

  lemma InsertionPermutes<T>(s: seq<T>, x: T, j: nat)
    requires j <= |s|
    ensures multiset(InsertAt(s, x, j)) == multiset(s) + multiset{x}
  {
    assert s == s[..j] + s[j..];
  }
}
