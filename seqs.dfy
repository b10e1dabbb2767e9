/** Facts about sequences of names: duplicate-freedom, subsequences, and
    the two list comprehensions the commands use to select names. */
module Seqs {

  ghost predicate NoDup<T>(s: seq<T>)
  {
    forall i, j :: 0 <= i < j < |s| ==> s[i] != s[j]
  }

  /** `a` can be obtained from `b` by deleting elements. */
  ghost predicate Subseq<T>(a: seq<T>, b: seq<T>)
    decreases |b|
  {
    a == [] || (b != [] && ((a[0] == b[0] && Subseq(a[1..], b[1..])) || Subseq(a, b[1..])))
  }

  /** `r` is the subsequence of `s` holding exactly the occurrences of the
      elements of `within`, with their multiplicity. */
  ghost predicate Keeps(r: seq<string>, s: seq<string>, within: seq<string>)
  {
    Subseq(r, s) && forall x :: multiset(r)[x] == if x in within then multiset(s)[x] else 0
  }

  /** `r` is the subsequence of `s` holding exactly the occurrences of the
      elements not in `within`, with their multiplicity. */
  ghost predicate Drops(r: seq<string>, s: seq<string>, within: seq<string>)
  {
    Subseq(r, s) && forall x :: multiset(r)[x] == if x in within then 0 else multiset(s)[x]
  }

  /** `[x for x in s if x in within]` */
  function Keep(s: seq<string>, within: seq<string>): (r: seq<string>)
    ensures Keeps(r, s, within)
    ensures NoDup(s) ==> NoDup(r)
  {
    if s == [] then []
    else
      var rest := Keep(s[1..], within);
      assert s == [s[0]] + s[1..];
      if s[0] in within then
        var r := [s[0]] + rest;
        assert r[1..] == rest;
        assert NoDup(s) ==> s[0] !in s[1..];
        assert s[0] !in s[1..] ==> s[0] !in rest by {
          assert multiset(rest)[s[0]] <= multiset(s[1..])[s[0]];
        }
        r
      else
        rest
  }

  /** `[x for x in s if x not in within]` */
  function Drop(s: seq<string>, within: seq<string>): (r: seq<string>)
    ensures Drops(r, s, within)
  {
    if s == [] then []
    else
      var rest := Drop(s[1..], within);
      assert s == [s[0]] + s[1..];
      if s[0] !in within then
        var r := [s[0]] + rest;
        assert r[1..] == rest;
        r
      else
        rest
  }

  /** In a duplicate-free sequence every element occurs once. */
  lemma {:induction false} NoDupCount<T>(s: seq<T>, x: T)
    requires NoDup(s)
    ensures multiset(s)[x] == if x in s then 1 else 0
  {
    if s != [] {
      assert s == [s[0]] + s[1..];
      assert NoDup(s[1..]);
      NoDupCount(s[1..], x);
      assert s[0] !in s[1..];
    }
  }

  /** Two duplicate-free sequences with the same elements are permutations of each other. */
  lemma SameElementsPermutation<T>(a: seq<T>, b: seq<T>)
    requires NoDup(a) && NoDup(b)
    requires forall x :: x in a <==> x in b
    ensures multiset(a) == multiset(b)
  {
    forall x ensures multiset(a)[x] == multiset(b)[x] {
      NoDupCount(a, x);
      NoDupCount(b, x);
    }
  }

  lemma DropsWithinSame(r: seq<string>, s: seq<string>, a: seq<string>, b: seq<string>)
    requires Drops(r, s, a)
    requires forall x :: x in a <==> x in b
    ensures Drops(r, s, b)
  {
  }

  /** Nothing is dropped exactly when every element lies in `within`. */
  lemma DropsNothing(r: seq<string>, s: seq<string>, within: seq<string>)
    requires Drops(r, s, within)
    ensures r == [] <==> forall x :: x in s ==> x in within
  {
    if r != [] {
      assert multiset(r)[r[0]] > 0;
    }
    forall x | x in s && x !in within
      ensures r != []
    {
      assert multiset(r)[x] == multiset(s)[x] > 0;
    }
  }

  /** What is kept is exactly what lies in both. */
  lemma KeepsElements(r: seq<string>, s: seq<string>, within: seq<string>)
    requires Keeps(r, s, within)
    ensures forall x :: x in r <==> x in s && x in within
  {
    forall x
      ensures x in r <==> x in s && x in within
    {
      assert x in r <==> multiset(r)[x] > 0;
      assert x in s <==> multiset(s)[x] > 0;
    }
  }
}
