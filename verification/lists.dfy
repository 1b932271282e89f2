/**
 List helpers shared by the pricing calculator (unchecking an add-on) and the
 accordion (closing a panel in multi-expand mode). Both use the same idiom on a
 list of string ids: keep every element that differs from the given id.
 */
module Lists {

  /** True iff `r` can be obtained from `s` by deleting elements, keeping the
      relative order of what remains. */
  predicate IsSubsequence<T(==)>(r: seq<T>, s: seq<T>)
    decreases |s|
  {
    if |r| == 0 then true
    else if |s| == 0 then false
    else if r[0] == s[0] then IsSubsequence(r[1..], s[1..])
    else IsSubsequence(r, s[1..])
  }

  /** No element occurs twice. */
  predicate NoDuplicates<T(==)>(s: seq<T>) {
    forall i, j :: 0 <= i < j < |s| ==> s[i] != s[j]
  }

  /** Filtering out one value: every occurrence of `x` is dropped, every
      other element is kept, in its original order and with its multiplicity. */
  function RemoveAll<T(==,!new)>(s: seq<T>, x: T): (r: seq<T>)
    ensures x !in r
    ensures forall y :: y in r <==> y in s && y != x
    ensures multiset(r) == multiset(s)[x := 0]
    ensures IsSubsequence(r, s)
    ensures x !in s ==> r == s
  {
    if |s| == 0 then []
    else if s[0] == x then
      var rest := RemoveAll(s[1..], x);
      assert s == [s[0]] + s[1..];
      SubsequenceSkipsNonMatching(rest, s);
      rest
    else
      var rest := RemoveAll(s[1..], x);
      assert s == [s[0]] + s[1..];
      assert ([s[0]] + rest)[1..] == rest;
      [s[0]] + rest
  }

  /** A subsequence of the tail whose head differs from `s[0]` is also a
      subsequence of `s`. */
  lemma SubsequenceSkipsNonMatching<T>(r: seq<T>, s: seq<T>)
    requires |s| > 0
    requires s[0] !in r
    requires IsSubsequence(r, s[1..])
    ensures IsSubsequence(r, s)
  {
  }

  /** Filtering distributes over concatenation. */
  lemma {:induction false} RemoveAllConcat<T(!new)>(a: seq<T>, b: seq<T>, x: T)
    ensures RemoveAll(a + b, x) == RemoveAll(a, x) + RemoveAll(b, x)
  {
    if |a| == 0 {
      assert a + b == b;
    } else {
      assert (a + b)[0] == a[0];
      assert (a + b)[1..] == a[1..] + b;
      RemoveAllConcat(a[1..], b, x);
    }
  }

  /** Filtering keeps a duplicate-free list duplicate-free. */
  lemma {:induction false} RemoveAllNoDuplicates<T(!new)>(s: seq<T>, x: T)
    requires NoDuplicates(s)
    ensures NoDuplicates(RemoveAll(s, x))
  {
    if |s| > 0 {
      assert NoDuplicates(s[1..]) by {
        forall i, j | 0 <= i < j < |s[1..]| ensures s[1..][i] != s[1..][j] {
          assert s[1..][i] == s[i + 1] && s[1..][j] == s[j + 1];
        }
      }
      RemoveAllNoDuplicates(s[1..], x);
      var rest := RemoveAll(s[1..], x);
      if s[0] != x {
        assert s[0] !in s[1..] by {
          forall k | 0 <= k < |s[1..]| ensures s[1..][k] != s[0] {
            assert s[1..][k] == s[k + 1];
          }
        }
        ConsNoDuplicates(s[0], rest);
      }
    }
  }

  /** Prepending an element absent from a duplicate-free list keeps it duplicate-free. */
  lemma ConsNoDuplicates<T>(h: T, t: seq<T>)
    requires h !in t
    requires NoDuplicates(t)
    ensures NoDuplicates([h] + t)
  {
  }

  /** Appending an element absent from a duplicate-free list keeps it duplicate-free. */
  lemma SnocNoDuplicates<T>(s: seq<T>, x: T)
    requires x !in s
    requires NoDuplicates(s)
    ensures NoDuplicates(s + [x])
  {
  }
}
