/** Order and uniqueness facts about sequences, shared by the three scripts. */
module Seqs {

  /** `a` is obtained from `b` by deleting elements, keeping their order. */
  predicate IsSubsequence<T(==)>(a: seq<T>, b: seq<T>)
    decreases |b|
  {
    if a == [] then true
    else if b == [] then false
    else if a[0] == b[0] then IsSubsequence(a[1..], b[1..])
    else IsSubsequence(a, b[1..])
  }

  /** No element occurs twice. */
  predicate Distinct<T(==)>(s: seq<T>)
  {
    forall i, j :: 0 <= i < j < |s| ==> s[i] != s[j]
  }

  /** A subsequence of a sequence is no longer than it, draws its elements from it,
      and inherits its freedom from duplicates. */
  lemma {:induction false} SubsequenceOfDistinct<T>(a: seq<T>, b: seq<T>)
    requires IsSubsequence(a, b)
    ensures |a| <= |b|
    ensures forall x :: x in a ==> x in b
    ensures Distinct(b) ==> Distinct(a)
    decreases |b|
  {
    if a == [] {
    } else if a[0] == b[0] {
      SubsequenceOfDistinct(a[1..], b[1..]);
      if Distinct(b) {
        assert Distinct(b[1..]) by {
          forall i, j | 0 <= i < j < |b[1..]| ensures b[1..][i] != b[1..][j] {
            assert b[1..][i] == b[i + 1] && b[1..][j] == b[j + 1];
          }
        }
        forall i, j | 0 <= i < j < |a| ensures a[i] != a[j] {
          if i == 0 {
            assert a[j] == a[1..][j - 1];
            assert a[j] in b[1..];
            var k :| 0 <= k < |b[1..]| && b[1..][k] == a[j];
            assert b[k + 1] == a[j];
          } else {
            assert a[i] == a[1..][i - 1] && a[j] == a[1..][j - 1];
          }
        }
      }
      forall x | x in a ensures x in b {
        if x != a[0] {
          var k :| 0 <= k < |a| && a[k] == x;
          assert x == a[1..][k - 1];
          assert x in b[1..];
          var m :| 0 <= m < |b[1..]| && b[1..][m] == x;
          assert b[m + 1] == x;
        }
      }
    } else {
      SubsequenceOfDistinct(a, b[1..]);
      if Distinct(b) {
        assert Distinct(b[1..]) by {
          forall i, j | 0 <= i < j < |b[1..]| ensures b[1..][i] != b[1..][j] {
            assert b[1..][i] == b[i + 1] && b[1..][j] == b[j + 1];
          }
        }
      }
    }
  }

  /** A subsequence of the tail is a subsequence of the whole. */
  lemma {:induction false} SkipHead<T>(a: seq<T>, b: seq<T>)
    requires b != [] && IsSubsequence(a, b[1..])
    ensures IsSubsequence(a, b)
    decreases |b|, 0
  {
    if a != [] && a[0] == b[0] {
      DropFirst(a, b[1..]);
    }
  }

  /** Dropping the first element of a subsequence keeps it a subsequence. */
  lemma {:induction false} DropFirst<T>(a: seq<T>, b: seq<T>)
    requires a != [] && IsSubsequence(a, b)
    ensures IsSubsequence(a[1..], b)
    decreases |b|, 1
  {
    if a[0] != b[0] {
      DropFirst(a, b[1..]);
    }
    SkipHead(a[1..], b);
  }
}
