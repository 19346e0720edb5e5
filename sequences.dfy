/** Sequence facts the draw relies on: distinctness, JavaScript's `slice`, and multiplicities. */
module Sequences {

  /** No element occurs twice. */
  predicate Distinct<T(==)>(s: seq<T>) {
    forall i, j :: 0 <= i < j < |s| ==> s[i] != s[j]
  }

  /** The end index `Array.prototype.slice(0, end)` stops at, for an integer `end`:
   * a negative end counts back from the length, and both ends are clamped to `[0, n]`. */
  function SliceEnd(n: nat, end: int): (k: nat)
    ensures k <= n
    ensures 0 <= end <= n ==> k == end
    ensures end > n ==> k == n
    ensures end < 0 ==> k + (-end) == n || (k == 0 && -end >= n)
  {
    if end < 0 then (if n + end < 0 then 0 else n + end)
    else if end > n then n
    else end
  }

  /** `s.slice(0, end)`: a prefix of `s` that is never longer than `s`, whatever `end` is. */
  function SliceTo<T>(s: seq<T>, end: int): (r: seq<T>)
    ensures |r| == SliceEnd(|s|, end)
    ensures forall i :: 0 <= i < |r| ==> r[i] == s[i]
  {
    s[..SliceEnd(|s|, end)]
  }

  /** In a sequence without repetitions every value occurs at most once. */
  lemma {:induction false} DistinctMultiplicity<T>(s: seq<T>, x: T)
    requires Distinct(s)
    ensures multiset(s)[x] <= 1
  {
    if s != [] {
      var tail := s[1..];
      assert s == [s[0]] + tail;
      assert Distinct(tail) by {
        forall i, j | 0 <= i < j < |tail| ensures tail[i] != tail[j] {
          assert tail[i] == s[i + 1] && tail[j] == s[j + 1];
        }
      }
      DistinctMultiplicity(tail, x);
      if x == s[0] {
        assert x !in tail by {
          forall i | 0 <= i < |tail| ensures tail[i] != x {
            assert tail[i] == s[i + 1];
          }
        }
      }
    }
  }

  /** A value that occurs at two positions occurs at least twice. */
  lemma RepeatMultiplicity<T>(s: seq<T>, i: nat, j: nat)
    requires i < j < |s| && s[i] == s[j]
    ensures multiset(s)[s[i]] >= 2
  {
    var x := s[i];
    assert s == s[..j] + s[j..];
    assert s[..j][i] == x;
    assert s[j..][0] == x;
    assert multiset(s[..j])[x] >= 1;
    assert multiset(s[j..])[x] >= 1;
  }

  /** A reordering of a sequence without repetitions has none either. */
  lemma PermutationDistinct<T>(s: seq<T>, t: seq<T>)
    requires Distinct(s) && multiset(t) == multiset(s)
    ensures Distinct(t)
  {
    forall i, j | 0 <= i < j < |t| ensures t[i] != t[j] {
      if t[i] == t[j] {
        RepeatMultiplicity(t, i, j);
        DistinctMultiplicity(s, t[i]);
        assert false;
      }
    }
  }

  /** A prefix of a reordering of `s` takes no value more often than `s` holds it. */
  lemma PrefixSubMultiset<T>(s: seq<T>, t: seq<T>, k: nat)
    requires multiset(t) == multiset(s) && k <= |t|
    ensures multiset(t[..k]) <= multiset(s)
    ensures forall i :: 0 <= i < k ==> t[i] in s
  {
    assert t == t[..k] + t[k..];
    forall i | 0 <= i < k ensures t[i] in s {
      assert t[i] in multiset(t);
    }
  }
}
