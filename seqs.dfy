/**
 * The list operations behind the handlers: `Array.prototype.filter`, removal
 * of every entry equal to a value or carrying a key, and "order-preserving
 * subsequence", the relation every filter result has to its input.
 */
module Seqs {

  /** `a` is `b` with some entries deleted and the rest kept in order. */
  predicate Subseq<T(==,!new)>(a: seq<T>, b: seq<T>)
    decreases |b|
  {
    if a == [] then true
    else if b == [] then false
    else (a[0] == b[0] && Subseq(a[1..], b[1..])) || Subseq(a, b[1..])
  }

  /** Every sequence is a subsequence of itself. */
  lemma {:induction false} SubseqRefl<T(!new)>(s: seq<T>)
    ensures Subseq(s, s)
    decreases |s|
  {
    if s != [] {
      SubseqRefl(s[1..]);
    }
  }

  /** A subsequence is never longer, and holds only entries of the original. */
  lemma {:induction false} SubseqBounds<T(!new)>(a: seq<T>, b: seq<T>)
    requires Subseq(a, b)
    ensures |a| <= |b|
    ensures forall x :: x in a ==> x in b
    decreases |b|
  {
    if a != [] {
      assert a == [a[0]] + a[1..];
      if a[0] == b[0] && Subseq(a[1..], b[1..]) {
        SubseqBounds(a[1..], b[1..]);
        assert b == [b[0]] + b[1..];
      } else {
        SubseqBounds(a, b[1..]);
      }
    }
  }

  /** `s.filter(p)`: the entries satisfying `p`, in their order. */
  function Filter<T>(s: seq<T>, p: T -> bool): seq<T>
    decreases |s|
  {
    if s == [] then []
    else if p(s[0]) then [s[0]] + Filter(s[1..], p)
    else Filter(s[1..], p)
  }

  /**
   * What `filter` promises: an order-preserving subsequence whose entries all
   * pass, holding each passing value exactly as often as the input does.
   */
  lemma {:induction false} FilterSpec<T(!new)>(s: seq<T>, p: T -> bool)
    ensures Subseq(Filter(s, p), s)
    ensures forall i :: 0 <= i < |Filter(s, p)| ==> p(Filter(s, p)[i])
    ensures forall x :: multiset(Filter(s, p))[x] == if p(x) then multiset(s)[x] else 0
    decreases |s|
  {
    if s != [] {
      FilterSpec(s[1..], p);
      var t := Filter(s[1..], p);
      assert s == [s[0]] + s[1..];
      if p(s[0]) {
        var r := [s[0]] + t;
        assert r[1..] == t;
        assert Filter(s, p) == r;
      } else {
        assert Filter(s, p) == t;
        SubseqSkip(t, s);
      }
    }
  }

  /** Skipping the first entry of `b` keeps a subsequence of `b[1..]` a subsequence of `b`. */
  lemma SubseqSkip<T(!new)>(a: seq<T>, b: seq<T>)
    requires b != [] && Subseq(a, b[1..])
    ensures Subseq(a, b)
  {
  }

  /** Filtering a list whose entries all pass returns the list itself. */
  lemma {:induction false} FilterKeepsAll<T(!new)>(s: seq<T>, p: T -> bool)
    ensures (forall i :: 0 <= i < |s| ==> p(s[i])) ==> Filter(s, p) == s
    decreases |s|
  {
    if s != [] {
      FilterKeepsAll(s[1..], p);
      assert forall i :: 1 <= i < |s| ==> s[1..][i - 1] == s[i];
    }
  }

  /** Filtering distributes over concatenation. */
  lemma {:induction false} FilterAppend<T(!new)>(a: seq<T>, b: seq<T>, p: T -> bool)
    ensures Filter(a + b, p) == Filter(a, p) + Filter(b, p)
    decreases |a|
  {
    if a != [] {
      assert (a + b)[0] == a[0];
      assert (a + b)[1..] == a[1..] + b;
      FilterAppend(a[1..], b, p);
      if p(a[0]) {
        assert Filter(a + b, p) == [a[0]] + Filter(a[1..] + b, p);
      }
    } else {
      assert a + b == b;
    }
  }

  /** The number of entries of `s` whose key is `k`. */
  function CountKey<T, K(==)>(s: seq<T>, key: T -> K, k: K): (n: nat)
    ensures n <= |s|
    decreases |s|
  {
    if s == [] then 0 else (if key(s[0]) == k then 1 else 0) + CountKey(s[1..], key, k)
  }

  /** Keeping the entries whose key is not `k` drops exactly CountKey of them. */
  lemma {:induction false} FilterCountKey<T(!new), K>(s: seq<T>, p: T -> bool, key: T -> K, k: K)
    requires forall y :: p(y) == (key(y) != k)
    ensures |Filter(s, p)| == |s| - CountKey(s, key, k)
    decreases |s|
  {
    if s != [] {
      FilterCountKey(s[1..], p, key, k);
    }
  }

  /** `s.filter(y => y !== x)`: every entry equal to `x` removed, the rest in order. */
  function Without<T(==,!new)>(s: seq<T>, x: T): (r: seq<T>)
    ensures Subseq(r, s)
    ensures x !in r
    ensures forall y :: y != x ==> multiset(r)[y] == multiset(s)[y]
    ensures x !in s ==> r == s
  {
    var p := (y: T) => y != x;
    FilterSpec(s, p);
    FilterKeepsAll(s, p);
    Filter(s, p)
  }

  /** Removing a value that was just appended to a list without it restores the list. */
  lemma WithoutAppended<T(!new)>(s: seq<T>, x: T)
    requires x !in s
    ensures Without(s + [x], x) == s
  {
    var p := (y: T) => y != x;
    FilterAppend(s, [x], p);
    FilterKeepsAll(s, p);
    assert Filter([x], p) == [];
  }

  /** `s.filter(y => key(y) !== k)`: every entry whose key is `k` removed, the rest in order. */
  function WithoutKey<T(==,!new), K(==)>(s: seq<T>, key: T -> K, k: K): (r: seq<T>)
    ensures Subseq(r, s)
    ensures forall i :: 0 <= i < |r| ==> key(r[i]) != k
    ensures forall y :: key(y) != k ==> multiset(r)[y] == multiset(s)[y]
    ensures |r| == |s| - CountKey(s, key, k)
  {
    var p := (y: T) => key(y) != k;
    FilterSpec(s, p);
    FilterCountKey(s, p, key, k);
    Filter(s, p)
  }

  /** No two entries of `s` are equal. */
  predicate NoDuplicates<T(==,!new)>(s: seq<T>) {
    forall i, j :: 0 <= i < j < |s| ==> s[i] != s[j]
  }

  /** Removing entries from a duplicate-free list leaves it duplicate-free. */
  lemma {:induction false} SubseqNoDuplicates<T(!new)>(a: seq<T>, b: seq<T>)
    requires Subseq(a, b) && NoDuplicates(b)
    ensures NoDuplicates(a)
    decreases |b|
  {
    if a != [] {
      assert NoDuplicates(b[1..]) by {
        forall i, j | 0 <= i < j < |b[1..]| ensures b[1..][i] != b[1..][j] {
          assert b[1..][i] == b[i + 1] && b[1..][j] == b[j + 1];
        }
      }
      if a[0] == b[0] && Subseq(a[1..], b[1..]) {
        SubseqNoDuplicates(a[1..], b[1..]);
        SubseqBounds(a[1..], b[1..]);
        assert b[0] !in b[1..] by {
          forall j | 0 <= j < |b[1..]| ensures b[1..][j] != b[0] {
            assert b[1..][j] == b[j + 1];
          }
        }
        forall i, j | 0 <= i < j < |a| ensures a[i] != a[j] {
          if i == 0 {
            assert a[j] == a[1..][j - 1];
            assert a[j] in b[1..];
          } else {
            assert a[i] == a[1..][i - 1] && a[j] == a[1..][j - 1];
          }
        }
      } else {
        SubseqNoDuplicates(a, b[1..]);
      }
    }
  }

  /** Removing the key of an entry just appended to a list without that key restores the list. */
  lemma WithoutKeyAppended<T(!new), K>(s: seq<T>, key: T -> K, x: T)
    requires forall i :: 0 <= i < |s| ==> key(s[i]) != key(x)
    ensures WithoutKey(s + [x], key, key(x)) == s
  {
    var k := key(x);
    var p := (y: T) => key(y) != k;
    FilterAppend(s, [x], p);
    FilterKeepsAll(s, p);
    assert Filter([x], p) == [];
  }

  /** Appending a value that is not yet present keeps a list duplicate-free. */
  lemma NoDuplicatesAppend<T(!new)>(s: seq<T>, x: T)
    requires NoDuplicates(s) && x !in s
    ensures NoDuplicates(s + [x])
  {
    var t := s + [x];
    forall i, j | 0 <= i < j < |t| ensures t[i] != t[j] {
      if j == |s| {
        assert t[i] == s[i];
      } else {
        assert t[i] == s[i] && t[j] == s[j];
      }
    }
  }

  /**
   * `s.splice(index, 1)` on a copy: a negative index counts from the end
   * (clamped to 0), an index at or past the end removes nothing.
   */
  function SpliceOne<T>(s: seq<T>, index: int): (r: seq<T>)
    ensures 0 <= index < |s| ==>
      && |r| == |s| - 1
      && (forall j :: 0 <= j < index ==> r[j] == s[j])
      && (forall j :: index <= j < |r| ==> r[j] == s[j + 1])
    ensures index >= |s| ==> r == s
    ensures index < 0 && s != [] ==>
      var k := if |s| + index < 0 then 0 else |s| + index;
      r == s[..k] + s[k + 1..]
  {
    var start := if index < 0 then (if |s| + index < 0 then 0 else |s| + index) else index;
    if start >= |s| then s else s[..start] + s[start + 1..]
  }

  /** Removing the entry at an index keeps the other entries, each as often as before. */
  lemma SpliceOneMultiset<T>(s: seq<T>, index: int)
    requires 0 <= index < |s|
    ensures multiset(SpliceOne(s, index)) + multiset{s[index]} == multiset(s)
  {
    assert s == s[..index] + [s[index]] + s[index + 1..];
  }
}
