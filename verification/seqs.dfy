/** Order-preserving filtering of sequences, as `Array.prototype.filter`
    with a "key differs from k" callback. */
module Seqs {

  /** The identity key, for filtering plain values by equality. */
  function Identity<T>(x: T): T
  {
    x
  }

  /** The elements of `s` whose key differs from `k`, in their original order. */
  function Without<T(==,!new), K(==)>(s: seq<T>, key: T -> K, k: K): (r: seq<T>)
    ensures |r| <= |s|
    ensures forall x :: x in r <==> x in s && key(x) != k
    ensures |r| == |s| <==> forall i :: 0 <= i < |s| ==> key(s[i]) != k
  {
    if s == [] then []
    else if key(s[0]) != k then [s[0]] + Without(s[1..], key, k)
    else Without(s[1..], key, k)
  }

  /** Filtering distributes over concatenation: the survivors of `a` come
      first, in order, then the survivors of `b`. */
  lemma {:induction false} WithoutConcat<T(!new), K>(a: seq<T>, b: seq<T>, key: T -> K, k: K)
    ensures Without(a + b, key, k) == Without(a, key, k) + Without(b, key, k)
    decreases |a|
  {
    if a == [] {
      assert a + b == b;
    } else {
      assert (a + b)[0] == a[0];
      assert (a + b)[1..] == a[1..] + b;
      WithoutConcat(a[1..], b, key, k);
    }
  }

  /** Filtering a sequence with no matching element leaves it as it is. */
  lemma {:induction false} WithoutNoMatch<T(!new), K>(s: seq<T>, key: T -> K, k: K)
    requires forall i :: 0 <= i < |s| ==> key(s[i]) != k
    ensures Without(s, key, k) == s
    decreases |s|
  {
    if s != [] {
      assert forall i :: 0 <= i < |s[1..]| ==> key(s[1..][i]) != k by {
        forall i | 0 <= i < |s[1..]| ensures key(s[1..][i]) != k {
          assert s[1..][i] == s[i + 1];
        }
      }
      WithoutNoMatch(s[1..], key, k);
      assert [s[0]] + s[1..] == s;
    }
  }

  /** Filtering twice by the same key is filtering once. */
  lemma {:induction false} WithoutIdempotent<T(!new), K>(s: seq<T>, key: T -> K, k: K)
    ensures Without(Without(s, key, k), key, k) == Without(s, key, k)
  {
    var r := Without(s, key, k);
    forall i | 0 <= i < |r| ensures key(r[i]) != k {
      assert r[i] in r;
    }
    WithoutNoMatch(r, key, k);
  }
}
