/**
 Lists of lists put end to end, sums over lists, and lists put in order.
 */
module Sequences {

  function Flatten<T>(parts: seq<seq<T>>): seq<T> {
    if parts == [] then [] else parts[0] + Flatten(parts[1..])
  }

  lemma {:induction false} FlattenConcat<T>(a: seq<seq<T>>, b: seq<seq<T>>)
    ensures Flatten(a + b) == Flatten(a) + Flatten(b)
  {
    if a == [] {
      assert a + b == b;
    } else {
      assert (a + b)[1..] == a[1..] + b;
      FlattenConcat(a[1..], b);
    }
  }

  lemma {:induction false} FlattenSnoc<T>(parts: seq<seq<T>>, last: seq<T>)
    ensures Flatten(parts + [last]) == Flatten(parts) + last
  {
    FlattenConcat(parts, [last]);
    assert Flatten([last]) == last + Flatten([]) == last;
  }

  function Total<T>(s: seq<T>, f: T -> nat): nat {
    if s == [] then 0 else Total(s[..|s| - 1], f) + f(s[|s| - 1])
  }

  /** The list without its member at `k`. */
  function Rest<T>(s: seq<T>, k: nat): seq<T>
    requires k < |s|
  {
    s[..k] + s[k + 1..]
  }

  lemma RestMembers<T>(s: seq<T>, k: nat)
    requires k < |s|
    ensures multiset(s) == multiset(Rest(s, k)) + multiset{s[k]}
  {
    assert s == s[..k] + [s[k]] + s[k + 1..];
  }

  /** Leaving out the same member keeps the members the same. */
  lemma RestsAgree<T>(a: seq<T>, j: nat, b: seq<T>, k: nat)
    requires multiset(a) == multiset(b) && j < |a| && k < |b| && a[j] == b[k]
    ensures multiset(Rest(a, j)) == multiset(Rest(b, k))
  {
    RestMembers(a, j);
    RestMembers(b, k);
    hide Rest;
    assert multiset(Rest(a, j)) == multiset(a) - multiset{a[j]};
    assert multiset(Rest(b, k)) == multiset(b) - multiset{b[k]};
  }

  lemma FindIn<T>(x: T, a: seq<T>, b: seq<T>) returns (k: nat)
    requires multiset(a) == multiset(b) && x in a
    ensures k < |b| && b[k] == x
  {
    assert x in multiset(b);
    k :| 0 <= k < |b| && b[k] == x;
  }

  lemma SameLength<T>(a: seq<T>, b: seq<T>)
    requires multiset(a) == multiset(b)
    ensures |a| == |b|
  {
    assert |multiset(a)| == |a| && |multiset(b)| == |b|;
  }

  lemma {:induction false} TotalWithout<T>(s: seq<T>, f: T -> nat, k: nat)
    requires k < |s|
    ensures Total(s, f) == Total(Rest(s, k), f) + f(s[k])
  {
    var n := |s| - 1;
    if k < n {
      TotalWithout(s[..n], f, k);
      var rest := Rest(s, k);
      assert rest[..n - 1] == Rest(s[..n], k);
      assert rest[n - 1] == s[n];
    } else {
      assert Rest(s, k) == s[..n];
    }
  }

  /** A sum does not depend on the order. */
  lemma {:induction false} TotalPermutation<T>(a: seq<T>, b: seq<T>, f: T -> nat)
    requires multiset(a) == multiset(b)
    ensures Total(a, f) == Total(b, f)
    decreases |a|
  {
    SameLength(a, b);
    if a != [] {
      var n := |a| - 1;
      var k := FindIn(a[n], a, b);
      RestsAgree(a, n, b, k);
      TotalPermutation(Rest(a, n), Rest(b, k), f);
      TotalWithout(a, f, n);
      TotalWithout(b, f, k);
    }
  }

  /** Two lists of the same members in the same strict order are the same list. */
  lemma {:induction false} SameOrder<T>(a: seq<T>, b: seq<T>, leq: (T, T) -> bool)
    requires multiset(a) == multiset(b)
    requires forall i, j :: 0 <= i < j < |a| ==> leq(a[i], a[j])
    requires forall i, j :: 0 <= i < j < |b| ==> leq(b[i], b[j])
    requires forall x, y :: x in a && y in a && leq(x, y) && leq(y, x) ==> x == y
    ensures a == b
    decreases |a|
  {
    SameLength(a, b);
    if a != [] {
      SameFirst(a, b, leq);
      RestsAgree(a, 0, b, 0);
      RestIsTail(a);
      RestIsTail(b);
      SameOrder(a[1..], b[1..], leq);
    }
  }

  lemma RestIsTail<T>(s: seq<T>)
    requires s != []
    ensures Rest(s, 0) == s[1..]
  {
  }

  lemma SameFirst<T>(a: seq<T>, b: seq<T>, leq: (T, T) -> bool)
    requires multiset(a) == multiset(b) && a != [] && b != []
    requires forall i, j :: 0 <= i < j < |a| ==> leq(a[i], a[j])
    requires forall i, j :: 0 <= i < j < |b| ==> leq(b[i], b[j])
    requires forall x, y :: x in a && y in a && leq(x, y) && leq(y, x) ==> x == y
    ensures a[0] == b[0]
  {
    var i := FindIn(a[0], a, b);
    var j := FindIn(b[0], b, a);
  }

  /** What `f` makes of the members is all distinct. */
  ghost predicate DistinctBy<T, K>(s: seq<T>, f: T -> K) {
    forall i, j :: 0 <= i < j < |s| ==> f(s[i]) != f(s[j])
  }

  lemma DistinctRest<T, K>(s: seq<T>, f: T -> K, k: nat)
    requires k < |s| && DistinctBy(s, f)
    ensures DistinctBy(Rest(s, k), f) && forall i :: 0 <= i < |Rest(s, k)| ==> f(Rest(s, k)[i]) != f(s[k])
  {
    var rest := Rest(s, k);
    assert forall i :: 0 <= i < |rest| ==> rest[i] == s[if i < k then i else i + 1];
  }

  lemma {:induction false} DistinctPermutation<T, K>(a: seq<T>, b: seq<T>, f: T -> K)
    requires multiset(a) == multiset(b) && DistinctBy(a, f)
    ensures DistinctBy(b, f)
    decreases |b|
  {
    if b != [] {
      var k := FindIn(b[0], b, a);
      RestsAgree(a, k, b, 0);
      var rest := Rest(a, k);
      RestIsTail(b);
      DistinctRest(a, f, k);
      hide Rest;
      DistinctPermutation(rest, b[1..], f);
      forall j | 1 <= j < |b| ensures f(b[0]) != f(b[j]) {
        assert b[1..][j - 1] == b[j];
        var i := FindIn(b[j], b[1..], rest);
      }
      forall i, j | 0 <= i < j < |b| ensures f(b[i]) != f(b[j]) {
        if i > 0 {
          assert b[1..][i - 1] == b[i] && b[1..][j - 1] == b[j];
        }
      }
    }
  }
}
