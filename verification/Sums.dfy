/** Sums over finite maps and multiplicities in sequences. */
module Sums {

  /** The value at a key of a storage map whose default is zero. */
  function Get<K>(m: map<K, nat>, k: K): nat {
    if k in m then m[k] else 0
  }

  /** The sum of all values of a finite map. */
  ghost function SumMap<K(!new)>(m: map<K, nat>): nat
    decreases |m|
  {
    if m == map[] then 0
    else
      var k :| k in m;
      m[k] + SumMap(m - {k})
  }

  lemma {:induction false} SumRemove<K(!new)>(m: map<K, nat>, k: K)
    requires k in m
    ensures SumMap(m) == m[k] + SumMap(m - {k})
    decreases |m|
  {
    var j :| j in m && SumMap(m) == m[j] + SumMap(m - {j});
    if j != k {
      SumRemove(m - {j}, k);
      SumRemove(m - {k}, j);
      assert m - {j} - {k} == m - {k} - {j};
    }
  }

  /** Overwriting one value changes the sum by exactly the difference. */
  lemma SumUpdate<K(!new)>(m: map<K, nat>, k: K, v: nat)
    ensures SumMap(m[k := v]) + Get(m, k) == SumMap(m) + v
  {
    SumRemove(m[k := v], k);
    assert m[k := v] - {k} == m - {k};
    if k in m {
      SumRemove(m, k);
    } else {
      assert m - {k} == m;
    }
  }

  /** A sum of values that are each at most `bound`. */
  lemma {:induction false} SumBound<K(!new)>(m: map<K, nat>, bound: nat)
    requires forall k :: k in m ==> m[k] <= bound
    ensures SumMap(m) <= bound * |m|
    decreases |m|
  {
    if m != map[] {
      var k :| k in m && SumMap(m) == m[k] + SumMap(m - {k});
      SumBound(m - {k}, bound);
      assert (m - {k}).Keys == m.Keys - {k};
      assert |m - {k}| == |m| - 1;
      assert bound * |m| == bound * (|m| - 1) + bound;
    }
  }

  /** A map that is nowhere above another has no greater sum. */
  lemma {:induction false} SumAtMost<K(!new)>(m: map<K, nat>, m': map<K, nat>)
    requires m.Keys == m'.Keys && forall k :: k in m ==> m[k] <= m'[k]
    ensures SumMap(m) <= SumMap(m')
    decreases |m|
  {
    if m != map[] {
      var k :| k in m;
      SumRemove(m, k);
      SumRemove(m', k);
      SumAtMost(m - {k}, m' - {k});
    } else {
      assert m' == map[];
    }
  }

  /** No two positions of the sequence hold the same value. */
  ghost predicate Distinct<T>(s: seq<T>) {
    forall i, j :: 0 <= i < j < |s| ==> s[i] != s[j]
  }

  function ToSet<T>(s: seq<T>): (r: set<T>) {
    set x | x in s
  }

  lemma ToSetSplit<T>(s: seq<T>)
    requires s != []
    ensures ToSet(s) == {s[0]} + ToSet(s[1..])
  {
    assert s == [s[0]] + s[1..];
  }

  lemma DistinctTail<T>(s: seq<T>)
    requires s != []
    ensures Distinct(s) <==> s[0] !in s[1..] && Distinct(s[1..])
  {
    if s[0] !in s[1..] && Distinct(s[1..]) {
      forall i, j | 0 <= i < j < |s|
        ensures s[i] != s[j]
      {
        if i == 0 {
          assert s[j] == s[1..][j - 1];
        } else {
          assert s[i] == s[1..][i - 1] && s[j] == s[1..][j - 1];
        }
      }
    }
    if Distinct(s) {
      forall i, j | 0 <= i < j < |s[1..]|
        ensures s[1..][i] != s[1..][j]
      {
        assert s[1..][i] == s[i + 1] && s[1..][j] == s[j + 1];
      }
    }
  }

  /** A sequence is free of repetitions exactly when its elements all have multiplicity one. */
  lemma {:induction false} DistinctIffSimple<T>(s: seq<T>)
    ensures Distinct(s) <==> forall x :: x in s ==> multiset(s)[x] == 1
    decreases |s|
  {
    if s != [] {
      DistinctTail(s);
      DistinctIffSimple(s[1..]);
      assert s == [s[0]] + s[1..];
      assert multiset(s) == multiset{s[0]} + multiset(s[1..]);
      if Distinct(s[1..]) && s[0] !in s[1..] {
        assert multiset(s[1..])[s[0]] == 0;
      } else if s[0] in s[1..] {
        assert multiset(s)[s[0]] > 1;
      } else {
        var x :| x in s[1..] && multiset(s[1..])[x] != 1;
        assert multiset(s)[x] != 1;
      }
    }
  }

  // ----- Permutations -----

  lemma WithoutOne<T>(s: seq<T>, i: nat)
    requires i < |s|
    ensures multiset(s[..i] + s[i + 1..]) == multiset(s) - multiset{s[i]}
  {
    assert s == s[..i] + [s[i]] + s[i + 1..];
  }

  lemma WithoutHead<T>(s: seq<T>)
    requires s != []
    ensures multiset(s[1..]) == multiset(s) - multiset{s[0]}
  {
    assert s == [s[0]] + s[1..];
  }

  lemma FirstOccurs<T>(a: seq<T>, b: seq<T>) returns (i: nat)
    requires multiset(a) == multiset(b) && a != []
    ensures i < |b| && b[i] == a[0]
  {
    assert a[0] in multiset(a);
    assert a[0] in b;
    i :| i < |b| && b[i] == a[0];
  }

  lemma WithoutFirst<T>(a: seq<T>, b: seq<T>) returns (i: nat)
    requires multiset(a) == multiset(b) && a != []
    ensures i < |b| && b[i] == a[0]
    ensures multiset(a[1..]) == multiset(b[..i] + b[i + 1..])
  {
    i := FirstOccurs(a, b);
    WithoutHead(a);
    WithoutOne(b, i);
  }

  function Images<T, U>(s: seq<T>, f: map<T, U>): (r: seq<U>)
    requires forall x :: x in s ==> x in f
  {
    seq(|s|, i requires 0 <= i < |s| => f[s[i]])
  }

  lemma ImagesWithoutOne<T, U>(s: seq<T>, f: map<T, U>, i: nat)
    requires i < |s| && forall x :: x in s ==> x in f
    ensures multiset(Images(s, f)) == multiset(Images(s[..i] + s[i + 1..], f)) + multiset{f[s[i]]}
  {
    WithoutOne(Images(s, f), i);
    assert Images(s[..i] + s[i + 1..], f) == Images(s, f)[..i] + Images(s, f)[i + 1..];
    assert Images(s, f)[i] in multiset(Images(s, f));
  }

  /** A map takes permuted sequences to permuted sequences. */
  lemma {:induction false} ImagesPermuted<T, U>(a: seq<T>, b: seq<T>, f: map<T, U>)
    requires multiset(a) == multiset(b)
    requires (forall x :: x in a ==> x in f) && (forall x :: x in b ==> x in f)
    ensures multiset(Images(a, f)) == multiset(Images(b, f))
    decreases |a|
  {
    if a == [] {
      assert |b| == |multiset(b)| == 0;
    } else {
      var i := WithoutFirst(a, b);
      hide Images;
      assert a[..0] + a[1..] == a[1..];
      ImagesWithoutOne(a, f, 0);
      ImagesWithoutOne(b, f, i);
      ImagesPermuted(a[1..], b[..i] + b[i + 1..], f);
    }
  }
}
