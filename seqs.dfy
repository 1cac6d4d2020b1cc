/** Sequence operations the source uses through JavaScript built-ins: `filter`,
    `slice(0, n)`, `includes`, `[...new Set(xs)]`, and the frequency table a
    `forEach` fills in place. Each is given one definition here and the facts
    the rest of the model relies on. */
module Seqs {

  /** `s.filter(p)`: the elements of `s` that satisfy `p`, in their order. */
  function Filter<T(==,!new)>(s: seq<T>, p: T -> bool): (r: seq<T>)
    ensures |r| <= |s|
    ensures forall x :: x in r <==> x in s && p(x)
    ensures forall x :: Count(r, x) == if p(x) then Count(s, x) else 0
    decreases |s|
  {
    if s == [] then []
    else
      assert s == [s[0]] + s[1..];
      var rest := Filter(s[1..], p);
      assert forall x :: Count(s, x) == (if s[0] == x then 1 else 0) + Count(s[1..], x) by {
        forall x ensures Count(s, x) == (if s[0] == x then 1 else 0) + Count(s[1..], x) {
          CountPrepend(s[0], s[1..], x);
        }
      }
      if p(s[0]) then
        assert forall x :: Count([s[0]] + rest, x) == (if s[0] == x then 1 else 0) + Count(rest, x) by {
          forall x ensures Count([s[0]] + rest, x) == (if s[0] == x then 1 else 0) + Count(rest, x) {
            CountPrepend(s[0], rest, x);
          }
        }
        [s[0]] + rest
      else rest
  }

  /** `a` can be obtained from `b` by deleting elements (order is kept). */
  predicate IsSubsequence<T(==,!new)>(a: seq<T>, b: seq<T>)
    decreases |b|
  {
    if a == [] then true
    else if b == [] then false
    else (a[0] == b[0] && IsSubsequence(a[1..], b[1..])) || IsSubsequence(a, b[1..])
  }

  lemma {:induction false} FilterIsSubsequence<T(!new)>(s: seq<T>, p: T -> bool)
    ensures IsSubsequence(Filter(s, p), s)
    decreases |s|
  {
    if s != [] {
      FilterIsSubsequence(s[1..], p);
      if p(s[0]) {
        assert ([s[0]] + Filter(s[1..], p))[1..] == Filter(s[1..], p);
      }
    }
  }

  lemma {:induction false} SubsequenceTransitive<T(!new)>(a: seq<T>, b: seq<T>, c: seq<T>)
    requires IsSubsequence(a, b) && IsSubsequence(b, c)
    ensures IsSubsequence(a, c)
    decreases |c|, |b|
  {
    if a != [] {
      assert b != [] && c != [];
      if b[0] == c[0] && IsSubsequence(b[1..], c[1..]) {
        if a[0] == b[0] && IsSubsequence(a[1..], b[1..]) {
          SubsequenceTransitive(a[1..], b[1..], c[1..]);
        } else {
          SubsequenceTransitive(a, b[1..], c[1..]);
        }
      } else {
        SubsequenceTransitive(a, b, c[1..]);
      }
    }
  }

  /** A filter whose predicate holds of every element returns its input. */
  lemma {:induction false} FilterAllPass<T(!new)>(s: seq<T>, p: T -> bool)
    requires forall x :: x in s ==> p(x)
    ensures Filter(s, p) == s
    decreases |s|
  {
    if s != [] {
      assert s[0] in s;
      assert forall x :: x in s[1..] ==> x in s;
      FilterAllPass(s[1..], p);
    }
  }

  /** Filtering depends only on the predicate's values on the elements. */
  lemma {:induction false} FilterExtensional<T(!new)>(s: seq<T>, p: T -> bool, q: T -> bool)
    requires forall x :: x in s ==> p(x) == q(x)
    ensures Filter(s, p) == Filter(s, q)
    decreases |s|
  {
    if s != [] {
      assert s[0] in s;
      assert forall x :: x in s[1..] ==> x in s;
      FilterExtensional(s[1..], p, q);
    }
  }

  lemma {:induction false} FilterAppend<T(!new)>(s: seq<T>, t: seq<T>, p: T -> bool)
    ensures Filter(s + t, p) == Filter(s, p) + Filter(t, p)
    decreases |s|
  {
    if s == [] {
      assert s + t == t;
    } else {
      assert (s + t)[0] == s[0];
      assert (s + t)[1..] == s[1..] + t;
      FilterAppend(s[1..], t, p);
    }
  }

  /** Filtering by `q` and then by `p` is filtering by their conjunction. */
  lemma {:induction false} FilterFusion<T(!new)>(s: seq<T>, p: T -> bool, q: T -> bool, pq: T -> bool)
    requires forall x :: pq(x) == (p(x) && q(x))
    ensures Filter(Filter(s, q), p) == Filter(s, pq)
    decreases |s|
  {
    if s != [] {
      FilterFusion(s[1..], p, q, pq);
    }
  }

  /** Two filters with disjoint predicates select at most `|s|` elements between them. */
  lemma {:induction false} FilterDisjointLength<T(!new)>(s: seq<T>, p: T -> bool, q: T -> bool)
    requires forall x :: x in s ==> !(p(x) && q(x))
    ensures |Filter(s, p)| + |Filter(s, q)| <= |s|
    decreases |s|
  {
    if s != [] {
      assert s[0] in s;
      assert forall x :: x in s[1..] ==> x in s;
      FilterDisjointLength(s[1..], p, q);
    }
  }

  /** The predicate `y != x`, as one term so that every use of it is the same function. */
  function NotEqualTo<T(==,!new)>(x: T): T -> bool {
    (y: T) => y != x
  }

  /** `s.filter(y => y !== x)`: every occurrence of `x` removed. */
  function Without<T(==,!new)>(s: seq<T>, x: T): (r: seq<T>)
    ensures forall y :: y in r <==> y in s && y != x
    ensures forall y :: Count(r, y) == if y == x then 0 else Count(s, y)
  {
    Filter(s, NotEqualTo(x))
  }

  /** Removing an element that was appended to a sequence without it gives the sequence back. */
  lemma {:induction false} WithoutAppended<T(!new)>(s: seq<T>, x: T)
    requires x !in s
    ensures Without(s + [x], x) == s
  {
    FilterAppend(s, [x], NotEqualTo(x));
    FilterAllPass(s, NotEqualTo(x));
    assert Filter([x], NotEqualTo(x)) == [];
  }

  /** Number of occurrences of `x` in `s`. */
  function Count<T(==,!new)>(s: seq<T>, x: T): (n: nat)
    ensures n <= |s|
    ensures n > 0 <==> x in s
    decreases |s|
  {
    if s == [] then 0
    else
      assert s == s[..|s| - 1] + [s[|s| - 1]];
      Count(s[..|s| - 1], x) + (if s[|s| - 1] == x then 1 else 0)
  }

  lemma {:induction false} CountAppend<T(!new)>(s: seq<T>, y: T, x: T)
    ensures Count(s + [y], x) == Count(s, x) + (if y == x then 1 else 0)
  {
    assert (s + [y])[..|s + [y]| - 1] == s;
  }

  lemma {:induction false} CountPrepend<T(!new)>(y: T, s: seq<T>, x: T)
    ensures Count([y] + s, x) == (if y == x then 1 else 0) + Count(s, x)
    decreases |s|
  {
    if s != [] {
      var init := s[..|s| - 1];
      CountPrepend(y, init, x);
      assert ([y] + s)[..|[y] + s| - 1] == [y] + init;
    }
  }

  /** No element occurs twice. */
  predicate NoDuplicates<T(==,!new)>(s: seq<T>) {
    forall i, j :: 0 <= i < j < |s| ==> s[i] != s[j]
  }

  /** Filtering keeps a duplicate-free sequence duplicate-free. */
  lemma {:induction false} FilterKeepsNoDuplicates<T(!new)>(s: seq<T>, p: T -> bool)
    requires NoDuplicates(s)
    ensures NoDuplicates(Filter(s, p))
    decreases |s|
  {
    if s != [] {
      assert NoDuplicates(s[1..]) by {
        forall i, j | 0 <= i < j < |s[1..]| ensures s[1..][i] != s[1..][j] {
          assert s[1..][i] == s[i + 1] && s[1..][j] == s[j + 1];
        }
      }
      FilterKeepsNoDuplicates(s[1..], p);
      var rest := Filter(s[1..], p);
      if p(s[0]) {
        assert s[0] !in s[1..] by {
          forall j | 0 <= j < |s[1..]| ensures s[1..][j] != s[0] {
            assert s[1..][j] == s[j + 1];
          }
        }
        assert s[0] !in rest;
        var r := [s[0]] + rest;
        forall i, j | 0 <= i < j < |r| ensures r[i] != r[j] {
          if i == 0 {
            assert r[j] == rest[j - 1] && rest[j - 1] in rest;
          } else {
            assert r[i] == rest[i - 1] && r[j] == rest[j - 1];
          }
        }
      }
    }
  }

  /** `s.slice(0, n)`. */
  function Take<T>(s: seq<T>, n: nat): (r: seq<T>)
    ensures |r| == if n < |s| then n else |s|
    ensures forall i :: 0 <= i < |r| ==> r[i] == s[i]
  {
    if n < |s| then s[..n] else s
  }

  /** Index of the first occurrence of `x` in `s`, or `|s|` when there is none. */
  function FirstIndex<T(==,!new)>(s: seq<T>, x: T): (i: nat)
    ensures i <= |s|
    ensures i < |s| <==> x in s
    ensures i < |s| ==> s[i] == x && x !in s[..i]
    decreases |s|
  {
    if s == [] then 0
    else if s[0] == x then 0
    else
      assert s == [s[0]] + s[1..];
      assert forall k :: 0 <= k < FirstIndex(s[1..], x) ==> s[1..][k] == s[k + 1];
      1 + FirstIndex(s[1..], x)
  }

  lemma {:induction false} FirstIndexAppend<T(!new)>(s: seq<T>, y: T, x: T)
    requires x in s
    ensures FirstIndex(s + [y], x) == FirstIndex(s, x)
    decreases |s|
  {
    if s[0] != x {
      assert (s + [y])[0] == s[0];
      assert (s + [y])[1..] == s[1..] + [y];
      FirstIndexAppend(s[1..], y, x);
    }
  }

  /** `[...new Set(s)]`: each element once, at the place of its first occurrence. */
  function Distinct<T(==,!new)>(s: seq<T>): (r: seq<T>)
    ensures NoDuplicates(r)
    ensures forall x :: x in r <==> x in s
    decreases |s|
  {
    if s == [] then []
    else
      var init, last := s[..|s| - 1], s[|s| - 1];
      assert s == init + [last];
      var d := Distinct(init);
      if last in init then d else d + [last]
  }

  /** The elements of `Distinct(s)` appear in the order of their first occurrences in `s`. */
  lemma {:induction false} DistinctInFirstOccurrenceOrder<T(!new)>(s: seq<T>)
    ensures forall i, j :: 0 <= i < j < |Distinct(s)| ==>
      FirstIndex(s, Distinct(s)[i]) < FirstIndex(s, Distinct(s)[j])
    decreases |s|
  {
    if s != [] {
      var init, last := s[..|s| - 1], s[|s| - 1];
      assert s == init + [last];
      var d := Distinct(init);
      DistinctInFirstOccurrenceOrder(init);
      forall y | y in d
        ensures FirstIndex(s, y) == FirstIndex(init, y) < |init|
      {
        FirstIndexAppend(init, last, y);
      }
      if last in init {
        assert Distinct(s) == d;
      } else {
        assert FirstIndex(s, last) == |init| by {
          assert s[|init|] == last;
          assert last !in s[..|init|];
        }
        var r := d + [last];
        assert Distinct(s) == r;
        forall i, j | 0 <= i < j < |r| ensures FirstIndex(s, r[i]) < FirstIndex(s, r[j]) {
          assert r[i] == d[i] && d[i] in d;
          if j < |d| {
            assert r[j] == d[j] && d[j] in d;
          }
        }
      }
    }
  }

  /** `m` is the frequency table of `keys`: a key is present exactly when it
      occurs in `keys`, and its entry is the number of its occurrences. */
  ghost predicate IsTally<K(!new)>(m: map<K, nat>, keys: seq<K>) {
    && (forall k :: k in m <==> k in keys)
    && (forall k :: k in m ==> m[k] == Count(keys, k))
  }

  /** `byKey[k] = (byKey[k] || 0) + 1`: the entry of `k` goes up by one,
      starting from zero when it is missing. */
  function Bump<K>(m: map<K, nat>, k: K): map<K, nat> {
    m[k := (if k in m then m[k] else 0) + 1]
  }

  /** One step of a counting loop over `keys`: bumping the entry of `k`, the
      key at index `i`, turns the table of the first `i` keys into the table
      of the first `i + 1`. */
  lemma {:induction false} TallyStep<K(!new)>(m: map<K, nat>, keys: seq<K>, i: nat, k: K)
    requires i < |keys| && keys[i] == k && IsTally(m, keys[..i])
    ensures IsTally(Bump(m, k), keys[..i + 1])
  {
    assert keys[..i + 1] == keys[..i] + [k];
    forall x
      ensures Count(keys[..i + 1], x) == Count(keys[..i], x) + (if k == x then 1 else 0)
    {
      CountAppend(keys[..i], k, x);
    }
  }

  /** The total number of occurrences in `s` of the keys `ks`. */
  function SumCounts<T(==,!new)>(s: seq<T>, ks: seq<T>): nat
    decreases |ks|
  {
    if ks == [] then 0
    else SumCounts(s, ks[..|ks| - 1]) + Count(s, ks[|ks| - 1])
  }

  lemma {:induction false} SumCountsAppendKey<T(!new)>(s: seq<T>, ks: seq<T>, k: T)
    ensures SumCounts(s, ks + [k]) == SumCounts(s, ks) + Count(s, k)
  {
    assert (ks + [k])[..|ks|] == ks;
  }

  /** Appending `y` to the counted sequence adds one to the total exactly when
      `y` is among the (distinct) keys. */
  lemma {:induction false} SumCountsSnoc<T(!new)>(s: seq<T>, y: T, ks: seq<T>)
    requires NoDuplicates(ks)
    ensures SumCounts(s + [y], ks) == SumCounts(s, ks) + (if y in ks then 1 else 0)
    decreases |ks|
  {
    if ks != [] {
      var init, k := ks[..|ks| - 1], ks[|ks| - 1];
      assert ks == init + [k];
      assert NoDuplicates(init);
      SumCountsSnoc(s, y, init);
      CountAppend(s, y, k);
      assert y in ks <==> y in init || y == k;
      assert y == k ==> y !in init;
    }
  }

  /** Every element is counted once under its distinct key: the counts of the
      distinct elements add up to the length. */
  lemma {:induction false} CountsSum<T(!new)>(s: seq<T>)
    ensures SumCounts(s, Distinct(s)) == |s|
    decreases |s|
  {
    if s != [] {
      var init, y := s[..|s| - 1], s[|s| - 1];
      assert s == init + [y];
      var d := Distinct(init);
      CountsSum(init);
      SumCountsSnoc(init, y, d);
      if y !in init {
        assert Distinct(s) == d + [y];
        SumCountsAppendKey(s, d, y);
        CountAppend(init, y, y);
      }
    }
  }

  /** Sum of the entries of `m` at the keys `ks` (absent keys contribute 0). */
  function SumAt<K(==,!new)>(m: map<K, nat>, ks: seq<K>): nat
    decreases |ks|
  {
    if ks == [] then 0
    else
      var k := ks[|ks| - 1];
      SumAt(m, ks[..|ks| - 1]) + (if k in m then m[k] else 0)
  }

  /** Read off a frequency table at keys that occur, the entries are the counts. */
  lemma {:induction false} SumAtTally<K(!new)>(m: map<K, nat>, keys: seq<K>, ks: seq<K>)
    requires IsTally(m, keys)
    requires forall k :: k in ks ==> k in keys
    ensures SumAt(m, ks) == SumCounts(keys, ks)
    decreases |ks|
  {
    if ks != [] {
      var init := ks[..|ks| - 1];
      assert forall k :: k in init ==> k in ks;
      SumAtTally(m, keys, init);
    }
  }

  /** The entries of a frequency table, summed over the distinct keys, add up
      to the number of keys; every entry is at least one. */
  lemma TallySum<K(!new)>(m: map<K, nat>, keys: seq<K>)
    requires IsTally(m, keys)
    ensures SumAt(m, Distinct(keys)) == |keys|
    ensures forall k :: k in m ==> m[k] >= 1
  {
    SumAtTally(m, keys, Distinct(keys));
    CountsSum(keys);
  }
}
