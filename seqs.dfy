/**
 * The Kotlin collection operations the media lists are built from, each with the
 * property that makes it useful: `filter` keeps a subsequence, `sortedBy` is a stable
 * permutation, `distinctBy` keeps the first element of every key, and a
 * `mutableMapOf` (a LinkedHashMap) is an insertion-ordered association list whose
 * `put` on an existing key keeps the key's place.
 */
module Seqs {
  import opened Text

  // ---------------------------------------------------------------- subsequences

  /** `a` can be obtained from `b` by deleting elements. */
  predicate Subsequence<T(==)>(a: seq<T>, b: seq<T>)
    decreases |b|
  {
    a == [] || (b != [] && ((a[0] == b[0] && Subsequence(a[1..], b[1..])) || Subsequence(a, b[1..])))
  }

  lemma {:induction false} SubsequenceRefl<T>(a: seq<T>)
    ensures Subsequence(a, a)
  {
    if a != [] { SubsequenceRefl(a[1..]); }
  }

  lemma {:induction false} SubsequenceTrans<T>(a: seq<T>, b: seq<T>, c: seq<T>)
    requires Subsequence(a, b) && Subsequence(b, c)
    ensures Subsequence(a, c)
    decreases |b| + |c|
  {
    if a != [] {
      if b[0] == c[0] && Subsequence(b[1..], c[1..]) {
        if a[0] == b[0] && Subsequence(a[1..], b[1..]) {
          SubsequenceTrans(a[1..], b[1..], c[1..]);
        } else {
          SubsequenceTrans(a, b[1..], c[1..]);
        }
      } else {
        SubsequenceTrans(a, b, c[1..]);
      }
    }
  }

  /** Every element of a subsequence is an element of the whole. */
  lemma {:induction false} SubsequenceMembers<T>(a: seq<T>, b: seq<T>)
    requires Subsequence(a, b)
    ensures forall x :: x in a ==> x in b
    decreases |b|
  {
    if a != [] {
      if a[0] == b[0] && Subsequence(a[1..], b[1..]) {
        SubsequenceMembers(a[1..], b[1..]);
        assert a == [a[0]] + a[1..];
      } else {
        SubsequenceMembers(a, b[1..]);
      }
    }
  }

  lemma {:induction false} SubsequenceAppend<T>(a: seq<T>, b: seq<T>, c: seq<T>, d: seq<T>)
    requires Subsequence(a, b) && Subsequence(c, d)
    ensures Subsequence(a + c, b + d)
    decreases |b|
  {
    if a == [] {
      SubsequenceSuffix(c, b, d);
      assert a + c == c;
    } else if a[0] == b[0] && Subsequence(a[1..], b[1..]) {
      SubsequenceAppend(a[1..], b[1..], c, d);
      assert (a + c)[1..] == a[1..] + c && (b + d)[1..] == b[1..] + d;
    } else {
      SubsequenceAppend(a, b[1..], c, d);
      assert (b + d)[1..] == b[1..] + d;
    }
  }

  lemma {:induction false} SubsequenceSuffix<T>(c: seq<T>, b: seq<T>, d: seq<T>)
    requires Subsequence(c, d)
    ensures Subsequence(c, b + d)
    decreases |b|
  {
    if b == [] {
      assert b + d == d;
    } else {
      SubsequenceSuffix(c, b[1..], d);
      assert (b + d)[1..] == b[1..] + d;
    }
  }

  // ---------------------------------------------------------------- filter

  /** `filter(p)` */
  function Filter<T>(s: seq<T>, p: T -> bool): (r: seq<T>)
    ensures |r| <= |s|
    ensures forall i :: 0 <= i < |r| ==> r[i] in s && p(r[i])
    ensures forall i :: 0 <= i < |s| && p(s[i]) ==> s[i] in r
  {
    if s == [] then [] else (if p(s[0]) then [s[0]] else []) + Filter(s[1..], p)
  }

  lemma {:induction false} FilterAppend<T>(a: seq<T>, b: seq<T>, p: T -> bool)
    ensures Filter(a + b, p) == Filter(a, p) + Filter(b, p)
  {
    if a == [] {
      assert a + b == b;
    } else {
      var ab := a + b;
      assert ab[0] == a[0] && ab[1..] == a[1..] + b;
      var head := if p(a[0]) then [a[0]] else [];
      calc {
        Filter(ab, p);
        head + Filter(a[1..] + b, p);
        { FilterAppend(a[1..], b, p); }
        head + (Filter(a[1..], p) + Filter(b, p));
        (head + Filter(a[1..], p)) + Filter(b, p);
        Filter(a, p) + Filter(b, p);
      }
    }
  }

  /** What `filter` keeps is a subsequence of its input. */
  lemma {:induction false} FilterSubsequence<T>(s: seq<T>, p: T -> bool)
    ensures Subsequence(Filter(s, p), s)
  {
    if s != [] {
      FilterSubsequence(s[1..], p);
      var r := Filter(s, p);
      if p(s[0]) {
        assert r[0] == s[0] && r[1..] == Filter(s[1..], p);
      } else {
        assert r == Filter(s[1..], p);
      }
    }
  }

  /** `filter` removes exactly the elements failing `p`: the counts of the others are kept. */
  lemma {:induction false} FilterCounts<T>(s: seq<T>, p: T -> bool)
    ensures forall x :: multiset(Filter(s, p))[x] == if p(x) then multiset(s)[x] else 0
  {
    if s != [] {
      FilterCounts(s[1..], p);
      assert s == [s[0]] + s[1..];
    }
  }

  /** A filter that keeps every element is the identity. */
  lemma {:induction false} FilterAll<T>(s: seq<T>, p: T -> bool)
    requires forall x :: x in s ==> p(x)
    ensures Filter(s, p) == s
  {
    if s != [] {
      FilterAll(s[1..], p);
      assert s == [s[0]] + s[1..];
    }
  }

  /** Filtering with a stronger condition keeps a subsequence of what the weaker one keeps. */
  lemma {:induction false} FilterImplies<T>(s: seq<T>, p: T -> bool, q: T -> bool)
    requires forall x :: p(x) ==> q(x)
    ensures Subsequence(Filter(s, p), Filter(s, q))
  {
    if s != [] {
      FilterImplies(s[1..], p, q);
      var a, b := Filter(s, p), Filter(s, q);
      if p(s[0]) {
        assert a[0] == b[0] && a[1..] == Filter(s[1..], p) && b[1..] == Filter(s[1..], q);
      } else if q(s[0]) {
        assert a == Filter(s[1..], p) && b[1..] == Filter(s[1..], q);
      } else {
        assert a == Filter(s[1..], p) && b == Filter(s[1..], q);
      }
    }
  }

  /** Two filters in a row are one filter on the conjunction. */
  lemma {:induction false} FilterFilter<T>(s: seq<T>, p: T -> bool, q: T -> bool)
    ensures Filter(Filter(s, p), q) == Filter(s, (x: T) => p(x) && q(x))
  {
    if s != [] {
      FilterFilter(s[1..], p, q);
      var head := if p(s[0]) then [s[0]] else [];
      FilterAppend(head, Filter(s[1..], p), q);
      if p(s[0]) {
        assert Filter(head, q) == (if q(s[0]) then [s[0]] else []) + Filter([], q);
      }
    }
  }

  // ---------------------------------------------------------------- reverse

  /** `reversed()` */
  function Reverse<T>(s: seq<T>): (r: seq<T>)
    ensures |r| == |s|
    ensures forall i :: 0 <= i < |s| ==> r[i] == s[|s| - 1 - i]
  {
    if s == [] then [] else Reverse(s[1..]) + [s[0]]
  }

  // ---------------------------------------------------------------- sort keys

  /** A sort key: a number, or a string compared like `String.compareTo`. */
  datatype Key = Num(n: int) | Str(s: string)

  predicate KeyLess(a: Key, b: Key)
  {
    match (a, b)
    case (Num(x), Num(y)) => x < y
    case (Str(x), Str(y)) => LexLess(x, y)
    case (Num(_), Str(_)) => true
    case (Str(_), Num(_)) => false
  }

  lemma KeyLessIrreflexive(a: Key)
    ensures !KeyLess(a, a)
  {
    if a.Str? { LexLessIrreflexive(a.s); }
  }

  lemma KeyLessTransitive(a: Key, b: Key, c: Key)
    requires KeyLess(a, b) && KeyLess(b, c)
    ensures KeyLess(a, c)
  {
    if a.Str? && b.Str? && c.Str? { LexLessTransitive(a.s, b.s, c.s); }
  }

  lemma KeyLessTotal(a: Key, b: Key)
    ensures a == b || KeyLess(a, b) || KeyLess(b, a)
  {
    if a.Str? && b.Str? { LexLessTotal(a.s, b.s); }
  }

  // ---------------------------------------------------------------- stable sort

  /** No element is followed by one with a smaller key. */
  predicate SortedBy<T>(s: seq<T>, key: T -> Key)
  {
    forall i, j :: 0 <= i < j < |s| ==> !KeyLess(key(s[j]), key(s[i]))
  }

  /** Insert `x` in front of the first element whose key is not smaller than its own. */
  function Insert<T>(x: T, s: seq<T>, key: T -> Key): seq<T>
  {
    if s == [] then [x]
    else if KeyLess(key(s[0]), key(x)) then [s[0]] + Insert(x, s[1..], key)
    else [x] + s
  }

  /** `sortedBy(key)`: a stable insertion sort. */
  function SortBy<T>(s: seq<T>, key: T -> Key): seq<T>
  {
    if s == [] then [] else Insert(s[0], SortBy(s[1..], key), key)
  }

  lemma {:induction false} InsertPermutation<T>(x: T, s: seq<T>, key: T -> Key)
    ensures multiset(Insert(x, s, key)) == multiset(s) + multiset{x}
  {
    if s != [] && KeyLess(key(s[0]), key(x)) {
      InsertPermutation(x, s[1..], key);
      assert s == [s[0]] + s[1..];
    }
  }

  lemma {:induction false} InsertSorted<T>(x: T, s: seq<T>, key: T -> Key)
    requires SortedBy(s, key)
    ensures SortedBy(Insert(x, s, key), key)
  {
    if s == [] {
    } else if KeyLess(key(s[0]), key(x)) {
      InsertSorted(x, s[1..], key);
      InsertPermutation(x, s[1..], key);
      var r := Insert(x, s, key);
      forall i, j | 0 <= i < j < |r| ensures !KeyLess(key(r[j]), key(r[i])) {
        if i == 0 {
          assert r[j] in multiset(Insert(x, s[1..], key));
          assert r[j] == x || r[j] in s[1..];
          if r[j] == x {
            if KeyLess(key(x), key(s[0])) { KeyLessTransitive(key(x), key(s[0]), key(x)); KeyLessIrreflexive(key(x)); }
          } else {
            var k :| 0 <= k < |s[1..]| && s[1..][k] == r[j];
            assert s[k + 1] == r[j];
          }
        }
      }
    } else {
      var r := Insert(x, s, key);
      forall i, j | 0 <= i < j < |r| ensures !KeyLess(key(r[j]), key(r[i])) {
        if i == 0 {
          // key(x) <= key(s[0]) <= key(s[j - 1])
          if KeyLess(key(s[j - 1]), key(x)) {
            KeyLessTotal(key(x), key(s[0]));
            if j - 1 > 0 {
              if KeyLess(key(x), key(s[0])) {
                KeyLessTransitive(key(s[j - 1]), key(x), key(s[0]));
              }
            }
          }
        }
      }
    }
  }

  /** `sortedBy` returns a permutation of its input in key order. */
  lemma {:induction false} SortByCorrect<T>(s: seq<T>, key: T -> Key)
    ensures multiset(SortBy(s, key)) == multiset(s)
    ensures SortedBy(SortBy(s, key), key)
  {
    if s != [] {
      SortByCorrect(s[1..], key);
      InsertPermutation(s[0], SortBy(s[1..], key), key);
      InsertSorted(s[0], SortBy(s[1..], key), key);
      assert s == [s[0]] + s[1..];
    }
  }

  /** The elements of `s` whose key is `k`, in order. */
  function WithKey<T>(s: seq<T>, key: T -> Key, k: Key): seq<T>
  {
    if s == [] then [] else (if key(s[0]) == k then [s[0]] else []) + WithKey(s[1..], key, k)
  }

  lemma {:induction false} InsertStable<T>(x: T, s: seq<T>, key: T -> Key, k: Key)
    ensures WithKey(Insert(x, s, key), key, k) == (if key(x) == k then [x] else []) + WithKey(s, key, k)
  {
    var hx := if key(x) == k then [x] else [];
    if s == [] {
      WithKeyCons(x, [], key, k);
    } else if KeyLess(key(s[0]), key(x)) {
      var hs := if key(s[0]) == k then [s[0]] else [];
      InsertStable(x, s[1..], key, k);
      if key(x) == k { KeyLessIrreflexive(k); }
      assert hx == [] || hs == [];
      WithKeyCons(s[0], Insert(x, s[1..], key), key, k);
      WithKeyCons(s[0], s[1..], key, k);
      assert s == [s[0]] + s[1..];
      calc {
        WithKey(Insert(x, s, key), key, k);
        hs + WithKey(Insert(x, s[1..], key), key, k);
        hs + (hx + WithKey(s[1..], key, k));
        hx + (hs + WithKey(s[1..], key, k));
      }
    } else {
      WithKeyCons(x, s, key, k);
    }
  }

  /** Unfolding `WithKey` at a known first element. */
  lemma WithKeyCons<T>(y: T, t: seq<T>, key: T -> Key, k: Key)
    ensures WithKey([y] + t, key, k) == (if key(y) == k then [y] else []) + WithKey(t, key, k)
  {
    assert ([y] + t)[0] == y && ([y] + t)[1..] == t;
  }

  /** `sortedBy` is stable: elements with equal keys keep their relative order. */
  lemma {:induction false} SortByStable<T>(s: seq<T>, key: T -> Key, k: Key)
    ensures WithKey(SortBy(s, key), key, k) == WithKey(s, key, k)
  {
    if s != [] {
      SortByStable(s[1..], key, k);
      InsertStable(s[0], SortBy(s[1..], key), key, k);
    }
  }

  // ---------------------------------------------------------------- distinct keys under permutation

  /** No two elements share a key. */
  predicate UniqueBy<T, K(==)>(s: seq<T>, key: T -> K)
  {
    forall i, j :: 0 <= i < j < |s| ==> key(s[i]) != key(s[j])
  }

  /** An element at two positions is counted at least twice. */
  lemma TwiceCounted<T>(s: seq<T>, i: int, j: int)
    requires 0 <= i < j < |s|
    ensures s[i] == s[j] ==> multiset(s)[s[i]] >= 2
  {
    assert s == s[..j] + s[j..];
    assert s[i] in s[..j];
    assert s[j..][0] == s[j];
  }

  /** Elements with unique keys are unique: each is counted at most once. */
  lemma {:induction false} UniqueCountsOne<T, K>(s: seq<T>, key: T -> K)
    requires UniqueBy(s, key)
    ensures forall x :: multiset(s)[x] <= 1
  {
    if s != [] {
      UniqueCountsOne(s[1..], key);
      assert s == [s[0]] + s[1..];
      assert forall k :: 0 <= k < |s[1..]| ==> s[1..][k] != s[0] by {
        forall k | 0 <= k < |s[1..]| ensures s[1..][k] != s[0] {
          assert key(s[k + 1]) != key(s[0]);
        }
      }
      assert s[0] !in s[1..];
    }
  }

  /** A permutation of a sequence whose keys are unique has unique keys too. */
  lemma UniqueByPermutation<T, K>(s: seq<T>, t: seq<T>, key: T -> K)
    requires multiset(s) == multiset(t) && UniqueBy(s, key)
    ensures UniqueBy(t, key)
  {
    UniqueCountsOne(s, key);
    forall i, j | 0 <= i < j < |t| ensures key(t[i]) != key(t[j]) {
      TwiceCounted(t, i, j);
      assert t[i] != t[j];
      assert t[i] in multiset(s) && t[j] in multiset(s);
      var a :| 0 <= a < |s| && s[a] == t[i];
      var b :| 0 <= b < |s| && s[b] == t[j];
      if a < b {
        assert key(s[a]) != key(s[b]);
      } else {
        assert key(s[b]) != key(s[a]);
      }
    }
  }

  // ---------------------------------------------------------------- distinctBy

  predicate HasKey<T, K(==)>(s: seq<T>, key: T -> K, k: K)
  {
    exists i :: 0 <= i < |s| && key(s[i]) == k
  }

  /** `distinctBy(key)`: the first element of every key, in their original order. */
  function DistinctBy<T, K(==)>(s: seq<T>, key: T -> K): seq<T>
  {
    if s == [] then []
    else
      var init := s[..|s| - 1];
      var last := s[|s| - 1];
      if HasKey(init, key, key(last)) then DistinctBy(init, key) else DistinctBy(init, key) + [last]
  }

  /** What `distinctBy` keeps is in order and has each key once, and every key of the input is kept. */
  lemma {:induction false} DistinctByCorrect<T, K>(s: seq<T>, key: T -> K)
    ensures Subsequence(DistinctBy(s, key), s)
    ensures forall i, j :: 0 <= i < j < |DistinctBy(s, key)| ==>
      key(DistinctBy(s, key)[i]) != key(DistinctBy(s, key)[j])
    ensures forall k :: HasKey(DistinctBy(s, key), key, k) <==> HasKey(s, key, k)
  {
    var r := DistinctBy(s, key);
    if s == [] {
    } else {
      var init := s[..|s| - 1];
      var last := s[|s| - 1];
      var r0 := DistinctBy(init, key);
      DistinctByCorrect(init, key);
      assert s == init + [last];
      forall k ensures HasKey(s, key, k) <==> HasKey(init, key, k) || key(last) == k {
        if HasKey(s, key, k) {
          var i :| 0 <= i < |s| && key(s[i]) == k;
          if i < |init| { assert init[i] == s[i]; }
        }
        if HasKey(init, key, k) {
          var i :| 0 <= i < |init| && key(init[i]) == k;
          assert s[i] == init[i];
        }
        if key(last) == k { assert key(s[|s| - 1]) == k; }
      }
      if HasKey(init, key, key(last)) {
        SubsequenceAppend(r0, init, [], [last]);
        assert r0 + [] == r0;
      } else {
        SubsequenceRefl([last]);
        SubsequenceAppend(r0, init, [last], [last]);
        forall k | HasKey(r, key, k) ensures HasKey(r0, key, k) || key(last) == k {
          var i :| 0 <= i < |r| && key(r[i]) == k;
          if i < |r0| { assert r0[i] == r[i]; }
        }
        forall k | HasKey(r0, key, k) ensures HasKey(r, key, k) {
          var i :| 0 <= i < |r0| && key(r0[i]) == k;
          assert r[i] == r0[i];
        }
        assert key(r[|r| - 1]) == key(last);
        forall i, j | 0 <= i < j < |r| ensures key(r[i]) != key(r[j]) {
          if j == |r| - 1 {
            assert HasKey(r0, key, key(r0[i]));
          }
        }
      }
    }
  }

  /** `x` occurs in `s` before any other element with its key. */
  predicate FirstOfKey<T(==), K(==)>(s: seq<T>, key: T -> K, x: T)
  {
    exists j :: 0 <= j < |s| && s[j] == x && !HasKey(s[..j], key, key(x))
  }

  /** Each element `distinctBy` keeps is the first element of the input with its key. */
  lemma {:induction false} DistinctByFirst<T, K>(s: seq<T>, key: T -> K)
    ensures forall i :: 0 <= i < |DistinctBy(s, key)| ==> FirstOfKey(s, key, DistinctBy(s, key)[i])
  {
    if s != [] {
      var init := s[..|s| - 1];
      var last := s[|s| - 1];
      var r0 := DistinctBy(init, key);
      var r := DistinctBy(s, key);
      DistinctByFirst(init, key);
      assert r == r0 || r == r0 + [last];
      forall i | 0 <= i < |r|
        ensures FirstOfKey(s, key, r[i])
      {
        if i < |r0| {
          assert r[i] == r0[i];
          assert FirstOfKey(init, key, r0[i]);
          var j :| 0 <= j < |init| && init[j] == r0[i] && !HasKey(init[..j], key, key(r0[i]));
          assert s[j] == init[j] && s[..j] == init[..j];
        } else {
          assert r[i] == last && s[..|s| - 1] == init;
          assert !HasKey(init, key, key(last));
        }
      }
    }
  }

  // ---------------------------------------------------------------- insertion-ordered maps

  /** A `mutableMapOf` (LinkedHashMap): entries in insertion order. */
  type Entries<K, V> = seq<(K, V)>

  predicate DistinctKeys<K(==), V>(m: Entries<K, V>)
  {
    forall i, j :: 0 <= i < j < |m| ==> m[i].0 != m[j].0
  }

  function Get<K(==), V>(m: Entries<K, V>, k: K): (r: Option<V>)
    ensures r.None? <==> forall i :: 0 <= i < |m| ==> m[i].0 != k
    ensures r.Some? ==> exists i :: 0 <= i < |m| && m[i] == (k, r.value)
  {
    if m == [] then None
    else if m[0].0 == k then Some(m[0].1)
    else Get(m[1..], k)
  }

  /** `map[k] = v`: replaces the value in place, or appends a new entry. */
  function Put<K(==), V>(m: Entries<K, V>, k: K, v: V): Entries<K, V>
  {
    if m == [] then [(k, v)]
    else if m[0].0 == k then [(k, v)] + m[1..]
    else [m[0]] + Put(m[1..], k, v)
  }

  lemma {:induction false} PutGet<K, V>(m: Entries<K, V>, k: K, v: V)
    ensures Get(Put(m, k, v), k) == Some(v)
    ensures forall k' :: k' != k ==> Get(Put(m, k, v), k') == Get(m, k')
  {
    if m != [] && m[0].0 != k {
      PutGet(m[1..], k, v);
    }
  }

  /** `put` on a present key keeps every entry's place; on a new key it appends. */
  lemma {:induction false} PutShape<K, V>(m: Entries<K, V>, k: K, v: V)
    ensures Get(m, k).None? ==> Put(m, k, v) == m + [(k, v)]
    ensures Get(m, k).Some? ==>
      (|Put(m, k, v)| == |m| && forall i :: 0 <= i < |m| ==> Put(m, k, v)[i].0 == m[i].0)
  {
    if m != [] && m[0].0 != k {
      PutShape(m[1..], k, v);
      assert m == [m[0]] + m[1..];
    }
  }

  lemma {:induction false} PutDistinct<K, V>(m: Entries<K, V>, k: K, v: V)
    requires DistinctKeys(m)
    ensures DistinctKeys(Put(m, k, v))
  {
    PutShape(m, k, v);
    var r := Put(m, k, v);
    if Get(m, k).None? {
      forall i, j | 0 <= i < j < |r| ensures r[i].0 != r[j].0 {
        if j == |m| { assert m[i].0 != k; }
      }
    }
  }

  /** In a map without repeated keys, each entry is what `get` finds for its key. */
  lemma {:induction false} GetAt<K, V>(m: Entries<K, V>, i: int)
    requires DistinctKeys(m) && 0 <= i < |m|
    ensures Get(m, m[i].0) == Some(m[i].1)
  {
    if i > 0 {
      assert m[0].0 != m[i].0;
      GetAt(m[1..], i - 1);
    }
  }

  function Keys<K, V>(m: Entries<K, V>): (ks: seq<K>)
    ensures |ks| == |m| && forall i :: 0 <= i < |m| ==> ks[i] == m[i].0
  {
    if m == [] then [] else [m[0].0] + Keys(m[1..])
  }

  // ---------------------------------------------------------------- counting by key

  /** `map[k] = (map[k] ?: 0) + 1` */
  function Increment<K(==)>(m: Entries<K, int>, k: K): Entries<K, int>
  {
    var old_count := match Get(m, k) case Some(c) => c case None => 0;
    Put(m, k, old_count + 1)
  }

  /** The counting map after `forEach { map[k] = (map[k] ?: 0) + 1 }` over `ks`. */
  function Tally<K(==)>(ks: seq<K>): Entries<K, int>
  {
    if ks == [] then [] else Increment(Tally(ks[..|ks| - 1]), ks[|ks| - 1])
  }

  /**
   * Each key is counted once per occurrence: a key is in the map exactly when it occurs,
   * with its number of occurrences, and no key is entered twice.
   */
  lemma {:induction false} TallyCounts<K>(ks: seq<K>)
    ensures DistinctKeys(Tally(ks))
    ensures forall k :: Get(Tally(ks), k) == if k in ks then Some(multiset(ks)[k]) else None
  {
    TallyDistinct(ks);
    forall k ensures Get(Tally(ks), k) == if k in ks then Some(multiset(ks)[k]) else None {
      TallyGet(ks, k);
    }
  }

  lemma {:induction false} TallyDistinct<K>(ks: seq<K>)
    ensures DistinctKeys(Tally(ks))
  {
    if ks != [] {
      var m := Tally(ks[..|ks| - 1]);
      var c := match Get(m, ks[|ks| - 1]) case Some(c) => c case None => 0;
      TallyDistinct(ks[..|ks| - 1]);
      PutDistinct(m, ks[|ks| - 1], c + 1);
    }
  }

  lemma {:induction false} TallyGet<K>(ks: seq<K>, k: K)
    ensures Get(Tally(ks), k) == if k in ks then Some(multiset(ks)[k]) else None
  {
    if ks != [] {
      var init, last := ks[..|ks| - 1], ks[|ks| - 1];
      TallyGet(init, k);
      IncrementGet(Tally(init), last, k);
      LastOccurrence(ks, k);
    }
  }

  lemma IncrementGet<K>(m: Entries<K, int>, k: K, k': K)
    ensures Get(Increment(m, k), k') ==
      if k' != k then Get(m, k')
      else Some(1 + match Get(m, k) case Some(c) => c case None => 0)
  {
    var c := match Get(m, k) case Some(c) => c case None => 0;
    assert Increment(m, k) == Put(m, k, c + 1);
    PutGet(m, k, c + 1);
    if k' != k {
      assert Get(Put(m, k, c + 1), k') == Get(m, k');
    }
  }

  lemma LastOccurrence<K>(ks: seq<K>, k: K)
    requires ks != []
    ensures k in ks <==> k in ks[..|ks| - 1] || k == ks[|ks| - 1]
    ensures multiset(ks)[k] == multiset(ks[..|ks| - 1])[k] + if k == ks[|ks| - 1] then 1 else 0
  {
    assert ks == ks[..|ks| - 1] + [ks[|ks| - 1]];
  }

  /** Each entry of the counting map is an occurring key with its number of occurrences. */
  lemma TallyEntry<K>(ks: seq<K>, i: int)
    requires 0 <= i < |Tally(ks)|
    ensures Tally(ks)[i].0 in ks && Tally(ks)[i].1 == multiset(ks)[Tally(ks)[i].0]
  {
    var m := Tally(ks);
    TallyCounts(ks);
    GetAt(m, i);
    assert Get(m, m[i].0) == if m[i].0 in ks then Some(multiset(ks)[m[i].0]) else None;
  }

  /** Every occurring key has an entry in the counting map. */
  lemma TallyFinds<K>(ks: seq<K>, k: K) returns (i: int)
    requires k in ks
    ensures 0 <= i < |Tally(ks)| && Tally(ks)[i].0 == k
  {
    TallyCounts(ks);
    var m := Tally(ks);
    i :| 0 <= i < |m| && m[i] == (k, Get(m, k).value);
  }
}
