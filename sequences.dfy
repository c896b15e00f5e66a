/** List operations shared by the collectors: keeping the elements that satisfy a test, and
    keeping the first element for each key (the `seen`-set loops of the collectors). */
module Sequences {
  import opened Wrappers

  /** The first element of `s` that passes the test, as a loop with an early return finds it. */
  function FirstWhere<T>(p: T -> bool, s: seq<T>): (r: Option<T>)
    ensures r.None? <==> forall i :: 0 <= i < |s| ==> !p(s[i])
    ensures r.Some? ==> exists i :: 0 <= i < |s| && s[i] == r.value && p(s[i]) && forall j :: 0 <= j < i ==> !p(s[j])
  {
    if s == [] then None
    else if p(s[0]) then Some(s[0])
    else
      var r := FirstWhere(p, s[1..]);
      assert forall i :: 1 <= i < |s| ==> s[i] == s[1..][i - 1];
      r
  }

  /** `FirstWhere` finds nothing when no element passes. */
  lemma FirstWhereNone<T>(p: T -> bool, s: seq<T>)
    requires forall i :: 0 <= i < |s| ==> !p(s[i])
    ensures FirstWhere(p, s).None?
  {
  }

  /** The element `FirstWhere` finds is the one at the first index that passes. */
  lemma FirstWhereAt<T>(p: T -> bool, s: seq<T>, i: int)
    requires 0 <= i < |s| && p(s[i])
    requires forall j :: 0 <= j < i ==> !p(s[j])
    ensures FirstWhere(p, s) == Some(s[i])
  {
    var r := FirstWhere(p, s);
    var k :| 0 <= k < |s| && s[k] == r.value && p(s[k]) && forall j :: 0 <= j < k ==> !p(s[j]);
    assert k == i;
  }

  /** The set of elements of `s`. */
  function Elems<T>(s: seq<T>): set<T> {
    if s == [] then {} else {s[0]} + Elems(s[1..])
  }

  lemma {:induction false} ElemsMembers<T>(s: seq<T>)
    ensures forall x :: x in Elems(s) <==> x in s
  {
    if s != [] {
      ElemsMembers(s[1..]);
      assert forall x :: x in s <==> x == s[0] || x in s[1..];
    }
  }

  /** A sequence without repeated elements has as many elements as its set. */
  lemma {:induction false} ElemsDistinct<T>(s: seq<T>)
    requires forall i, j :: 0 <= i < j < |s| ==> s[i] != s[j]
    ensures |Elems(s)| == |s|
  {
    if s != [] {
      ElemsDistinct(s[1..]);
      ElemsMembers(s[1..]);
      assert s[0] !in s[1..];
    }
  }

  /** `[x for x in s if p(x)]`. */
  function Filter<T>(p: T -> bool, s: seq<T>): (r: seq<T>)
    ensures |r| <= |s|
  {
    if s == [] then [] else (if p(s[0]) then [s[0]] else []) + Filter(p, s[1..])
  }

  lemma {:induction false} FilterAppend<T>(p: T -> bool, a: seq<T>, b: seq<T>)
    ensures Filter(p, a + b) == Filter(p, a) + Filter(p, b)
  {
    if a == [] {
      assert a + b == b;
    } else {
      var h := if p(a[0]) then [a[0]] else [];
      assert (a + b)[0] == a[0];
      assert (a + b)[1..] == a[1..] + b;
      FilterAppend(p, a[1..], b);
      calc {
        Filter(p, a + b);
        h + Filter(p, a[1..] + b);
        h + (Filter(p, a[1..]) + Filter(p, b));
        (h + Filter(p, a[1..])) + Filter(p, b);
      }
    }
  }

  /** An element is kept exactly when it is in `s` and passes the test. */
  lemma {:induction false} FilterMembers<T>(p: T -> bool, s: seq<T>)
    ensures forall x :: x in Filter(p, s) <==> x in s && p(x)
  {
    if s != [] {
      FilterMembers(p, s[1..]);
      assert s == [s[0]] + s[1..];
    }
  }

  /** Filtering is idempotent. */
  lemma {:induction false} FilterIdempotent<T>(p: T -> bool, s: seq<T>)
    ensures Filter(p, Filter(p, s)) == Filter(p, s)
  {
    if s != [] {
      FilterIdempotent(p, s[1..]);
      FilterAppend(p, if p(s[0]) then [s[0]] else [], Filter(p, s[1..]));
    }
  }

  /** The keys of the elements of `s`: the `seen` set after a loop over `s`. */
  function KeysOf<T, K(==)>(s: seq<T>, key: T -> K): (ks: set<K>)
    ensures forall i :: 0 <= i < |s| ==> key(s[i]) in ks
  {
    if s == [] then {} else KeysOf(s[..|s| - 1], key) + {key(s[|s| - 1])}
  }

  /** Every key in `KeysOf` comes from some element. */
  lemma {:induction false} KeysOfWitness<T, K>(s: seq<T>, key: T -> K, k: K)
    requires k in KeysOf(s, key)
    ensures exists i :: 0 <= i < |s| && key(s[i]) == k
  {
    if key(s[|s| - 1]) != k {
      KeysOfWitness(s[..|s| - 1], key, k);
      var i :| 0 <= i < |s| - 1 && key(s[..|s| - 1][i]) == k;
      assert key(s[i]) == k;
    }
  }

  /** The position of the first element of `s` whose key is `k`. */
  function FirstIndex<T, K(==)>(s: seq<T>, key: T -> K, k: K): (r: nat)
    requires k in KeysOf(s, key)
    ensures r < |s| && key(s[r]) == k
    ensures forall i :: 0 <= i < r ==> key(s[i]) != k
  {
    var init := s[..|s| - 1];
    if k in KeysOf(init, key) then
      var r := FirstIndex(init, key, k);
      assert forall i :: 0 <= i <= r ==> init[i] == s[i];
      r
    else
      assert forall i :: 0 <= i < |s| - 1 ==> key(s[i]) == key(init[i]);
      |s| - 1
  }

  /** The first element of `s` for each key, in the order of `s`: a loop that skips an
      element whose key is already in `seen` and otherwise adds the key and keeps it. */
  function DedupeBy<T, K(==)>(s: seq<T>, key: T -> K): seq<T>
  {
    if s == [] then []
    else
      var init := s[..|s| - 1];
      DedupeBy(init, key) + (if key(s[|s| - 1]) in KeysOf(init, key) then [] else [s[|s| - 1]])
  }

  /** Appending one element: it is kept exactly when its key is new. */
  lemma DedupeStep<T, K>(s: seq<T>, x: T, key: T -> K)
    ensures DedupeBy(s + [x], key) == DedupeBy(s, key) + (if key(x) in KeysOf(s, key) then [] else [x])
    ensures KeysOf(s + [x], key) == KeysOf(s, key) + {key(x)}
  {
    assert (s + [x])[..|s + [x]| - 1] == s;
  }

  /** No two elements of `s` share a key. */
  predicate DistinctKeys<T, K(==)>(s: seq<T>, key: T -> K) {
    forall i, j :: 0 <= i < j < |s| ==> key(s[i]) != key(s[j])
  }

  /** Deduplication keeps the set of keys. */
  lemma {:induction false} DedupeKeys<T, K>(s: seq<T>, key: T -> K)
    ensures KeysOf(DedupeBy(s, key), key) == KeysOf(s, key)
  {
    if s != [] {
      var init := s[..|s| - 1];
      var x := s[|s| - 1];
      DedupeKeys(init, key);
      var d := DedupeBy(init, key);
      assert KeysOf(s, key) == KeysOf(init, key) + {key(x)};
      if key(x) !in KeysOf(init, key) {
        assert DedupeBy(s, key) == d + [x];
        assert (d + [x])[..|d + [x]| - 1] == d;
        assert (d + [x])[|d + [x]| - 1] == x;
      } else {
        assert DedupeBy(s, key) == d + [];
        assert d + [] == d;
      }
    }
  }

  /** Every kept element is the first element of `s` with its key, and the kept elements
      appear in the order of those first positions: the output is the subsequence of the
      first occurrences. */
  lemma {:induction false} DedupeFirstOccurrences<T, K>(s: seq<T>, key: T -> K)
    ensures forall j :: 0 <= j < |DedupeBy(s, key)| ==>
      key(DedupeBy(s, key)[j]) in KeysOf(s, key) &&
      DedupeBy(s, key)[j] == s[FirstIndex(s, key, key(DedupeBy(s, key)[j]))]
    ensures forall j1, j2 :: 0 <= j1 < j2 < |DedupeBy(s, key)| ==>
      FirstIndex(s, key, key(DedupeBy(s, key)[j1])) < FirstIndex(s, key, key(DedupeBy(s, key)[j2]))
  {
    if s != [] {
      var init := s[..|s| - 1];
      var x := s[|s| - 1];
      DedupeFirstOccurrences(init, key);
      var d := DedupeBy(init, key);
      assert forall j :: 0 <= j < |d| ==> FirstIndex(s, key, key(d[j])) == FirstIndex(init, key, key(d[j]));
      assert forall j :: 0 <= j < |d| ==> d[j] == s[FirstIndex(s, key, key(d[j]))];
      if key(x) !in KeysOf(init, key) {
        assert DedupeBy(s, key) == d + [x];
        assert FirstIndex(s, key, key(x)) == |s| - 1;
      }
    }
  }

  /** Every kept element comes from the input. */
  lemma {:induction false} DedupeMembers<T, K>(s: seq<T>, key: T -> K)
    ensures forall x :: x in DedupeBy(s, key) ==> x in s
  {
    if s != [] {
      var init := s[..|s| - 1];
      DedupeMembers(init, key);
      assert forall x :: x in init ==> x in s;
    }
  }

  /** Deduplication empties only the empty sequence. */
  lemma DedupeEmpty<T, K>(s: seq<T>, key: T -> K)
    ensures DedupeBy(s, key) == [] <==> s == []
  {
    DedupeKeys(s, key);
    if s != [] {
      assert key(s[0]) in KeysOf(DedupeBy(s, key), key);
    }
  }

  /** The output never holds two elements with the same key. */
  lemma DedupeDistinct<T, K>(s: seq<T>, key: T -> K)
    ensures DistinctKeys(DedupeBy(s, key), key)
  {
    var d := DedupeBy(s, key);
    DedupeFirstOccurrences(s, key);
    forall i, j | 0 <= i < j < |d| ensures key(d[i]) != key(d[j]) {
      assert FirstIndex(s, key, key(d[i])) < FirstIndex(s, key, key(d[j]));
    }
  }

  /** Input whose keys are already distinct is returned unchanged. */
  lemma {:induction false} DedupeOfDistinct<T, K>(s: seq<T>, key: T -> K)
    requires DistinctKeys(s, key)
    ensures DedupeBy(s, key) == s
  {
    if s != [] {
      var init := s[..|s| - 1];
      DedupeOfDistinct(init, key);
      if key(s[|s| - 1]) in KeysOf(init, key) {
        KeysOfWitness(init, key, key(s[|s| - 1]));
        assert false;
      }
    }
  }

  /** Deduplicating twice is the same as deduplicating once. */
  lemma DedupeIdempotent<T, K>(s: seq<T>, key: T -> K)
    ensures DedupeBy(DedupeBy(s, key), key) == DedupeBy(s, key)
  {
    DedupeDistinct(s, key);
    DedupeOfDistinct(DedupeBy(s, key), key);
  }
}
