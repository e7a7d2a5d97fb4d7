/** Generic list operations that the handlers of the application build their
    new state lists from: `filter`, a keyed `map`-replace, keyed removal and
    keyed upsert, as the TypeScript code writes them with `Array.prototype`
    methods. */
module Seqs {

  /** `s.filter(p)`: keeps exactly the elements satisfying `p`, in order. */
  function Filter<T(!new)>(s: seq<T>, p: T -> bool): (r: seq<T>)
    ensures |r| <= |s|
    ensures forall x :: x in r <==> x in s && p(x)
  {
    if s == [] then []
    else
      var rest := Filter(s[1..], p);
      assert s == [s[0]] + s[1..];
      if p(s[0]) then [s[0]] + rest else rest
  }

  /** Filtering distributes over concatenation, so the relative order of the
      kept elements is the order they had in the input. */
  lemma {:induction false} FilterAppend<T(!new)>(a: seq<T>, b: seq<T>, p: T -> bool)
    ensures Filter(a + b, p) == Filter(a, p) + Filter(b, p)
  {
    if a == [] {
      assert a + b == b;
    } else {
      assert (a + b)[0] == a[0];
      assert (a + b)[1..] == a[1..] + b;
      FilterAppend(a[1..], b, p);
    }
  }

  /** Filtering keeps every surviving element with its full multiplicity. */
  lemma {:induction false} FilterCount<T(!new)>(s: seq<T>, p: T -> bool, x: T)
    ensures multiset(Filter(s, p))[x] == if p(x) then multiset(s)[x] else 0
  {
    if s != [] {
      assert s == [s[0]] + s[1..];
      FilterCount(s[1..], p, x);
    }
  }

  /** When every element passes, filtering is the identity. */
  lemma {:induction false} FilterAll<T(!new)>(s: seq<T>, p: T -> bool)
    requires forall x :: x in s ==> p(x)
    ensures Filter(s, p) == s
  {
    if s != [] {
      FilterAll(s[1..], p);
    }
  }

  /** True iff some element has key `k` (`s.find(x => key(x) === k)`). */
  predicate HasKey<T, K(==)>(s: seq<T>, key: T -> K, k: K)
  {
    exists i :: 0 <= i < |s| && key(s[i]) == k
  }

  /** `s.findIndex(x => key(x) === k)`: the position of the first element
      with key `k`, or -1 when there is none. */
  function FindIndex<T, K(==)>(s: seq<T>, key: T -> K, k: K): (i: int)
    ensures -1 <= i < |s|
    ensures i >= 0 ==> key(s[i]) == k && forall j :: 0 <= j < i ==> key(s[j]) != k
    ensures i == -1 <==> !HasKey(s, key, k)
  {
    if s == [] then -1
    else if key(s[0]) == k then 0
    else
      var r := FindIndex(s[1..], key, k);
      assert HasKey(s, key, k) ==> HasKey(s[1..], key, k) by {
        if HasKey(s, key, k) {
          var j :| 0 <= j < |s| && key(s[j]) == k;
          assert s[1..][j - 1] == s[j];
        }
      }
      if r == -1 then -1
      else
        assert s[1..][r] == s[r + 1];
        r + 1
  }

  /** The condition `x => key(x) !== k`. */
  function KeyIsNot<T, K(==)>(key: T -> K, k: K): T -> bool
  {
    x => key(x) != k
  }

  /** `s.filter(x => key(x) !== k)`: the filter by `KeyIsNot`, so the kept
      elements keep their order (`RemoveKeyAppend`) and their multiplicity
      (`RemoveKeyCount`). */
  function RemoveKey<T(!new), K(==)>(s: seq<T>, key: T -> K, k: K): (r: seq<T>)
    ensures r == Filter(s, KeyIsNot(key, k))
    ensures |r| <= |s|
    ensures forall x :: x in r <==> x in s && key(x) != k
    ensures !HasKey(r, key, k)
    ensures !HasKey(s, key, k) ==> r == s
    ensures HasKey(s, key, k) ==> |r| < |s|
  {
    if s == [] then []
    else
      var rest := RemoveKey(s[1..], key, k);
      assert s == [s[0]] + s[1..];
      assert !HasKey(s[1..], key, k) ==> rest == s[1..];
      assert HasKey(s, key, k) && key(s[0]) != k ==> HasKey(s[1..], key, k);
      assert rest == [] || rest[0] in rest;
      if key(s[0]) != k then [s[0]] + rest else rest
  }

  /** Removal distributes over concatenation: the kept elements stay in
      the order they had. */
  lemma RemoveKeyAppend<T(!new), K>(a: seq<T>, b: seq<T>, key: T -> K, k: K)
    ensures RemoveKey(a + b, key, k) == RemoveKey(a, key, k) + RemoveKey(b, key, k)
  {
    FilterAppend(a, b, KeyIsNot(key, k));
  }

  /** Every element with another key is kept as often as it occurs; every
      element with the key is gone. */
  lemma RemoveKeyCount<T(!new), K>(s: seq<T>, key: T -> K, k: K, x: T)
    ensures multiset(RemoveKey(s, key, k))[x] == if key(x) != k then multiset(s)[x] else 0
  {
    FilterCount(s, KeyIsNot(key, k), x);
  }

  /** `s.map(x => key(x) === k ? v : x)`: every element with key `k` becomes
      `v`, every other element is kept, positions are unchanged. */
  function ReplaceKey<T, K(==)>(s: seq<T>, key: T -> K, k: K, v: T): (r: seq<T>)
    ensures |r| == |s|
    ensures forall i :: 0 <= i < |s| ==> r[i] == if key(s[i]) == k then v else s[i]
    ensures !HasKey(s, key, k) ==> r == s
  {
    if s == [] then []
    else [if key(s[0]) == k then v else s[0]] + ReplaceKey(s[1..], key, k, v)
  }

  /** The inventory save handler: replace in place when the key exists,
      otherwise put the new element in front. */
  function Upsert<T(!new), K(==)>(s: seq<T>, key: T -> K, v: T): (r: seq<T>)
    ensures HasKey(s, key, key(v)) ==> r == ReplaceKey(s, key, key(v), v)
    ensures !HasKey(s, key, key(v)) ==> r == [v] + s
    ensures v in r
    ensures forall x :: x in s && key(x) != key(v) ==> x in r
    ensures forall x :: x in r ==> x == v || (x in s && key(x) != key(v))
  {
    if HasKey(s, key, key(v)) then
      var r := ReplaceKey(s, key, key(v), v);
      var i :| 0 <= i < |s| && key(s[i]) == key(v);
      assert r[i] == v;
      assert forall x :: x in s && key(x) != key(v) ==> x in r by {
        forall x | x in s && key(x) != key(v) ensures x in r {
          var j :| 0 <= j < |s| && s[j] == x;
          assert r[j] == x;
        }
      }
      r
    else [v] + s
  }

  /** No two elements share a key. */
  predicate DistinctKeys<T, K(==)>(s: seq<T>, key: T -> K)
  {
    forall i, j :: 0 <= i < j < |s| ==> key(s[i]) != key(s[j])
  }

  /** Removing a key from a list whose keys are distinct removes at most one
      element and keeps the keys distinct. */
  lemma {:induction false} RemoveKeyDistinct<T(!new), K>(s: seq<T>, key: T -> K, k: K)
    requires DistinctKeys(s, key)
    ensures |RemoveKey(s, key, k)| >= |s| - 1
    ensures DistinctKeys(RemoveKey(s, key, k), key)
  {
    if s != [] {
      DistinctTail(s, key);
      RemoveKeyDistinct(s[1..], key, k);
      var rest := RemoveKey(s[1..], key, k);
      assert s == [s[0]] + s[1..];
      if key(s[0]) != k {
        NoKeyInPart(rest, s[1..], key, key(s[0]));
        ConsDistinct(s[0], rest, key);
      }
    }
  }

  /** The tail of a list with distinct keys has distinct keys, none of them
      the key of the head. */
  lemma DistinctTail<T, K>(s: seq<T>, key: T -> K)
    requires DistinctKeys(s, key) && s != []
    ensures DistinctKeys(s[1..], key)
    ensures !HasKey(s[1..], key, key(s[0]))
  {
    forall i, j | 0 <= i < j < |s[1..]| ensures key(s[1..][i]) != key(s[1..][j]) {
      assert s[1..][i] == s[i + 1] && s[1..][j] == s[j + 1];
    }
    forall i | 0 <= i < |s[1..]| ensures key(s[1..][i]) != key(s[0]) {
      assert s[1..][i] == s[i + 1];
    }
  }

  /** A key missing from a list is missing from every list drawn from it. */
  lemma NoKeyInPart<T, K>(a: seq<T>, b: seq<T>, key: T -> K, k: K)
    requires forall x :: x in a ==> x in b
    requires !HasKey(b, key, k)
    ensures !HasKey(a, key, k)
  {
    forall i | 0 <= i < |a| ensures key(a[i]) != k {
      assert a[i] in b;
    }
  }

  /** An element whose key is new to a list with distinct keys can go in
      front of it. */
  lemma ConsDistinct<T, K>(x: T, s: seq<T>, key: T -> K)
    requires DistinctKeys(s, key) && !HasKey(s, key, key(x))
    ensures DistinctKeys([x] + s, key)
  {
    var r := [x] + s;
    forall i, j | 0 <= i < j < |r| ensures key(r[i]) != key(r[j]) {
      assert r[j] == s[j - 1];
      if i > 0 {
        assert r[i] == s[i - 1];
      }
    }
  }
}
