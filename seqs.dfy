/**
 * The array operations the JavaScript code leans on (`findIndex`/`find`,
 * `filter`, `some`, `[...new Set(s)]`) over Dafny sequences, each keyed by a
 * field-selector function such as a record's `Id`.
 */
module Seqs {
  import opened Wrappers

  /** `a` is `b` with some elements left out and the others in their original order. */
  ghost predicate IsSubsequence<T>(a: seq<T>, b: seq<T>)
    decreases |b|
  {
    a == [] || (b != [] && ((a[0] == b[0] && IsSubsequence(a[1..], b[1..])) || IsSubsequence(a, b[1..])))
  }

  ghost predicate Distinct<T>(s: seq<T>) {
    forall i, j :: 0 <= i < j < |s| ==> s[i] != s[j]
  }

  /** `s.some(x => key(x) === k)`. */
  predicate HasKey<T, K(==)>(s: seq<T>, key: T -> K, k: K) {
    exists i :: 0 <= i < |s| && key(s[i]) == k
  }

  /** `s.findIndex(x => key(x) === k)`, with `-1` as `None`: the FIRST match. */
  function IndexOfKey<T, K(==)>(s: seq<T>, key: T -> K, k: K): (r: Option<nat>)
    ensures r.Some? ==> r.value < |s| && key(s[r.value]) == k
    ensures r.Some? ==> forall j :: 0 <= j < r.value ==> key(s[j]) != k
    ensures r.None? <==> !HasKey(s, key, k)
  {
    if s == [] then None
    else if key(s[0]) == k then Some(0)
    else match IndexOfKey(s[1..], key, k)
      case None => None
      case Some(i) => Some(i + 1)
  }

  /** `s.filter(x => key(x) !== k)`. */
  function WithoutKey<T(!new), K(==)>(s: seq<T>, key: T -> K, k: K): (r: seq<T>)
    ensures forall x {:trigger multiset(r)[x]} :: multiset(r)[x] == if key(x) == k then 0 else multiset(s)[x]
    ensures IsSubsequence(r, s)
    ensures !HasKey(r, key, k)
    ensures !HasKey(s, key, k) ==> r == s
  {
    if s == [] then []
    else
      assert s == [s[0]] + s[1..];
      if key(s[0]) == k then WithoutKey(s[1..], key, k)
    else [s[0]] + WithoutKey(s[1..], key, k)
  }

  /** Filtering distributes over appending one element. */
  lemma {:induction false} WithoutKeyAppend<T(!new), K>(s: seq<T>, y: T, key: T -> K, k: K)
    ensures WithoutKey(s + [y], key, k) == WithoutKey(s, key, k) + (if key(y) == k then [] else [y])
  {
    if s == [] {
      assert s + [y] == [y];
    } else {
      assert (s + [y])[0] == s[0] && (s + [y])[1..] == s[1..] + [y];
      WithoutKeyAppend(s[1..], y, key, k);
    }
  }

  /** `s.filter(x => key(x) === k)`. */
  function WithKey<T(!new), K(==)>(s: seq<T>, key: T -> K, k: K): (r: seq<T>)
    ensures forall x {:trigger multiset(r)[x]} :: multiset(r)[x] == if key(x) == k then multiset(s)[x] else 0
    ensures IsSubsequence(r, s)
    ensures forall i :: 0 <= i < |r| ==> key(r[i]) == k
  {
    if s == [] then []
    else
      assert s == [s[0]] + s[1..];
      if key(s[0]) == k then [s[0]] + WithKey(s[1..], key, k)
    else WithKey(s[1..], key, k)
  }

  /** The distinct elements of `s`, each once (`[...new Set(s)]`; its callers sort the result, so the order is not stated). */
  function Dedup<T(==,!new)>(s: seq<T>): (r: seq<T>)
    ensures Distinct(r)
    ensures forall x :: x in r <==> x in s
  {
    if s == [] then []
    else
      var r := Dedup(s[..|s| - 1]);
      if s[|s| - 1] in r then r else r + [s[|s| - 1]]
  }

  function Identity<T>(x: T): T { x }

  /** No two elements share a key. */
  ghost predicate UniqueKeys<T, K>(s: seq<T>, key: T -> K) {
    forall i, j :: 0 <= i < j < |s| ==> key(s[i]) != key(s[j])
  }

  /** `s.splice(i, 1)`. */
  function RemoveAt<T>(s: seq<T>, i: nat): (r: seq<T>)
    requires i < |s|
    ensures |r| == |s| - 1
    ensures forall j :: 0 <= j < i ==> r[j] == s[j]
    ensures forall j :: i <= j < |r| ==> r[j] == s[j + 1]
  {
    s[..i] + s[i + 1..]
  }

  /** Under unique keys, splicing out the first match removes every match. */
  lemma {:induction false} RemoveFirstIsWithoutKey<T(!new), K>(s: seq<T>, key: T -> K, k: K)
    requires UniqueKeys(s, key) && HasKey(s, key, k)
    ensures RemoveAt(s, IndexOfKey(s, key, k).value) == WithoutKey(s, key, k)
  {
    assert s == [s[0]] + s[1..];
    if key(s[0]) == k {
      assert !HasKey(s[1..], key, k) by {
        forall j | 0 <= j < |s[1..]| ensures key(s[1..][j]) != k {
          assert s[1..][j] == s[j + 1];
        }
      }
      assert RemoveAt(s, 0) == s[1..];
    } else {
      var t := s[1..];
      assert HasKey(t, key, k) by {
        var j :| 0 <= j < |s| && key(s[j]) == k;
        assert t[j - 1] == s[j];
      }
      assert UniqueKeys(t, key) by {
        forall i, j | 0 <= i < j < |t| ensures key(t[i]) != key(t[j]) {
          assert t[i] == s[i + 1] && t[j] == s[j + 1];
        }
      }
      RemoveFirstIsWithoutKey(t, key, k);
      var n := IndexOfKey(t, key, k).value;
      assert IndexOfKey(s, key, k) == Some(n + 1);
      assert RemoveAt(s, n + 1) == [s[0]] + RemoveAt(t, n);
    }
  }

  /** `Math.max(...ids, 0)`. */
  function MaxWithZero(ids: seq<int>): (r: int)
    ensures r >= 0
    ensures forall i :: 0 <= i < |ids| ==> ids[i] <= r
    ensures r == 0 || r in ids
  {
    if ids == [] then 0
    else
      var rest := MaxWithZero(ids[1..]);
      if ids[0] > rest then ids[0] else rest
  }

  /** The next id: one more than the largest id and 0, so at least 1 and above every existing id. */
  function NextId(ids: seq<int>): (r: int)
    ensures r >= 1 && forall i :: 0 <= i < |ids| ==> ids[i] < r
    ensures ids == [] ==> r == 1
  {
    MaxWithZero(ids) + 1
  }

  /** Appending the next id to distinct ids keeps them distinct. */
  lemma NextIdStaysDistinct(ids: seq<int>)
    requires Distinct(ids)
    ensures Distinct(ids + [NextId(ids)])
  {
  }
}
