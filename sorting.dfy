/**
 * `slice::sort_by(|a, b| b.score.partial_cmp(&a.score).unwrap_or(Equal))`:
 * the stable sort both catalogs apply to their results. For `Option` scores
 * Rust orders `None` below every `Some`, so the comparator puts scored
 * items first, highest score first, and unscored items last; items with
 * equal keys keep their input order.
 */
module Sorting {
  import opened Wrappers

  /** Key `a` sorts strictly before key `b`. */
  predicate Before(a: Option<real>, b: Option<real>) {
    a.Some? && (b.None? || a.value > b.value)
  }

  /** No item comes after one it should precede. */
  predicate SortedDesc<T>(s: seq<T>, key: T -> Option<real>) {
    forall i, j :: 0 <= i < j < |s| ==> !Before(key(s[j]), key(s[i]))
  }

  /** The items of `s` whose key is `k`, in order. */
  function WithKey<T>(s: seq<T>, key: T -> Option<real>, k: Option<real>): seq<T> {
    if s == [] then []
    else (if key(s[0]) == k then [s[0]] else []) + WithKey(s[1..], key, k)
  }

  /** Puts `x` in front of the first item it need not follow. */
  function Insert<T>(x: T, s: seq<T>, key: T -> Option<real>): seq<T> {
    if s == [] || !Before(key(s[0]), key(x)) then [x] + s
    else [s[0]] + Insert(x, s[1..], key)
  }

  /** The stable sort, as an insertion sort from the back. */
  function SortDesc<T>(s: seq<T>, key: T -> Option<real>): seq<T> {
    if s == [] then [] else Insert(s[0], SortDesc(s[1..], key), key)
  }

  lemma {:induction false} InsertPermutes<T>(x: T, s: seq<T>, key: T -> Option<real>)
    ensures multiset(Insert(x, s, key)) == multiset(s) + multiset{x}
  {
    if s != [] && Before(key(s[0]), key(x)) {
      InsertPermutes(x, s[1..], key);
      assert s == [s[0]] + s[1..];
    }
  }

  lemma {:induction false} InsertSorted<T>(x: T, s: seq<T>, key: T -> Option<real>)
    requires SortedDesc(s, key)
    ensures SortedDesc(Insert(x, s, key), key)
  {
    if s != [] && Before(key(s[0]), key(x)) {
      var rest := Insert(x, s[1..], key);
      InsertSorted(x, s[1..], key);
      InsertPermutes(x, s[1..], key);
      forall j | 0 <= j < |rest|
        ensures !Before(key(rest[j]), key(s[0]))
      {
        assert rest[j] in multiset(rest);
        assert rest[j] == x || rest[j] in multiset(s[1..]);
        if rest[j] != x {
          var m :| 0 <= m < |s[1..]| && s[1..][m] == rest[j];
          assert s[m + 1] == rest[j];
        }
      }
    }
  }

  lemma {:induction false} InsertWithKey<T>(x: T, s: seq<T>, key: T -> Option<real>, k: Option<real>)
    ensures WithKey(Insert(x, s, key), key, k) == (if key(x) == k then [x] else []) + WithKey(s, key, k)
  {
    var own := if key(x) == k then [x] else [];
    if s == [] || !Before(key(s[0]), key(x)) {
      var r := [x] + s;
      assert r[0] == x && r[1..] == s;
      assert WithKey(r, key, k) == own + WithKey(s, key, k);
    } else {
      var rest := Insert(x, s[1..], key);
      var r := [s[0]] + rest;
      assert r[0] == s[0] && r[1..] == rest;
      var head := if key(s[0]) == k then [s[0]] else [];
      InsertWithKey(x, s[1..], key, k);
      assert WithKey(r, key, k) == head + (own + WithKey(s[1..], key, k));
      assert WithKey(s, key, k) == head + WithKey(s[1..], key, k);
      assert key(s[0]) != key(x);
      assert head == [] || own == [];
      assert head + own == own + head;
    }
  }

  /** The sort is a permutation of its input. */
  lemma {:induction false} SortDescPermutes<T>(s: seq<T>, key: T -> Option<real>)
    ensures multiset(SortDesc(s, key)) == multiset(s)
    ensures |SortDesc(s, key)| == |s|
  {
    if s != [] {
      SortDescPermutes(s[1..], key);
      InsertPermutes(s[0], SortDesc(s[1..], key), key);
      assert s == [s[0]] + s[1..];
    }
  }

  /** The sort orders its output by key. */
  lemma {:induction false} SortDescSorted<T>(s: seq<T>, key: T -> Option<real>)
    ensures SortedDesc(SortDesc(s, key), key)
  {
    if s != [] {
      SortDescSorted(s[1..], key);
      InsertSorted(s[0], SortDesc(s[1..], key), key);
    }
  }

  /** The sort is stable: the items sharing any one key keep their input order. */
  lemma {:induction false} SortDescStable<T>(s: seq<T>, key: T -> Option<real>, k: Option<real>)
    ensures WithKey(SortDesc(s, key), key, k) == WithKey(s, key, k)
  {
    if s != [] {
      SortDescStable(s[1..], key, k);
      InsertWithKey(s[0], SortDesc(s[1..], key), key, k);
    }
  }

  /** The first item of the sorted output has a key no other item precedes. */
  lemma SortDescHead<T>(s: seq<T>, key: T -> Option<real>)
    requires s != []
    ensures var r := SortDesc(s, key);
      |r| == |s| && r[0] in multiset(s) && forall i :: 0 <= i < |s| ==> !Before(key(s[i]), key(r[0]))
  {
    var r := SortDesc(s, key);
    SortDescPermutes(s, key);
    SortDescSorted(s, key);
    forall i | 0 <= i < |s|
      ensures !Before(key(s[i]), key(r[0]))
    {
      assert s[i] in multiset(r);
      var m :| 0 <= m < |r| && r[m] == s[i];
    }
    assert r[0] in multiset(r);
  }
}
