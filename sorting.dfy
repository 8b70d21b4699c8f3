/** Python's `sorted(xs, key=k)`: a stable sort on an integer key. Stability is
    stated key by key: for every key value, the elements carrying it appear in
    the result in the order they had in the input. Together with sortedness
    this determines the result uniquely. */
module Sorting {

  predicate SortedBy<T>(s: seq<T>, key: T -> int) {
    forall i, j :: 0 <= i < j < |s| ==> key(s[i]) <= key(s[j])
  }

  /** The elements of `s` whose key is `k`, in their order in `s`. */
  function WithKey<T>(s: seq<T>, key: T -> int, k: int): (r: seq<T>)
    ensures |r| <= |s|
  {
    if s == [] then []
    else (if key(s[0]) == k then [s[0]] else []) + WithKey(s[1..], key, k)
  }

  lemma {:induction false} WithKeyConcat<T>(a: seq<T>, b: seq<T>, key: T -> int, k: int)
    ensures WithKey(a + b, key, k) == WithKey(a, key, k) + WithKey(b, key, k)
  {
    if a == [] {
      assert a + b == b;
    } else {
      var t := a[1..];
      assert a == [a[0]] + t && a + b == [a[0]] + (t + b);
      WithKeyConcat(t, b, key, k);
      WithKeyCons(a[0], t + b, key, k);
      WithKeyCons(a[0], t, key, k);
      var h := if key(a[0]) == k then [a[0]] else [];
      assert h + (WithKey(t, key, k) + WithKey(b, key, k)) == (h + WithKey(t, key, k)) + WithKey(b, key, k);
    }
  }

  lemma WithKeyCons<T>(x: T, s: seq<T>, key: T -> int, k: int)
    ensures WithKey([x] + s, key, k) == (if key(x) == k then [x] else []) + WithKey(s, key, k)
  {
    assert ([x] + s)[0] == x && ([x] + s)[1..] == s;
  }

  lemma {:induction false} WithKeyAbove<T>(s: seq<T>, key: T -> int, k: int)
    requires forall i :: 0 <= i < |s| ==> key(s[i]) > k
    ensures WithKey(s, key, k) == []
  {
    if s != [] { WithKeyAbove(s[1..], key, k); }
  }

  lemma {:induction false} WithKeyAbsent<T>(s: seq<T>, key: T -> int, k: int)
    requires forall i :: 0 <= i < |s| ==> key(s[i]) != k
    ensures WithKey(s, key, k) == []
  {
    if s != [] { WithKeyAbsent(s[1..], key, k); }
  }

  /** The elements with key `k` in a prefix are the first ones in the whole. */
  lemma PrefixWithKey<T>(s: seq<T>, n: nat, key: T -> int, k: int)
    requires n <= |s|
    ensures |WithKey(s[..n], key, k)| <= |WithKey(s, key, k)|
    ensures WithKey(s[..n], key, k) == WithKey(s, key, k)[..|WithKey(s[..n], key, k)|]
  {
    assert s == s[..n] + s[n..];
    WithKeyConcat(s[..n], s[n..], key, k);
  }

  /** The number of leading elements of `s` whose key is at most `key(x)`. */
  function InsertPos<T>(x: T, s: seq<T>, key: T -> int): (i: nat)
    ensures i <= |s|
    ensures forall j :: 0 <= j < i ==> key(s[j]) <= key(x)
    ensures i < |s| ==> key(x) < key(s[i])
  {
    if s == [] || key(x) < key(s[0]) then 0 else 1 + InsertPos(x, s[1..], key)
  }

  /** Inserts `x` into the sorted `s` after every element whose key is at most `key(x)`. */
  function Insert<T>(x: T, s: seq<T>, key: T -> int): (r: seq<T>)
    requires SortedBy(s, key)
    ensures SortedBy(r, key)
    ensures multiset(r) == multiset(s) + multiset{x}
    ensures forall k :: WithKey(r, key, k) == WithKey(s, key, k) + (if key(x) == k then [x] else [])
  {
    var i := InsertPos(x, s, key);
    InsertSorted(x, s, key, i);
    AfterInsertPos(x, s, key);
    assert s == s[..i] + s[i..];
    assert forall k :: WithKey(s[..i] + [x] + s[i..], key, k) == WithKey(s, key, k) + (if key(x) == k then [x] else []) by {
      forall k ensures WithKey(s[..i] + [x] + s[i..], key, k) == WithKey(s, key, k) + (if key(x) == k then [x] else []) {
        InsertWithKey(x, s, key, i, k);
      }
    }
    s[..i] + [x] + s[i..]
  }

  lemma InsertSorted<T>(x: T, s: seq<T>, key: T -> int, i: nat)
    requires SortedBy(s, key) && i == InsertPos(x, s, key)
    ensures SortedBy(s[..i] + [x] + s[i..], key)
  {
    var r := s[..i] + [x] + s[i..];
    forall p, q | 0 <= p < q < |r| ensures key(r[p]) <= key(r[q]) {
      if q < i {
        assert r[p] == s[p] && r[q] == s[q];
      } else if q == i {
        assert r[p] == s[p] && r[q] == x;
      } else if p < i {
        assert r[p] == s[p] && r[q] == s[q - 1];
      } else if p == i {
        assert r[p] == x && r[q] == s[q - 1] && key(x) < key(s[i]) <= key(s[q - 1]);
      } else {
        assert r[p] == s[p - 1] && r[q] == s[q - 1];
      }
    }
  }

  /** Everything after the insertion point has a larger key. */
  lemma AfterInsertPos<T>(x: T, s: seq<T>, key: T -> int)
    requires SortedBy(s, key)
    ensures forall j :: InsertPos(x, s, key) <= j < |s| ==> key(s[j]) > key(x)
  {
    var i := InsertPos(x, s, key);
    forall j | i <= j < |s| ensures key(s[j]) > key(x) {
      assert key(s[i]) <= key(s[j]);
    }
  }

  lemma InsertWithKey<T>(x: T, s: seq<T>, key: T -> int, i: nat, k: int)
    requires i <= |s| && forall j :: i <= j < |s| ==> key(s[j]) > key(x)
    ensures WithKey(s[..i] + [x] + s[i..], key, k) == WithKey(s, key, k) + (if key(x) == k then [x] else [])
  {
    var a, b := s[..i], s[i..];
    assert s == a + b;
    assert s[..i] + [x] + s[i..] == a + ([x] + b);
    WithKeyConcat(a, [x] + b, key, k);
    WithKeyConcat([x], b, key, k);
    WithKeyConcat(a, b, key, k);
    var wa, wb := WithKey(a, key, k), WithKey(b, key, k);
    assert [x][1..] == [];
    if key(x) == k {
      assert WithKey([x], key, k) == [x];
      assert forall j :: 0 <= j < |b| ==> b[j] == s[i + j];
      WithKeyAbove(b, key, k);
      assert wa + ([x] + wb) == (wa + wb) + [x];
    } else {
      assert WithKey([x], key, k) == [];
      assert wa + ([] + wb) == (wa + wb) + [];
    }
  }

  /** `sorted(s, key=key)`. */
  function SortBy<T>(s: seq<T>, key: T -> int): (r: seq<T>)
    ensures |r| == |s|
    ensures SortedBy(r, key)
    ensures multiset(r) == multiset(s)
    ensures forall k :: WithKey(r, key, k) == WithKey(s, key, k)
    decreases |s|, 2
  {
    if s == [] then []
    else
      SortStep(s, key);
      Insert(s[|s| - 1], SortBy(s[..|s| - 1], key), key)
  }

  /** Inserting the last element into the sorted rest keeps the length, the
      multiset and every key's subsequence of `s`. */
  lemma SortStep<T>(s: seq<T>, key: T -> int)
    requires s != []
    ensures var r := Insert(s[|s| - 1], SortBy(s[..|s| - 1], key), key);
      |r| == |s| && multiset(r) == multiset(s)
      && forall k :: WithKey(r, key, k) == WithKey(s, key, k)
    decreases |s|, 1
  {
    SortStepCount(s, key);
    forall k ensures WithKey(Insert(s[|s| - 1], SortBy(s[..|s| - 1], key), key), key, k) == WithKey(s, key, k) {
      SortStepKey(s, key, k);
    }
  }

  lemma SortStepCount<T>(s: seq<T>, key: T -> int)
    requires s != []
    ensures var r := Insert(s[|s| - 1], SortBy(s[..|s| - 1], key), key);
      |r| == |s| && multiset(r) == multiset(s)
    decreases |s|, 0
  {
    var init, last := s[..|s| - 1], s[|s| - 1];
    var r := Insert(last, SortBy(init, key), key);
    assert s == init + [last];
    assert |r| == |multiset(r)| == |s|;
  }

  lemma SortStepKey<T>(s: seq<T>, key: T -> int, k: int)
    requires s != []
    ensures WithKey(Insert(s[|s| - 1], SortBy(s[..|s| - 1], key), key), key, k) == WithKey(s, key, k)
    decreases |s|, 0
  {
    var init, last := s[..|s| - 1], s[|s| - 1];
    assert s == init + [last];
    WithKeyConcat(init, [last], key, k);
    assert WithKey([last], key, k) == (if key(last) == k then [last] else []) + WithKey([], key, k);
  }
}
