/** Python's `sorted(xs, key=k, reverse=True)` and `xs.sort(key=k,
    reverse=True)`: a stable sort from the highest key down. The sort is
    given as an insertion sort on values; what the core relies on is proved
    about it: the result is ordered, it is a permutation, elements with equal
    keys keep their input order, and these facts pin the result down. */
module Ranking {

  /** Puts x after every element of s whose key is strictly larger, hence in
      front of the elements of s with an equal key. */
  function Insert<T>(x: T, s: seq<T>, key: T -> int): (r: seq<T>)
    ensures |r| == |s| + 1
  {
    if s == [] || key(x) >= key(s[0]) then [x] + s
    else [s[0]] + Insert(x, s[1..], key)
  }

  function SortDesc<T>(xs: seq<T>, key: T -> int): (r: seq<T>)
    ensures |r| == |xs|
  {
    if xs == [] then [] else Insert(xs[0], SortDesc(xs[1..], key), key)
  }

  ghost predicate Descending<T>(s: seq<T>, key: T -> int) {
    forall i, j :: 0 <= i < j < |s| ==> key(s[i]) >= key(s[j])
  }

  /** The elements of s whose key is v, in the order of s. */
  function WithKey<T>(s: seq<T>, key: T -> int, v: int): seq<T> {
    if s == [] then [] else (if key(s[0]) == v then [s[0]] else []) + WithKey(s[1..], key, v)
  }

  function MapSeq<T, U>(f: T -> U, s: seq<T>): (r: seq<U>)
    ensures |r| == |s| && forall i :: 0 <= i < |s| ==> r[i] == f(s[i])
  {
    if s == [] then [] else [f(s[0])] + MapSeq(f, s[1..])
  }

  lemma {:induction false} WithKeyConcat<T>(a: seq<T>, b: seq<T>, key: T -> int, v: int)
    ensures WithKey(a + b, key, v) == WithKey(a, key, v) + WithKey(b, key, v)
  {
    if a == [] {
      assert a + b == b;
    } else {
      var head: seq<T> := if key(a[0]) == v then [a[0]] else [];
      assert (a + b)[0] == a[0];
      assert (a + b)[1..] == a[1..] + b;
      assert WithKey(a + b, key, v) == head + WithKey(a[1..] + b, key, v);
      WithKeyConcat(a[1..], b, key, v);
      assert WithKey(a, key, v) == head + WithKey(a[1..], key, v);
      assert head + (WithKey(a[1..], key, v) + WithKey(b, key, v)) == (head + WithKey(a[1..], key, v)) + WithKey(b, key, v);
    }
  }

  lemma {:induction false} InsertMultiset<T>(x: T, s: seq<T>, key: T -> int)
    ensures multiset(Insert(x, s, key)) == multiset([x]) + multiset(s)
  {
    if s != [] && key(x) < key(s[0]) {
      InsertMultiset(x, s[1..], key);
      assert s == [s[0]] + s[1..];
    }
  }

  lemma {:induction false} InsertBounded<T>(x: T, s: seq<T>, key: T -> int, b: int)
    requires key(x) <= b
    requires forall i :: 0 <= i < |s| ==> key(s[i]) <= b
    ensures forall i :: 0 <= i < |Insert(x, s, key)| ==> key(Insert(x, s, key)[i]) <= b
  {
    if s != [] && key(x) < key(s[0]) {
      InsertBounded(x, s[1..], key, b);
    }
  }

  lemma {:induction false} InsertDescending<T>(x: T, s: seq<T>, key: T -> int)
    requires Descending(s, key)
    ensures Descending(Insert(x, s, key), key)
  {
    if s != [] && key(x) < key(s[0]) {
      var t := s[1..];
      InsertDescending(x, t, key);
      InsertBounded(x, t, key, key(s[0]));
    }
  }

  lemma {:induction false} InsertWithKey<T>(x: T, s: seq<T>, key: T -> int, v: int)
    requires Descending(s, key)
    ensures WithKey(Insert(x, s, key), key, v)
            == (if key(x) == v then [x] else []) + WithKey(s, key, v)
  {
    if s == [] || key(x) >= key(s[0]) {
      assert Insert(x, s, key) == [x] + s;
      WithKeyConcat([x], s, key, v);
    } else {
      var t := s[1..];
      InsertWithKey(x, t, key, v);
      var r := Insert(x, t, key);
      assert Insert(x, s, key) == [s[0]] + r;
      WithKeyConcat([s[0]], r, key, v);
      WithKeyConcat([s[0]], t, key, v);
      assert s == [s[0]] + t;
    }
  }

  /** The sort yields a descending permutation of its input. */
  lemma {:induction false} SortDescOrderedPermutation<T>(xs: seq<T>, key: T -> int)
    ensures Descending(SortDesc(xs, key), key)
    ensures multiset(SortDesc(xs, key)) == multiset(xs)
    ensures |SortDesc(xs, key)| == |xs|
  {
    if xs != [] {
      SortDescOrderedPermutation(xs[1..], key);
      InsertDescending(xs[0], SortDesc(xs[1..], key), key);
      InsertMultiset(xs[0], SortDesc(xs[1..], key), key);
      assert xs == [xs[0]] + xs[1..];
    }
    assert |multiset(SortDesc(xs, key))| == |SortDesc(xs, key)|;
  }

  /** Stability: for every key value, the elements carrying it appear in the
      sorted result in the same order as in the input. */
  lemma {:induction false} SortDescStable<T>(xs: seq<T>, key: T -> int)
    ensures forall v :: WithKey(SortDesc(xs, key), key, v) == WithKey(xs, key, v)
  {
    if xs != [] {
      SortDescStable(xs[1..], key);
      SortDescOrderedPermutation(xs[1..], key);
      forall v ensures WithKey(SortDesc(xs, key), key, v) == WithKey(xs, key, v) {
        InsertWithKey(xs[0], SortDesc(xs[1..], key), key, v);
      }
    }
  }

  /** When every key is the same, the sort changes nothing. */
  lemma {:induction false} SortDescConstantKey<T>(xs: seq<T>, key: T -> int, c: int)
    requires forall i :: 0 <= i < |xs| ==> key(xs[i]) == c
    ensures SortDesc(xs, key) == xs
  {
    if xs != [] {
      SortDescConstantKey(xs[1..], key, c);
      assert SortDesc(xs[1..], key) == xs[1..];
    }
  }

  /** Sorting by a key that only looks at f's image commutes with mapping f. */
  lemma {:induction false} SortDescMap<T, U>(f: T -> U, s: seq<T>, key: T -> int, key': U -> int)
    requires forall y :: y in s ==> key(y) == key'(f(y))
    ensures MapSeq(f, SortDesc(s, key)) == SortDesc(MapSeq(f, s), key')
  {
    if s != [] {
      var t := s[1..];
      assert forall y :: y in t ==> y in s;
      SortDescMap(f, t, key, key');
      assert MapSeq(f, s)[1..] == MapSeq(f, t);
      SortDescOrderedPermutation(t, key);
      forall y | y in SortDesc(t, key) ensures key(y) == key'(f(y)) {
        assert y in multiset(SortDesc(t, key));
        assert y in multiset(t);
      }
      InsertMap(f, s[0], SortDesc(t, key), key, key');
    }
  }

  lemma {:induction false} InsertMap<T, U>(f: T -> U, x: T, s: seq<T>, key: T -> int, key': U -> int)
    requires key(x) == key'(f(x))
    requires forall y :: y in s ==> key(y) == key'(f(y))
    ensures MapSeq(f, Insert(x, s, key)) == Insert(f(x), MapSeq(f, s), key')
  {
    if s != [] && key(x) < key(s[0]) {
      assert forall y :: y in s[1..] ==> y in s;
      InsertMap(f, x, s[1..], key, key');
      assert MapSeq(f, s)[1..] == MapSeq(f, s[1..]);
      assert MapSeq(f, [s[0]] + Insert(x, s[1..], key))
          == [f(s[0])] + MapSeq(f, Insert(x, s[1..], key));
    } else {
      assert MapSeq(f, [x] + s) == [f(x)] + MapSeq(f, s);
    }
  }

  /** Ordered and stable determine the result: any descending sequence that
      carries, key by key, the same elements in the same order as xs is the
      sort of xs. */
  lemma SortDescUnique<T>(xs: seq<T>, r: seq<T>, key: T -> int)
    requires Descending(r, key)
    requires forall v :: WithKey(r, key, v) == WithKey(xs, key, v)
    ensures r == SortDesc(xs, key)
  {
    SortDescOrderedPermutation(xs, key);
    SortDescStable(xs, key);
    DescendingSameGroupsEqual(r, SortDesc(xs, key), key);
  }

  lemma {:induction false} DescendingSameGroupsEqual<T>(a: seq<T>, b: seq<T>, key: T -> int)
    requires Descending(a, key) && Descending(b, key)
    requires forall v :: WithKey(a, key, v) == WithKey(b, key, v)
    ensures a == b
  {
    if a == [] {
      if b != [] {
        WithKeyHead(b, key);
      }
    } else {
      WithKeyHead(a, key);
      assert WithKey(b, key, key(a[0])) != [];
      assert b != [];
      WithKeyHead(b, key);
      var ka, kb := key(a[0]), key(b[0]);
      WithKeyMember(b, key, ka);
      WithKeyMember(a, key, kb);
      assert ka == kb;
      assert WithKey(a, key, ka)[0] == a[0];
      assert WithKey(b, key, ka)[0] == b[0];
      assert a[0] == b[0];
      forall v ensures WithKey(a[1..], key, v) == WithKey(b[1..], key, v) {
        var p: seq<T> := if ka == v then [a[0]] else [];
        assert WithKey(a, key, v) == p + WithKey(a[1..], key, v);
        assert WithKey(b, key, v) == p + WithKey(b[1..], key, v);
        assert WithKey(a[1..], key, v) == (p + WithKey(a[1..], key, v))[|p|..];
        assert WithKey(b[1..], key, v) == (p + WithKey(b[1..], key, v))[|p|..];
      }
      DescendingSameGroupsEqual(a[1..], b[1..], key);
      assert a == [a[0]] + a[1..];
      assert b == [b[0]] + b[1..];
    }
  }

  lemma WithKeyHead<T>(s: seq<T>, key: T -> int)
    requires s != []
    ensures WithKey(s, key, key(s[0])) == [s[0]] + WithKey(s[1..], key, key(s[0]))
  {
  }

  /** Every element of WithKey(s, key, v) is an element of s with key v. */
  lemma {:induction false} WithKeyMember<T>(s: seq<T>, key: T -> int, v: int)
    requires Descending(s, key)
    ensures WithKey(s, key, v) != [] ==> s != [] && key(s[0]) >= v
  {
    if s != [] && key(s[0]) != v {
      WithKeyMember(s[1..], key, v);
      if WithKey(s[1..], key, v) != [] {
        assert key(s[1]) >= v;
      }
    }
  }

  /** Keeping a prefix keeps, for each key, a prefix of that key's elements. */
  lemma {:induction false} WithKeyOfPrefix<T>(s: seq<T>, n: nat, key: T -> int, v: int)
    requires n <= |s|
    ensures WithKey(s[..n], key, v) <= WithKey(s, key, v)
  {
    if n > 0 {
      WithKeyOfPrefix(s[1..], n - 1, key, v);
      assert s[..n][1..] == s[1..][..n - 1];
    }
  }

  /** The first n elements of the sort are descending, drawn from xs, and for
      each key a prefix of the input's elements with that key. */
  lemma SortedPrefix<T>(xs: seq<T>, key: T -> int, n: nat)
    requires n <= |xs|
    ensures var r := SortDesc(xs, key)[..n];
            && Descending(r, key)
            && (forall y :: y in r ==> y in xs)
            && (forall v :: WithKey(r, key, v) <= WithKey(xs, key, v))
  {
    var sorted := SortDesc(xs, key);
    SortDescOrderedPermutation(xs, key);
    SortDescStable(xs, key);
    var r := sorted[..n];
    forall y | y in r ensures y in xs {
      assert y in multiset(sorted);
    }
    forall v ensures WithKey(r, key, v) <= WithKey(xs, key, v) {
      WithKeyOfPrefix(sorted, n, key, v);
    }
  }

  /** Nothing the first n elements of the sort leave out has a larger key
      than the last element kept. */
  lemma SortedPrefixKeepsLargest<T>(xs: seq<T>, key: T -> int, n: nat)
    requires 0 < n <= |xs|
    ensures var r := SortDesc(xs, key)[..n];
            forall y :: y in multiset(xs) - multiset(r) ==> key(y) <= key(r[n - 1])
  {
    var sorted := SortDesc(xs, key);
    SortDescOrderedPermutation(xs, key);
    DroppedAfterPrefix(sorted, n);
    DescendingTail(sorted, key, n);
    forall y | y in multiset(xs) - multiset(sorted[..n]) ensures key(y) <= key(sorted[..n][n - 1]) {
      assert y in sorted[n..];
    }
  }

  /** What a prefix leaves out of a sequence is its suffix. */
  lemma DroppedAfterPrefix<T>(s: seq<T>, n: nat)
    requires n <= |s|
    ensures multiset(s) - multiset(s[..n]) == multiset(s[n..])
  {
    assert s == s[..n] + s[n..];
  }

  /** Past the first n elements of a descending sequence no key exceeds the
      n-th. */
  lemma DescendingTail<T>(s: seq<T>, key: T -> int, n: nat)
    requires Descending(s, key) && 0 < n <= |s|
    ensures forall y :: y in s[n..] ==> key(y) <= key(s[n - 1])
  {
    forall y | y in s[n..] ensures key(y) <= key(s[n - 1]) {
      var k :| n <= k < |s| && s[k] == y;
    }
  }
}
