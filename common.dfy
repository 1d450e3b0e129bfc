/** Values shared by every component of the recommender: optional values and
    results, the way a record field is read as a number, the exceptions that
    escape the core, and the few Python builtins the core leans on (sum, min,
    max, counting, str.lower and prefix slicing), each given a definition. */
module Common {

  datatype Option<+T> = None | Some(value: T)

  datatype Result<+T, +E> = Success(value: T) | Failure(error: E)

  /** A record field the code reads as `float(record[key])`: the key may be
      absent (KeyError), present but not a number (ValueError), or a number. */
  datatype NumField = Missing | NotNumeric | Num(value: real)

  /** The exceptions that escape from the core; the HTTP layer turns each
      into a 500 response. */
  datatype Error =
    | KeyMissing(key: string)   // KeyError on a record
    | NotANumber(key: string)   // ValueError raised by float()
    | NoProfiles                // ValueError raised when aggregating no profiles
    | EmptyMin                  // ValueError raised by min() of an empty list

  /** A two-element `[low, high]` list. */
  datatype Range = Range(low: real, high: real)

  function Abs(x: real): real { if x < 0.0 then -x else x }

  /** `str.lower()` on the ASCII letters. */
  function LowerChar(c: char): char {
    if 'A' <= c <= 'Z' then (c as int + 32) as char else c
  }

  function Lower(s: string): string {
    seq(|s|, i requires 0 <= i < |s| => LowerChar(s[i]))
  }

  /** Python's `s[:stop]`: a negative stop counts from the end. */
  function SlicePrefix<T>(s: seq<T>, stop: int): seq<T> {
    if stop >= 0 then s[..if stop < |s| then stop else |s|]
    else s[..if |s| + stop > 0 then |s| + stop else 0]
  }

  /** `sum(s)`, accumulated left to right. */
  function Sum(s: seq<real>): real {
    if s == [] then 0.0 else Sum(s[..|s| - 1]) + s[|s| - 1]
  }

  /** `min(s)`; Python raises on an empty list, hence the precondition. */
  function Min(s: seq<real>): (m: real)
    requires s != []
    ensures m in s
    ensures forall i :: 0 <= i < |s| ==> m <= s[i]
  {
    if |s| == 1 then s[0]
    else
      var m := Min(s[..|s| - 1]);
      if s[|s| - 1] < m then s[|s| - 1] else m
  }

  /** `max(s)`. */
  function Max(s: seq<real>): (m: real)
    requires s != []
    ensures m in s
    ensures forall i :: 0 <= i < |s| ==> s[i] <= m
  {
    if |s| == 1 then s[0]
    else
      var m := Max(s[..|s| - 1]);
      if s[|s| - 1] > m then s[|s| - 1] else m
  }

  /** `sum(s) / len(s)`. */
  function Mean(s: seq<real>): real
    requires s != []
  {
    Sum(s) / |s| as real
  }

  /** Every element lies in [lo, hi], so the sum lies in [n*lo, n*hi]. */
  lemma {:induction false} SumBounds(s: seq<real>, lo: real, hi: real)
    requires forall x :: x in s ==> lo <= x <= hi
    ensures |s| as real * lo <= Sum(s) <= |s| as real * hi
  {
    if s != [] {
      var init := s[..|s| - 1];
      assert forall x :: x in init ==> x in s;
      SumBounds(init, lo, hi);
      assert s[|s| - 1] in s;
      assert |s| as real * lo == |init| as real * lo + lo;
      assert |s| as real * hi == |init| as real * hi + hi;
    }
  }

  /** The mean of a non-empty list lies between its minimum and maximum. */
  lemma MeanWithin(s: seq<real>)
    requires s != []
    ensures Min(s) <= Mean(s) <= Max(s)
  {
    var lo, hi := Min(s), Max(s);
    forall x | x in s ensures lo <= x <= hi {
      var i :| 0 <= i < |s| && s[i] == x;
    }
    SumBounds(s, lo, hi);
    QuotientWithin(Sum(s), |s| as real, lo, hi);
  }

  lemma QuotientWithin(total: real, n: real, lo: real, hi: real)
    requires n > 0.0 && n * lo <= total <= n * hi
    ensures lo <= total / n <= hi
  {
    var q := total / n;
    assert q * n == total;
    assert (q - lo) * n >= 0.0;
    assert (hi - q) * n >= 0.0;
  }

  /** Halving every element halves the sum. */
  lemma {:induction false} SumHalves(s: seq<real>, h: seq<real>)
    requires |h| == |s|
    requires forall i :: 0 <= i < |s| ==> h[i] == s[i] / 2.0
    ensures Sum(h) == Sum(s) / 2.0
  {
    if s != [] {
      SumHalves(s[..|s| - 1], h[..|h| - 1]);
    }
  }

  /** Lists holding the same values (in any order, any number of times)
      have the same minimum and maximum. */
  lemma MinMaxOfSameElements(s: seq<real>, t: seq<real>)
    requires s != [] && forall x :: x in s <==> x in t
    ensures t != [] && Min(s) == Min(t) && Max(s) == Max(t)
  {
    assert s[0] in s;
    assert Min(s) in t;
    assert Min(t) in s;
    assert Max(s) in t;
    assert Max(t) in s;
  }

  /** The number of occurrences of x in xs (`list.count`). */
  function Count(xs: seq<string>, x: string): nat {
    if xs == [] then 0
    else Count(xs[..|xs| - 1], x) + (if xs[|xs| - 1] == x then 1 else 0)
  }

  lemma {:induction false} CountPositive(xs: seq<string>, x: string)
    ensures Count(xs, x) > 0 <==> x in xs
  {
    if xs != [] {
      CountPositive(xs[..|xs| - 1], x);
      assert xs == xs[..|xs| - 1] + [xs[|xs| - 1]];
    }
  }

  /** The distinct elements of xs in first-seen order: the key order of a
      Python dict filled by scanning xs. */
  function Distinct(xs: seq<string>): (d: seq<string>)
    ensures forall x :: x in d <==> x in xs
    ensures forall i, j :: 0 <= i < j < |d| ==> d[i] != d[j]
  {
    if xs == [] then []
    else
      var p := Distinct(xs[..|xs| - 1]);
      assert xs == xs[..|xs| - 1] + [xs[|xs| - 1]];
      if xs[|xs| - 1] in p then p else p + [xs[|xs| - 1]]
  }

  /** The index at which x first occurs in xs. */
  function FirstIndex(xs: seq<string>, x: string): (k: nat)
    requires x in xs
    ensures k < |xs| && xs[k] == x
    ensures forall j :: 0 <= j < k ==> xs[j] != x
  {
    if xs[0] == x then 0 else 1 + FirstIndex(xs[1..], x)
  }

  /** Distinct keeps the first-seen order: a value listed before another
      first occurs earlier in xs. This is the key order of the dict. */
  lemma {:induction false} DistinctFirstSeen(xs: seq<string>)
    ensures forall i, j :: 0 <= i < j < |Distinct(xs)| ==> FirstIndex(xs, Distinct(xs)[i]) < FirstIndex(xs, Distinct(xs)[j])
  {
    if xs != [] {
      var init, last := xs[..|xs| - 1], xs[|xs| - 1];
      assert xs == init + [last];
      DistinctFirstSeen(init);
      var p, d := Distinct(init), Distinct(xs);
      assert d == if last in p then p else p + [last];
      forall i, j | 0 <= i < j < |d| ensures FirstIndex(xs, d[i]) < FirstIndex(xs, d[j]) {
        assert d[i] == p[i] && p[i] in p;
        FirstIndexOfPrefix(init, last, p[i]);
        if j < |p| {
          assert d[j] == p[j] && p[j] in p;
          FirstIndexOfPrefix(init, last, p[j]);
          assert FirstIndex(init, p[i]) < FirstIndex(init, p[j]);
        } else {
          assert d[j] == last && last !in init;
          var k := FirstIndex(xs, last);
          assert forall m :: 0 <= m < |init| ==> xs[m] == init[m] != last;
          assert k == |init|;
          assert FirstIndex(init, p[i]) < |init|;
        }
      }
    }
  }

  /** The first distinct value is the first value. */
  lemma DistinctHead(xs: seq<string>)
    requires xs != []
    ensures Distinct(xs) != [] && Distinct(xs)[0] == xs[0]
  {
    var d := Distinct(xs);
    assert xs[0] in xs;
    var m :| 0 <= m < |d| && d[m] == xs[0];
    assert FirstIndex(xs, xs[0]) == 0;
    DistinctFirstSeen(xs);
  }

  lemma FirstIndexOfPrefix(init: seq<string>, last: string, x: string)
    requires x in init
    ensures FirstIndex(init + [last], x) == FirstIndex(init, x)
  {
    var xs := init + [last];
    var k := FirstIndex(init, x);
    assert xs[k] == x;
    assert forall j :: 0 <= j < k ==> xs[j] == init[j];
  }

  /** `[x for x in s if p(x)]`. */
  function Filter<T>(p: T -> bool, s: seq<T>): seq<T> {
    if s == [] then [] else (if p(s[0]) then [s[0]] else []) + Filter(p, s[1..])
  }

  lemma {:induction false} FilterConcat<T>(p: T -> bool, a: seq<T>, b: seq<T>)
    ensures Filter(p, a + b) == Filter(p, a) + Filter(p, b)
  {
    if a == [] {
      assert a + b == b;
    } else {
      var head: seq<T> := if p(a[0]) then [a[0]] else [];
      assert (a + b)[0] == a[0];
      assert (a + b)[1..] == a[1..] + b;
      assert Filter(p, a + b) == head + Filter(p, a[1..] + b);
      FilterConcat(p, a[1..], b);
      assert Filter(p, a) == head + Filter(p, a[1..]);
      assert head + (Filter(p, a[1..]) + Filter(p, b)) == (head + Filter(p, a[1..])) + Filter(p, b);
    }
  }
}
