/** Shared building blocks: optional values, results, caller-supplied
    identities and clock readings, and the order-preserving filter that the
    catalog and the exercise pickers are built from. */
module Common {

  /** Swift's `T?`. */
  datatype Option<+T> = None | Some(value: T)

  /** A throwing call: either its value or the error it threw. */
  datatype Result<+T, +E> = Success(value: T) | Failure(error: E)

  /** A `UUID`. Fresh identities are produced by the caller and passed in. */
  type Uuid = int

  /** A `Date`, as whole seconds on one clock. The clock is one `now`
      parameter per operation. A `TimeInterval` is a plain `int` number of
      seconds. */
  type Time = int

  function Max(a: int, b: int): (r: int)
    ensures r >= a && r >= b
    ensures r == a || r == b
  {
    if a >= b then a else b
  }

  /** `a` can be obtained from `b` by deleting elements: it keeps their
      relative order. */
  ghost predicate IsSubsequence<T>(a: seq<T>, b: seq<T>)
    decreases |b|
  {
    if |a| == 0 then true
    else if |b| == 0 then false
    else (a[0] == b[0] && IsSubsequence(a[1..], b[1..])) || IsSubsequence(a, b[1..])
  }

  lemma {:induction false} SubsequenceReflexive<T>(s: seq<T>)
    ensures IsSubsequence(s, s)
    decreases |s|
  {
    if |s| > 0 {
      SubsequenceReflexive(s[1..]);
    }
  }

  lemma {:induction false} SubsequenceTransitive<T>(a: seq<T>, b: seq<T>, c: seq<T>)
    requires IsSubsequence(a, b) && IsSubsequence(b, c)
    ensures IsSubsequence(a, c)
    decreases |c|
  {
    if |a| > 0 && |c| > 0 {
      assert |b| > 0;
      if b[0] == c[0] && IsSubsequence(b[1..], c[1..]) {
        if a[0] == b[0] && IsSubsequence(a[1..], b[1..]) {
          SubsequenceTransitive(a[1..], b[1..], c[1..]);
        } else {
          SubsequenceTransitive(a, b[1..], c[1..]);
        }
      } else {
        SubsequenceTransitive(a, b, c[1..]);
      }
    }
  }

  /** Swift's `Array.filter`: the elements satisfying `p`, in their
      original order and with their original multiplicities. */
  function Filter<T(==,!new)>(s: seq<T>, p: T -> bool): (r: seq<T>)
    ensures |r| <= |s|
    ensures forall x :: x in r <==> x in s && p(x)
    ensures forall k :: 0 <= k < |r| ==> p(r[k])
    ensures IsSubsequence(r, s)
    ensures forall x :: multiset(r)[x] == if p(x) then multiset(s)[x] else 0
  {
    if |s| == 0 then []
    else
      assert s == [s[0]] + s[1..];
      if p(s[0]) then [s[0]] + Filter(s[1..], p)
      else Filter(s[1..], p)
  }

  /** A filter that every element passes returns the whole sequence. */
  lemma {:induction false} FilterKeepsAll<T(!new)>(s: seq<T>, p: T -> bool)
    requires forall k :: 0 <= k < |s| ==> p(s[k])
    ensures Filter(s, p) == s
  {
    if |s| > 0 {
      FilterKeepsAll(s[1..], p);
      assert s == [s[0]] + s[1..];
    }
  }

  /** Filtering twice is filtering once by the conjunction. */
  lemma {:induction false} FilterTwice<T(!new)>(s: seq<T>, p: T -> bool, q: T -> bool, pq: T -> bool)
    requires forall x :: pq(x) == (p(x) && q(x))
    ensures Filter(Filter(s, p), q) == Filter(s, pq)
  {
    if |s| > 0 {
      FilterTwice(s[1..], p, q, pq);
      if p(s[0]) {
        var t := Filter(s[1..], p);
        assert Filter(s, p) == [s[0]] + t;
        assert ([s[0]] + t)[1..] == t;
      }
    }
  }

  /** Filtering distributes over concatenation. */
  lemma {:induction false} FilterAppend<T(!new)>(a: seq<T>, b: seq<T>, p: T -> bool)
    ensures Filter(a + b, p) == Filter(a, p) + Filter(b, p)
  {
    if |a| > 0 {
      assert (a + b)[1..] == a[1..] + b;
      FilterAppend(a[1..], b, p);
    } else {
      assert a + b == b;
    }
  }

  /** An appended element that fails the test leaves the filter as it was. */
  lemma {:induction false} FilterAppendOne<T(!new)>(s: seq<T>, x: T, p: T -> bool)
    requires !p(x)
    ensures Filter(s + [x], p) == Filter(s, p)
  {
    if |s| > 0 {
      assert (s + [x])[1..] == s[1..] + [x];
      FilterAppendOne(s[1..], x, p);
    }
  }

  /** Swift's `firstIndex(where:)`. */
  function FirstIndexWhere<T>(s: seq<T>, p: T -> bool): (r: Option<nat>)
    ensures r.Some? ==> r.value < |s| && p(s[r.value])
    ensures r.Some? ==> forall j :: 0 <= j < r.value ==> !p(s[j])
    ensures r.None? <==> forall j :: 0 <= j < |s| ==> !p(s[j])
  {
    if |s| == 0 then None
    else if p(s[0]) then Some(0)
    else match FirstIndexWhere(s[1..], p)
      case None => None
      case Some(i) => Some(i + 1)
  }

  /** The number a string of decimal digits denotes. */
  ghost function DecimalValue(s: string): int
    decreases |s|
  {
    if |s| == 0 then 0 else DecimalValue(s[..|s| - 1]) * 10 + (s[|s| - 1] as int - '0' as int)
  }

  /** Decimal rendering of an `Int`, as Swift's string interpolation
      prints it: a minus sign for negatives, then the digits of the
      magnitude. */
  function IntToString(n: int): (r: string)
    ensures |r| > 0
    ensures n < 0 <==> r[0] == '-'
    ensures n >= 0 ==> DecimalValue(r) == n
    ensures n < 0 ==> DecimalValue(r[1..]) == -n
  {
    if n < 0 then "-" + NatToString(-n) else NatToString(n)
  }

  function NatToString(n: nat): (r: string)
    ensures |r| > 0
    ensures forall k :: 0 <= k < |r| ==> '0' <= r[k] <= '9'
    ensures DecimalValue(r) == n
    ensures |r| == 1 || r[0] != '0'
  {
    var digit := [('0' as int + n % 10) as char];
    if n < 10 then digit
    else
      var r := NatToString(n / 10) + digit;
      assert r[..|r| - 1] == NatToString(n / 10);
      r
  }
}
