/**
 * Shared vocabulary of the trading model: optional values, decoded JSON
 * values, price bars and the order-preserving filter and count used by
 * every zone and trade list.
 */
module Common {

  datatype Option<T> = None | Some(value: T)

  /** A decoded JSON value. */
  datatype Value =
    | VNull
    | VBool(b: bool)
    | VInt(i: int)
    | VReal(r: real)
    | VStr(s: string)
    | VList(items: seq<Value>)
    | VDict(d: map<string, Value>)

  /** Python truthiness of a decoded JSON value. */
  predicate Truthy(v: Value)
  {
    match v
    case VNull => false
    case VBool(b) => b
    case VInt(i) => i != 0
    case VReal(r) => r != 0.0
    case VStr(s) => s != ""
    case VList(items) => items != []
    case VDict(d) => d != map[]
  }

  /** A Python number (a bool counts as 0 or 1). */
  function AsNumber(v: Value): Option<real>
  {
    match v
    case VInt(i) => Some(i as real)
    case VReal(r) => Some(r)
    case VBool(b) => Some(if b then 1.0 else 0.0)
    case _ => None
  }

  /** One OHLC price bar; `time` is the bar's timestamp in seconds. */
  datatype Bar = Bar(time: int, open: real, high: real, low: real, close: real)

  function Abs(x: real): (r: real)
    ensures r >= 0.0 && (r == x || r == -x)
  {
    if x < 0.0 then -x else x
  }

  function Max(a: real, b: real): (r: real)
    ensures r >= a && r >= b && (r == a || r == b)
  {
    if a >= b then a else b
  }

  function Min(a: real, b: real): (r: real)
    ensures r <= a && r <= b && (r == a || r == b)
  {
    if a <= b then a else b
  }

  /** The elements of `s` satisfying `p`, in their original order. */
  function Filter<T>(p: T -> bool, s: seq<T>): (r: seq<T>)
    ensures |r| <= |s|
    ensures forall i :: 0 <= i < |r| ==> r[i] in s && p(r[i])
    ensures forall i :: 0 <= i < |s| && p(s[i]) ==> s[i] in r
    decreases |s|
  {
    if s == [] then []
    else Filter(p, s[..|s| - 1]) + (if p(s[|s| - 1]) then [s[|s| - 1]] else [])
  }

  lemma {:induction false} FilterConcat<T>(p: T -> bool, a: seq<T>, b: seq<T>)
    ensures Filter(p, a + b) == Filter(p, a) + Filter(p, b)
    decreases |b|
  {
    if b == [] {
      assert a + b == a;
    } else {
      var b' := b[..|b| - 1];
      assert (a + b)[..|a + b| - 1] == a + b';
      FilterConcat(p, a, b');
    }
  }

  /** Filtering a sequence whose every element passes leaves it unchanged. */
  lemma {:induction false} FilterKeepsAll<T>(p: T -> bool, s: seq<T>)
    requires forall i :: 0 <= i < |s| ==> p(s[i])
    ensures Filter(p, s) == s
    decreases |s|
  {
    if s != [] {
      var init, last := s[..|s| - 1], s[|s| - 1];
      FilterKeepsAll(p, init);
      assert init + [last] == s;
    }
  }

  lemma FilterIdempotent<T>(p: T -> bool, s: seq<T>)
    ensures Filter(p, Filter(p, s)) == Filter(p, s)
  {
    var r := Filter(p, s);
    FilterKeepsAll(p, r);
  }

  /** Number of elements of `s` satisfying `p`. */
  function Count<T>(p: T -> bool, s: seq<T>): (n: nat)
    ensures n <= |s|
    decreases |s|
  {
    if s == [] then 0
    else Count(p, s[..|s| - 1]) + (if p(s[|s| - 1]) then 1 else 0)
  }

  lemma {:induction false} CountIsFilterLength<T>(p: T -> bool, s: seq<T>)
    ensures Count(p, s) == |Filter(p, s)|
    decreases |s|
  {
    if s != [] {
      CountIsFilterLength(p, s[..|s| - 1]);
    }
  }

  /** Sum of `f` over `s`. */
  function Sum<T>(f: T -> real, s: seq<T>): real
    decreases |s|
  {
    if s == [] then 0.0 else Sum(f, s[..|s| - 1]) + f(s[|s| - 1])
  }

  lemma {:induction false} SumConcat<T>(f: T -> real, a: seq<T>, b: seq<T>)
    ensures Sum(f, a + b) == Sum(f, a) + Sum(f, b)
    decreases |b|
  {
    if b == [] {
      assert a + b == a;
    } else {
      var b' := b[..|b| - 1];
      assert (a + b)[..|a + b| - 1] == a + b';
      SumConcat(f, a, b');
    }
  }

  /** Removing one occurrence of x from both sides keeps two multisets equal. */
  lemma MultisetCancel<T>(a: seq<T>, x: T, u: seq<T>, v: seq<T>)
    requires multiset(a + [x]) == multiset(u + [x] + v)
    ensures multiset(a) == multiset(u + v)
  {
    assert multiset(u + [x] + v) == multiset(u) + multiset{x} + multiset(v);
    assert multiset(a + [x]) == multiset(a) + multiset{x};
    assert multiset(u + v) == multiset(u) + multiset(v);
    forall y ensures multiset(u + v)[y] == multiset(a)[y] {
      assert multiset(u + [x] + v)[y] == multiset(a + [x])[y];
    }
  }

  /** A sum does not depend on the order of its terms. */
  lemma {:induction false} SumPermutation<T>(f: T -> real, a: seq<T>, b: seq<T>)
    requires multiset(a) == multiset(b)
    ensures Sum(f, a) == Sum(f, b)
    decreases |a|
  {
    if a == [] {
      assert |b| == |multiset(b)| == 0;
    } else {
      var x, a' := a[|a| - 1], a[..|a| - 1];
      assert a == a' + [x];
      assert x in multiset(b);
      var k :| 0 <= k < |b| && b[k] == x;
      var u, v := b[..k], b[k + 1..];
      assert b == u + [x] + v;
      MultisetCancel(a', x, u, v);
      SumPermutation(f, a', u + v);
      assert Sum(f, [x]) == f(x) by { assert [x][..0] == []; }
      SumConcat(f, u, [x]);
      SumConcat(f, u + [x], v);
      SumConcat(f, u, v);
    }
  }

  // ------------------------------------------------------------ whitespace

  /**
   * Python's whitespace (`str.isspace()`): the characters `str.strip()`
   * removes and that `int()` and `float()` ignore around a numeral.
   */
  predicate IsSpace(c: char)
  {
    ('\t' <= c <= '\r') || ('\U{1C}' <= c <= ' ') || c == '\U{85}' || c == '\U{A0}'
    || c == '\U{1680}' || ('\U{2000}' <= c <= '\U{200A}') || c == '\U{2028}' || c == '\U{2029}'
    || c == '\U{202F}' || c == '\U{205F}' || c == '\U{3000}'
  }

  function TrimLeft(s: string): (r: string)
    ensures |r| <= |s| && r == s[|s| - |r|..]
    ensures forall j :: 0 <= j < |s| - |r| ==> IsSpace(s[j])
    ensures r == [] || !IsSpace(r[0])
    decreases |s|
  {
    if s != [] && IsSpace(s[0]) then TrimLeft(s[1..]) else s
  }

  function TrimRight(s: string): (r: string)
    ensures |r| <= |s| && r == s[..|r|]
    ensures forall j :: |r| <= j < |s| ==> IsSpace(s[j])
    ensures r == [] || !IsSpace(r[|r| - 1])
    decreases |s|
  {
    if s != [] && IsSpace(s[|s| - 1]) then TrimRight(s[..|s| - 1]) else s
  }

  /** Python `s.strip()`. */
  function Strip(s: string): (r: string)
    ensures |r| <= |s|
    ensures r == [] || (!IsSpace(r[0]) && !IsSpace(r[|r| - 1]))
  {
    TrimRight(TrimLeft(s))
  }

  lemma TrimRightKeepsFirst(s: string)
    requires s != [] && !IsSpace(s[0])
    ensures TrimRight(s) != [] && TrimRight(s)[0] == s[0]
  {
  }

  /** Stripping twice is stripping once. */
  lemma StripIdempotent(s: string)
    ensures Strip(Strip(s)) == Strip(s)
  {
    var r := Strip(s);
    if r != [] {
      assert TrimLeft(r) == r;
      assert TrimRight(r) == r;
    }
  }

  /** A text with no whitespace at either end is its own strip. */
  lemma StripUnpadded(s: string)
    requires s == [] || (!IsSpace(s[0]) && !IsSpace(s[|s| - 1]))
    ensures Strip(s) == s
  {
    assert TrimLeft(s) == s;
  }

  /** Whitespace around such a text is exactly what stripping removes. */
  lemma StripPadding(p: string, s: string, q: string)
    requires s != [] && !IsSpace(s[0]) && !IsSpace(s[|s| - 1])
    requires forall j :: 0 <= j < |p| ==> IsSpace(p[j])
    requires forall j :: 0 <= j < |q| ==> IsSpace(q[j])
    ensures Strip(p + s + q) == s
  {
    assert p + s + q == p + (s + q);
    TrimLeftPadding(p, s + q);
    TrimRightPadding(s, q);
  }

  /** The trimmed text starts where the padding ends: at `t`'s first character. */
  lemma TrimLeftPadding(p: string, t: string)
    requires t != [] && !IsSpace(t[0])
    requires forall j :: 0 <= j < |p| ==> IsSpace(p[j])
    ensures TrimLeft(p + t) == t
  {
    var u := p + t;
    var r := TrimLeft(u);
    var m := |u| - |r|;
    assert forall j :: 0 <= j < |p| ==> IsSpace(u[j]);
    assert u[|p|] == t[0];
    assert m == |p|;
    assert u[|p|..] == t;
  }

  /** The trimmed text ends where the padding starts: at `t`'s last character. */
  lemma TrimRightPadding(t: string, q: string)
    requires t != [] && !IsSpace(t[|t| - 1])
    requires forall j :: 0 <= j < |q| ==> IsSpace(q[j])
    ensures TrimRight(t + q) == t
  {
    var u := t + q;
    var r := TrimRight(u);
    assert forall j :: |t| <= j < |u| ==> IsSpace(u[j]);
    assert u[|t| - 1] == t[|t| - 1];
    assert |r| == |t|;
    assert u[..|t|] == t;
  }
}
