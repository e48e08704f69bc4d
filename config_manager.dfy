/**
 * Configuration manager (src/core/config_manager.py): JSON-like configuration
 * values, dot-path lookup, validation of the loaded files, parsing of the
 * environment overrides that are written into the raw configuration, the
 * typed configuration records with their defaults, and file-path lookup.
 *
 * Loading the files is I/O; the loaded configuration is the `raw` map and
 * the process environment is a map from variable names to strings.
 */
module ConfigManager {
  import opened Common

  // ---------------------------------------------------------------------
  // Dot-path lookup

  /** Python `s.split(c)`: the pieces between occurrences of `c`, at least one. */
  function Split(s: string, c: char): (r: seq<string>)
    ensures |r| >= 1
    ensures forall k :: 0 <= k < |r| ==> c !in r[k]
    decreases |s|
  {
    if s == [] then [""]
    else if s[0] == c then [""] + Split(s[1..], c)
    else
      var t := Split(s[1..], c);
      [[s[0]] + t[0]] + t[1..]
  }

  /** Python `c.join(ps)`. */
  function Join(ps: seq<string>, c: char): string
    requires |ps| >= 1
    decreases |ps|
  {
    if |ps| == 1 then ps[0] else ps[0] + [c] + Join(ps[1..], c)
  }

  lemma {:induction false} JoinSplit(s: string, c: char)
    ensures Join(Split(s, c), c) == s
    decreases |s|
  {
    if s != [] {
      JoinSplit(s[1..], c);
      if s[0] != c {
        var t := Split(s[1..], c);
        if |t| > 1 {
          assert ([[s[0]] + t[0]] + t[1..])[1..] == t[1..];
        }
      }
    }
  }

  lemma {:induction false} SplitJoin(ps: seq<string>, c: char)
    requires |ps| >= 1
    requires forall k :: 0 <= k < |ps| ==> c !in ps[k]
    ensures Split(Join(ps, c), c) == ps
    decreases |ps|, |ps[0]|
  {
    if ps[0] == [] {
      if |ps| > 1 {
        SplitJoin(ps[1..], c);
        SplitJoinEmptyHead(ps, c);
      }
    } else {
      var rest := [ps[0][1..]] + ps[1..];
      TailHasNoSeparator(ps, c);
      SplitJoin(rest, c);
      SplitJoinHeadChar(ps, c);
    }
  }

  /** An empty first piece: the joined text starts with the separator. */
  lemma SplitJoinEmptyHead(ps: seq<string>, c: char)
    requires |ps| > 1 && ps[0] == []
    requires Split(Join(ps[1..], c), c) == ps[1..]
    ensures Split(Join(ps, c), c) == ps
  {
    assert Join(ps, c) == [c] + Join(ps[1..], c);
    assert (ps[0] + [c] + Join(ps[1..], c))[0] == c;
    assert (ps[0] + [c] + Join(ps[1..], c))[1..] == Join(ps[1..], c);
    assert [""] + ps[1..] == ps;
  }

  /** Dropping the first character of the first piece keeps every piece free of the separator. */
  lemma TailHasNoSeparator(ps: seq<string>, c: char)
    requires |ps| >= 1 && ps[0] != []
    requires forall k :: 0 <= k < |ps| ==> c !in ps[k]
    ensures forall k :: 0 <= k < |[ps[0][1..]] + ps[1..]| ==> c !in ([ps[0][1..]] + ps[1..])[k]
  {
    var rest := [ps[0][1..]] + ps[1..];
    forall k | 0 <= k < |rest| ensures c !in rest[k] {
      if k == 0 {
        assert forall m :: 0 <= m < |ps[0][1..]| ==> ps[0][1..][m] == ps[0][m + 1];
      } else {
        assert rest[k] == ps[k];
      }
    }
  }

  /** A non-empty first piece: its first character starts the first split piece. */
  lemma SplitJoinHeadChar(ps: seq<string>, c: char)
    requires |ps| >= 1 && ps[0] != [] && c !in ps[0]
    requires Split(Join([ps[0][1..]] + ps[1..], c), c) == [ps[0][1..]] + ps[1..]
    ensures Split(Join(ps, c), c) == ps
  {
    var x, rest := ps[0][0], [ps[0][1..]] + ps[1..];
    assert x != c by { assert x == ps[0][0]; }
    JoinHeadChar(ps, c);
    SplitHeadChar(x, Join(rest, c), c);
    HeadCharPieces(ps);
  }

  lemma JoinHeadChar(ps: seq<string>, c: char)
    requires |ps| >= 1 && ps[0] != []
    ensures Join(ps, c) == [ps[0][0]] + Join([ps[0][1..]] + ps[1..], c)
  {
    var x, rest := ps[0][0], [ps[0][1..]] + ps[1..];
    if |ps| == 1 {
      assert ps[0] == [x] + ps[0][1..];
    } else {
      assert rest[1..] == ps[1..];
      assert ps[0] == [x] + ps[0][1..];
    }
  }

  lemma SplitHeadChar(x: char, s: string, c: char)
    requires x != c
    ensures Split([x] + s, c) == [[x] + Split(s, c)[0]] + Split(s, c)[1..]
  {
    assert ([x] + s)[0] == x && ([x] + s)[1..] == s;
  }

  lemma HeadCharPieces(ps: seq<string>)
    requires |ps| >= 1 && ps[0] != []
    ensures [[ps[0][0]] + ([ps[0][1..]] + ps[1..])[0]] + ([ps[0][1..]] + ps[1..])[1..] == ps
  {
    var rest := [ps[0][1..]] + ps[1..];
    assert [ps[0][0]] + ps[0][1..] == ps[0];
    assert rest[1..] == ps[1..];
  }

  /** Walk the segments `ks` from `v`: a step into a non-dict, a missing key or a null gives `default`. */
  function Lookup(v: Value, ks: seq<string>, default: Value): (r: Value)
    decreases |ks|
  {
    if ks == [] then v
    else if !v.VDict? then default
    else
      var n := if ks[0] in v.d then v.d[ks[0]] else VNull;
      if n.VNull? then default else Lookup(n, ks[1..], default)
  }

  /** A lookup never answers null unless the caller's default is null. */
  lemma {:induction false} LookupNeverNull(v: Value, ks: seq<string>, default: Value)
    requires !v.VNull? && !default.VNull?
    ensures !Lookup(v, ks, default).VNull?
    decreases |ks|
  {
    if ks != [] && v.VDict? {
      var n := if ks[0] in v.d then v.d[ks[0]] else VNull;
      if !n.VNull? {
        LookupNeverNull(n, ks[1..], default);
      }
    }
  }

  /**
   * A lookup answers either the default or a non-null value actually stored
   * at the end of the path: a present falsy value such as 0 is returned as is.
   */
  lemma {:induction false} LookupFound(v: Value, ks: seq<string>, default: Value)
    requires |ks| >= 1
    ensures var r := Lookup(v, ks, default);
            r == default ||
            (v.VDict? && ks[0] in v.d && !v.d[ks[0]].VNull? && r == Lookup(v.d[ks[0]], ks[1..], default))
  {
  }

  /** Looking up one segment returns the stored value whenever it is not null. */
  lemma OneSegment(raw: map<string, Value>, k: string, default: Value)
    requires '.' !in k
    ensures var r := Lookup(VDict(raw), Split(k, '.'), default);
            (k in raw && !raw[k].VNull? ==> r == raw[k]) &&
            (k !in raw || raw[k].VNull? ==> r == default)
  {
    SplitJoin([k], '.');
    assert Join([k], '.') == k;
  }

  // ---------------------------------------------------------------------
  // Environment overrides

  predicate IsDigit(ch: char) { '0' <= ch <= '9' }

  predicate AllDigits(s: string) { forall k :: 0 <= k < |s| ==> IsDigit(s[k]) }

  /** Decimal value of a string of digits. */
  function DigitsValue(s: string): (n: nat)
    requires AllDigits(s)
    decreases |s|
  {
    if s == [] then 0
    else DigitsValue(s[..|s| - 1]) * 10 + (s[|s| - 1] as int - '0' as int)
  }

  /**
   * A run of ASCII digits in which a single underscore may stand between two
   * digits: the grouping `int()` and `float()` accept.
   */
  predicate DigitGroup(s: string)
    decreases |s|
  {
    |s| >= 1 && IsDigit(s[0]) &&
    (|s| == 1 || if s[1] == '_' then DigitGroup(s[2..]) else DigitGroup(s[1..]))
  }

  /** No digits, or a digit group. */
  predicate OptGroup(s: string) { s == [] || DigitGroup(s) }

  /** The string with its underscores dropped. */
  function Ungroup(s: string): (r: string)
    ensures |r| <= |s|
    ensures (forall k :: 0 <= k < |s| ==> IsDigit(s[k]) || s[k] == '_') ==> AllDigits(r)
    ensures AllDigits(s) ==> r == s
    decreases |s|
  {
    if s == [] then []
    else Ungroup(s[..|s| - 1]) + (if s[|s| - 1] == '_' then [] else [s[|s| - 1]])
  }

  /** A digit group holds only digits and underscores. */
  lemma {:induction false} GroupChars(s: string)
    requires DigitGroup(s)
    ensures forall k :: 0 <= k < |s| ==> IsDigit(s[k]) || s[k] == '_'
    decreases |s|
  {
    if |s| > 1 {
      var j := if s[1] == '_' then 2 else 1;
      GroupChars(s[j..]);
      forall k | j <= k < |s| ensures IsDigit(s[k]) || s[k] == '_' {
        assert s[k] == s[j..][k - j];
      }
    }
  }

  /** The digits of an optional group. */
  function GroupDigits(s: string): (r: string)
    requires OptGroup(s)
    ensures AllDigits(r)
  {
    if s == [] then [] else GroupChars(s); Ungroup(s)
  }

  /** The number a digit group denotes. */
  function GroupValue(s: string): nat
    requires DigitGroup(s)
  {
    DigitsValue(GroupDigits(s))
  }

  /** Plain digits form a group of their own value. */
  lemma {:induction false} DigitsAreGroup(s: string)
    requires |s| >= 1 && AllDigits(s)
    ensures DigitGroup(s) && GroupValue(s) == DigitsValue(s)
    decreases |s|
  {
    if |s| > 1 {
      DigitsAreGroup(s[1..]);
    }
  }

  /** An optional sign and a digit group, with nothing around them. */
  function ParseSigned(s: string): (r: Option<int>)
    ensures r.Some? ==> |s| >= 1
  {
    if |s| >= 1 && (s[0] == '-' || s[0] == '+') then
      if DigitGroup(s[1..]) then
        Some(if s[0] == '-' then 0 - GroupValue(s[1..]) else GroupValue(s[1..]) as int)
      else None
    else if DigitGroup(s) then Some(GroupValue(s))
    else None
  }

  /**
   * Python `int(s)`: whitespace around an optionally signed decimal numeral
   * whose digits may be grouped by underscores.
   */
  function ParseInt(s: string): Option<int>
  {
    ParseSigned(Strip(s))
  }

  function Pow10(n: nat): (r: real)
    ensures r >= 1.0
  {
    if n == 0 then 1.0 else 10.0 * Pow10(n - 1)
  }

  /** Scale `x` by ten to the power `e`. */
  function Scale10(x: real, e: int): real
  {
    if e >= 0 then x * Pow10(e) else x / Pow10(-e)
  }

  /** Index of the first exponent marker, or |s| when there is none. */
  function ExponentAt(s: string): (k: nat)
    ensures k <= |s|
    ensures forall j :: 0 <= j < k ==> s[j] != 'e' && s[j] != 'E'
    ensures k < |s| ==> s[k] == 'e' || s[k] == 'E'
    decreases |s|
  {
    if s == [] then 0
    else if s[0] == 'e' || s[0] == 'E' then 0
    else 1 + ExponentAt(s[1..])
  }

  /** Index of the first '.', or |s|. */
  function DotAt(s: string): (k: nat)
    ensures k <= |s|
    ensures forall j :: 0 <= j < k ==> s[j] != '.'
    ensures k < |s| ==> s[k] == '.'
    decreases |s|
  {
    if s == [] then 0
    else if s[0] == '.' then 0
    else 1 + DotAt(s[1..])
  }

  /** Value of an unsigned mantissa `int '.' frac`, either part possibly empty but not both. */
  function ParseMantissa(m: string): (r: Option<real>)
  {
    var d := DotAt(m);
    if d == |m| then None
    else
      var ip, fp := m[..d], m[d + 1..];
      if OptGroup(ip) && OptGroup(fp) && |ip| + |fp| >= 1
      then Some(MantissaValue(GroupDigits(ip), GroupDigits(fp)))
      else None
  }

  /** The number written `ip.fp`. */
  function MantissaValue(ip: string, fp: string): real
    requires AllDigits(ip) && AllDigits(fp)
  {
    DigitsValue(ip) as real + DigitsValue(fp) as real / Pow10(|fp|)
  }

  /**
   * Python `float(s)` on a string that contains a '.': whitespace around an
   * optional sign, a mantissa with one point and an optional exponent.
   */
  function ParseDecimal(s: string): Option<real>
  {
    ParseFloatNumeral(Strip(s))
  }

  /** The numeral `float` reads once the whitespace is gone: an optional sign, then an unsigned numeral. */
  function ParseFloatNumeral(t: string): Option<real>
  {
    if |t| >= 1 && (t[0] == '-' || t[0] == '+') then
      match ParseUnsignedFloat(t[1..])
      case None => None
      case Some(x) => Some(if t[0] == '-' then -x else x)
    else ParseUnsignedFloat(t)
  }

  /** A mantissa with a point, then optionally an exponent marker and a signed exponent. */
  function ParseUnsignedFloat(u: string): Option<real>
  {
    var e := ExponentAt(u);
    var mant := ParseMantissa(u[..e]);
    var exp := if e == |u| then Some(0) else ParseSigned(u[e + 1..]);
    if mant.None? || exp.None? then None
    else Some(Scale10(mant.value, exp.value))
  }

  /**
   * The value an environment override stores: a string with a '.' becomes a
   * float or, when it does not parse, no override at all; any other string
   * becomes an int when it parses and stays a string otherwise.
   */
  function ParseEnvValue(s: string): (r: Option<Value>)
    ensures '.' in s ==> r.None? || r.value.VReal?
    ensures '.' in s && ParseDecimal(s).Some? ==> r == Some(VReal(ParseDecimal(s).value))
    ensures '.' !in s ==> r.Some? && (r.value.VInt? || r.value == VStr(s))
    ensures '.' !in s && ParseInt(s).Some? ==> r == Some(VInt(ParseInt(s).value))
  {
    if '.' in s then
      match ParseDecimal(s)
      case Some(x) => Some(VReal(x))
      case None => None
    else
      match ParseInt(s)
      case Some(n) => Some(VInt(n))
      case None => Some(VStr(s))
  }

  function DigitChar(d: nat): (ch: char)
    requires d < 10
    ensures IsDigit(ch) && ch as int - '0' as int == d
  {
    ('0' as int + d) as char
  }

  /** Decimal rendering of a natural number, without leading zeros. */
  function NatString(n: nat): (s: string)
    ensures |s| >= 1 && AllDigits(s) && '.' !in s
    decreases n
  {
    if n < 10 then [DigitChar(n)] else NatString(n / 10) + [DigitChar(n % 10)]
  }

  lemma {:induction false} NatStringValue(n: nat)
    ensures DigitsValue(NatString(n)) == n
    decreases n
  {
    if n >= 10 {
      NatStringValue(n / 10);
      var s := NatString(n);
      assert s[..|s| - 1] == NatString(n / 10);
    }
  }

  /** Decimal rendering of an integer, as Python's `str(n)`. */
  function IntString(n: int): (s: string)
    ensures |s| >= 1 && '.' !in s
    ensures !IsSpace(s[0]) && !IsSpace(s[|s| - 1])
  {
    if n < 0 then "-" + NatString(-n) else NatString(n)
  }

  lemma SignedIntString(n: int)
    ensures ParseSigned(IntString(n)) == Some(n)
  {
    var s := IntString(n);
    if n < 0 {
      var d := NatString(-n);
      NatStringValue(-n);
      assert s == "-" + d;
      NegativeDigits(s, d, -n);
    } else {
      NatStringValue(n);
      UnsignedDigits(s, n);
    }
  }

  /** A minus sign before plain digits of value m reads as -m. */
  lemma NegativeDigits(s: string, d: string, m: nat)
    requires |d| >= 1 && AllDigits(d) && DigitsValue(d) == m && s == "-" + d
    ensures ParseSigned(s) == Some(0 - m)
  {
    DigitsAreGroup(d);
    assert s[0] == '-' && s[1..] == d;
    NegativeNumeral(s, d, m);
  }

  /** Plain digits of value m read as m. */
  lemma UnsignedDigits(s: string, m: nat)
    requires |s| >= 1 && AllDigits(s) && DigitsValue(s) == m
    ensures ParseSigned(s) == Some(m)
  {
    DigitsAreGroup(s);
    UnsignedNumeral(s);
  }

  lemma NegativeNumeral(s: string, d: string, m: nat)
    requires |s| >= 1 && s[0] == '-' && s[1..] == d
    requires DigitGroup(d) && GroupValue(d) == m
    ensures ParseSigned(s) == Some(0 - m)
  {
    NegativeGroup(s);
  }

  lemma NegativeGroup(s: string)
    requires |s| >= 1 && s[0] == '-' && DigitGroup(s[1..])
    ensures ParseSigned(s) == Some(0 - GroupValue(s[1..]))
  {
  }

  lemma UnsignedNumeral(s: string)
    requires DigitGroup(s)
    ensures ParseSigned(s) == Some(GroupValue(s))
  {
  }

  /** Any integer written out by `str` reads back as that integer. */
  lemma ParseEnvIntRoundTrip(n: int)
    ensures ParseEnvValue(IntString(n)) == Some(VInt(n))
  {
    StripUnpadded(IntString(n));
    SignedIntString(n);
  }

  /**
   * Whitespace around a numeral changes nothing that `int()` or `float()`
   * sees: an integer or float override is the same with or without it.
   */
  lemma PaddingIgnored(p: string, s: string, q: string)
    requires s != [] && !IsSpace(s[0]) && !IsSpace(s[|s| - 1])
    requires forall j :: 0 <= j < |p| ==> IsSpace(p[j])
    requires forall j :: 0 <= j < |q| ==> IsSpace(q[j])
    ensures ParseInt(p + s + q) == ParseInt(s)
    ensures ParseDecimal(p + s + q) == ParseDecimal(s)
    ensures ParseEnvValue(s).Some? && !ParseEnvValue(s).value.VStr? ==>
              ParseEnvValue(p + s + q) == ParseEnvValue(s)
  {
    StripPadding(p, s, q);
    StripUnpadded(s);
    assert '.' !in p && '.' !in q by {
      assert !IsSpace('.');
    }
    assert ('.' in p + s + q) == ('.' in s);
  }

  /** A padded integer reads back as that integer: " 5" gives 5, as `int(" 5")` does. */
  lemma PaddedInteger(p: string, n: int, q: string)
    requires forall j :: 0 <= j < |p| ==> IsSpace(p[j])
    requires forall j :: 0 <= j < |q| ==> IsSpace(q[j])
    ensures ParseEnvValue(p + IntString(n) + q) == Some(VInt(n))
  {
    ParseEnvIntRoundTrip(n);
    PaddingIgnored(p, IntString(n), q);
  }

  /** Underscores between digits group them: "1_000" gives 1000, as `int("1_000")` does. */
  lemma UnderscoredThousand(s: string)
    requires s == "1_000"
    ensures ParseEnvValue(s) == Some(VInt(1000))
  {
    ThousandGroup(s);
    GroupIsEnvInt(s);
  }

  /** A digit group with nothing around it is an integer override of its value. */
  lemma GroupIsEnvInt(s: string)
    requires DigitGroup(s)
    ensures ParseEnvValue(s) == Some(VInt(GroupValue(s)))
  {
    ParseIntUnpadded(s);
    GroupChars(s);
    assert '.' !in s by {
      assert !IsDigit('.');
    }
  }

  lemma ThousandGroup(s: string)
    requires s == "1_000"
    ensures DigitGroup(s) && GroupValue(s) == 1000
  {
    ThousandIsGroup(s);
    ThousandUngroup(s);
    ThousandDigits(Ungroup(s));
  }

  lemma ThousandIsGroup(s: string)
    requires s == "1_000"
    ensures DigitGroup(s)
  {
    assert DigitGroup(s[2..]) by {
      assert s[2..] == "000";
      DigitsAreGroup(s[2..]);
    }
  }

  lemma ThousandUngroup(s: string)
    requires s == "1_000"
    ensures Ungroup(s) == "1000"
  {
    var a := [] + ['1'];
    var b := a + ['_'];
    var c := b + ['0'];
    var d := c + ['0'];
    assert s == d + ['0'];
    UngroupSnoc([], '1');
    UngroupSnoc(a, '_');
    UngroupSnoc(b, '0');
    UngroupSnoc(c, '0');
    UngroupSnoc(d, '0');
  }

  /** Dropping underscores one character at a time. */
  lemma UngroupSnoc(s: string, ch: char)
    ensures Ungroup(s + [ch]) == Ungroup(s) + (if ch == '_' then [] else [ch])
  {
    assert (s + [ch])[..|s|] == s;
  }

  lemma ThousandDigits(t: string)
    requires t == "1000"
    ensures AllDigits(t) && DigitsValue(t) == 1000
  {
    var a := [] + ['1'];
    var b := a + ['0'];
    var c := b + ['0'];
    assert t == c + ['0'];
    DigitsSnoc([], '1');
    DigitsSnoc(a, '0');
    DigitsSnoc(b, '0');
    DigitsSnoc(c, '0');
  }

  /** Appending a digit multiplies the value by ten and adds the digit. */
  lemma DigitsSnoc(s: string, ch: char)
    requires AllDigits(s) && IsDigit(ch)
    ensures AllDigits(s + [ch]) && DigitsValue(s + [ch]) == DigitsValue(s) * 10 + (ch as int - '0' as int)
  {
    assert (s + [ch])[..|s|] == s;
  }

  /** A digit group with nothing around it is read by `int` as its value. */
  lemma ParseIntUnpadded(s: string)
    requires DigitGroup(s)
    ensures ParseInt(s) == Some(GroupValue(s))
  {
    assert IsDigit(s[0]);
    GroupChars(s);
    assert IsDigit(s[|s| - 1]) || s[|s| - 1] == '_';
    StripUnpadded(s);
    UnsignedNumeral(s);
  }

  /** A point-decimal `a.b` written out reads back as a + b / 10^|b|. */
  lemma ParseEnvDecimal(a: nat, b: nat)
    ensures ParseEnvValue(NatString(a) + "." + NatString(b)) ==
            Some(VReal(MantissaValue(NatString(a), NatString(b))))
    ensures MantissaValue(NatString(a), NatString(b)) == a as real + b as real / Pow10(|NatString(b)|)
  {
    var sa, sb := NatString(a), NatString(b);
    var s := sa + "." + sb;
    DecimalOfDigits(sa, sb);
    assert s[|sa|] == '.';
    NatStringValue(a);
    NatStringValue(b);
  }

  /** `float` of an unsigned `ip.fp` with a non-empty integer part is its mantissa value. */
  lemma DecimalOfDigits(ip: string, fp: string)
    requires AllDigits(ip) && AllDigits(fp) && |ip| >= 1
    ensures ParseDecimal(ip + "." + fp) == Some(MantissaValue(ip, fp))
  {
    DecimalOf(ip + "." + fp, ip, fp);
  }

  lemma DecimalOf(s: string, ip: string, fp: string)
    requires AllDigits(ip) && AllDigits(fp) && |ip| >= 1 && s == ip + "." + fp
    ensures ParseDecimal(s) == Some(MantissaValue(ip, fp))
  {
    assert s[0] == ip[0] && IsDigit(ip[0]);
    assert !IsSpace(s[|s| - 1]) by {
      if fp == [] { assert s[|s| - 1] == '.'; }
      else { assert s[|s| - 1] == fp[|fp| - 1] && IsDigit(fp[|fp| - 1]); }
    }
    StripUnpadded(s);
    DecimalNoExponent(ip, fp);
    MantissaOf(ip, fp);
    UnsignedFloatNumeral(s, MantissaValue(ip, fp));
  }

  lemma UnsignedFloatNumeral(s: string, x: real)
    requires |s| >= 1 && s[0] != '-' && s[0] != '+' && ExponentAt(s) == |s|
    requires ParseMantissa(s) == Some(x)
    ensures ParseFloatNumeral(s) == Some(x)
  {
    UnsignedNoExponent(s, x);
  }

  lemma UnsignedNoExponent(u: string, x: real)
    requires ExponentAt(u) == |u| && ParseMantissa(u) == Some(x)
    ensures ParseUnsignedFloat(u) == Some(x)
  {
    assert u[..|u|] == u;
    Scale10Zero(x);
  }

  lemma Scale10Zero(x: real)
    ensures Scale10(x, 0) == x
  {
    assert Pow10(0) == 1.0;
  }

  /** Digits, a point, digits: the mantissa's value. */
  lemma MantissaOf(ip: string, fp: string)
    requires AllDigits(ip) && AllDigits(fp) && |ip| + |fp| >= 1
    ensures ParseMantissa(ip + "." + fp) == Some(MantissaValue(ip, fp))
  {
    var m := ip + "." + fp;
    assert forall j :: 0 <= j < |ip| ==> m[j] != '.' by {
      forall j | 0 <= j < |ip| ensures m[j] != '.' { assert m[j] == ip[j] && IsDigit(ip[j]); }
    }
    DotAtFirst(m, |ip|);
    assert m[..|ip|] == ip && m[|ip| + 1..] == fp;
    DigitsOptGroup(ip);
    DigitsOptGroup(fp);
  }

  /** Plain digits, possibly none, are an optional group standing for themselves. */
  lemma DigitsOptGroup(s: string)
    requires AllDigits(s)
    ensures OptGroup(s) && GroupDigits(s) == s
  {
    if s != [] {
      DigitsAreGroup(s);
    }
  }

  lemma DecimalNoExponent(ip: string, fp: string)
    requires AllDigits(ip) && AllDigits(fp)
    ensures ExponentAt(ip + "." + fp) == |ip + "." + fp|
  {
    var s := ip + "." + fp;
    forall j | 0 <= j < |s| ensures s[j] != 'e' && s[j] != 'E' {
      if j < |ip| { assert s[j] == ip[j] && IsDigit(ip[j]); }
      else if j > |ip| { assert s[j] == fp[j - |ip| - 1] && IsDigit(fp[j - |ip| - 1]); }
    }
    ExponentNone(s);
  }

  lemma {:induction false} ExponentNone(s: string)
    requires forall j :: 0 <= j < |s| ==> s[j] != 'e' && s[j] != 'E'
    ensures ExponentAt(s) == |s|
    decreases |s|
  {
    if s != [] {
      ExponentNone(s[1..]);
    }
  }

  lemma {:induction false} DotAtFirst(s: string, k: nat)
    requires k < |s| && s[k] == '.'
    requires forall j :: 0 <= j < k ==> s[j] != '.'
    ensures DotAt(s) == k
    decreases k
  {
    if k > 0 {
      DotAtFirst(s[1..], k - 1);
    }
  }

  /** One override: variable name, section, key. */
  datatype EnvMapping = EnvMapping(variable: string, section: string, key: string)

  /** The fixed override table, in dictionary order. */
  const EnvMappings: seq<EnvMapping> := [
    EnvMapping("CLAUDE_MODEL", "claude", "model"),
    EnvMapping("MAX_DAILY_TRADES", "risk_management", "max_daily_trades"),
    EnvMapping("MAX_DAILY_LOSS", "risk_management", "max_daily_loss"),
    EnvMapping("MIN_RISK_REWARD", "trading_params", "min_risk_reward"),
    EnvMapping("CONFIDENCE_THRESHOLD", "trading_params", "confidence_threshold"),
    EnvMapping("POSITION_SIZE", "trading_params", "position_size")
  ]

  /**
   * Apply one override: only a set variable whose value parses, and only into
   * a section that exists and is a dictionary (item assignment into any
   * other value raises a TypeError that the override loop swallows).
   */
  function ApplyOverride(raw: map<string, Value>, env: map<string, string>, m: EnvMapping): map<string, Value>
  {
    if m.variable !in env then raw
    else match ParseEnvValue(env[m.variable])
      case None => raw
      case Some(v) =>
        if m.section in raw && raw[m.section].VDict?
        then raw[m.section := VDict(raw[m.section].d[m.key := v])]
        else raw
  }

  function ApplyOverrides(raw: map<string, Value>, env: map<string, string>, ms: seq<EnvMapping>): map<string, Value>
    decreases |ms|
  {
    if ms == [] then raw else ApplyOverrides(ApplyOverride(raw, env, ms[0]), env, ms[1..])
  }

  /** An override never adds or removes a section, and leaves sections outside the table alone. */
  lemma {:induction false} OverridesFrame(raw: map<string, Value>, env: map<string, string>,
                                          ms: seq<EnvMapping>, sec: string)
    ensures ApplyOverrides(raw, env, ms).Keys == raw.Keys
    ensures (forall k :: 0 <= k < |ms| ==> ms[k].section != sec) && sec in raw ==>
              ApplyOverrides(raw, env, ms)[sec] == raw[sec]
    decreases |ms|
  {
    if ms != [] {
      OverridesFrame(ApplyOverride(raw, env, ms[0]), env, ms[1..], sec);
    }
  }

  /** An override of another key leaves `raw[sec].d[key]` as it was. */
  lemma {:induction false} OverridesOtherKeys(raw: map<string, Value>, env: map<string, string>,
                                              ms: seq<EnvMapping>, sec: string, key: string)
    requires sec in raw && raw[sec].VDict? && key in raw[sec].d
    requires forall k :: 0 <= k < |ms| ==> ms[k].section != sec || ms[k].key != key
    ensures var r := ApplyOverrides(raw, env, ms);
            sec in r && r[sec].VDict? && key in r[sec].d && r[sec].d[key] == raw[sec].d[key]
    decreases |ms|
  {
    if ms != [] {
      OverridesOtherKeys(ApplyOverride(raw, env, ms[0]), env, ms[1..], sec, key);
    }
  }

  /**
   * Setting MAX_DAILY_TRADES to a written-out integer stores that integer
   * under risk_management, whatever the other variables say.
   */
  lemma MaxDailyTradesOverride(raw: map<string, Value>, env: map<string, string>, n: int)
    requires "risk_management" in raw && raw["risk_management"].VDict?
    requires "MAX_DAILY_TRADES" in env && env["MAX_DAILY_TRADES"] == IntString(n)
    ensures Lookup(VDict(ApplyOverrides(raw, env, EnvMappings)), ["risk_management", "max_daily_trades"], VNull) == VInt(n)
  {
    var ms := EnvMappings;
    var r2 := ApplyOverride(ApplyOverride(raw, env, ms[0]), env, ms[1]);
    DailyTradesWritten(raw, env, n, r2);
    OverridesUnfoldTwo(raw, env, ms);
    LaterMappingsSkipDailyTrades();
    OverridesOtherKeys(r2, env, ms[2..], "risk_management", "max_daily_trades");
    LookupPair(ApplyOverrides(r2, env, ms[2..]), "risk_management", "max_daily_trades");
  }

  /** After the first two mappings the daily trade limit holds the parsed integer. */
  lemma DailyTradesWritten(raw: map<string, Value>, env: map<string, string>, n: int, r2: map<string, Value>)
    requires "risk_management" in raw && raw["risk_management"].VDict?
    requires "MAX_DAILY_TRADES" in env && env["MAX_DAILY_TRADES"] == IntString(n)
    requires r2 == ApplyOverride(ApplyOverride(raw, env, EnvMappings[0]), env, EnvMappings[1])
    ensures "risk_management" in r2 && r2["risk_management"].VDict?
    ensures "max_daily_trades" in r2["risk_management"].d && r2["risk_management"].d["max_daily_trades"] == VInt(n)
  {
    ParseEnvIntRoundTrip(n);
    var ms := EnvMappings;
    var r1 := ApplyOverride(raw, env, ms[0]);
    OverrideOtherSection(raw, env, ms[0], "risk_management");
    OverrideSets(r1, env, ms[1], VInt(n));
  }

  /** No mapping after MAX_DAILY_TRADES writes its key (the names differ in length). */
  lemma LaterMappingsSkipDailyTrades()
    ensures forall k :: 0 <= k < |EnvMappings[2..]| ==>
              EnvMappings[2..][k].section != "risk_management" || EnvMappings[2..][k].key != "max_daily_trades"
  {
    var ms := EnvMappings[2..];
    forall k | 0 <= k < |ms|
      ensures ms[k].section != "risk_management" || ms[k].key != "max_daily_trades"
    {
      assert |ms[k].section| != 15 || |ms[k].key| != 16;
    }
  }

  lemma OverridesUnfoldTwo(raw: map<string, Value>, env: map<string, string>, ms: seq<EnvMapping>)
    requires |ms| >= 2
    ensures ApplyOverrides(raw, env, ms) ==
            ApplyOverrides(ApplyOverride(ApplyOverride(raw, env, ms[0]), env, ms[1]), env, ms[2..])
  {
    assert ms[1..][1..] == ms[2..];
  }

  /** A two-step lookup finds a non-null entry of a section that is a dictionary. */
  lemma LookupPair(r: map<string, Value>, sec: string, key: string)
    requires sec in r && r[sec].VDict? && key in r[sec].d && !r[sec].d[key].VNull?
    ensures Lookup(VDict(r), [sec, key], VNull) == r[sec].d[key]
  {
    assert [sec, key][1..] == [key];
    assert [key][1..] == [];
    assert Lookup(r[sec].d[key], [], VNull) == r[sec].d[key];
    assert Lookup(r[sec], [key], VNull) == r[sec].d[key];
  }

  /** An override of another section leaves this one as it was. */
  lemma OverrideOtherSection(raw: map<string, Value>, env: map<string, string>, m: EnvMapping, sec: string)
    requires m.section != sec && sec in raw
    ensures var r := ApplyOverride(raw, env, m); sec in r && r[sec] == raw[sec]
  {
  }

  /** A set variable whose value parses is written under its key when its section is a dictionary. */
  lemma OverrideSets(raw: map<string, Value>, env: map<string, string>, m: EnvMapping, v: Value)
    requires m.variable in env && ParseEnvValue(env[m.variable]) == Some(v)
    requires m.section in raw && raw[m.section].VDict?
    ensures var r := ApplyOverride(raw, env, m);
            m.section in r && r[m.section].VDict? && m.key in r[m.section].d && r[m.section].d[m.key] == v
  {
  }

  // ---------------------------------------------------------------------
  // Validation

  datatype ConfigError =
    | MissingSection(section: string)
    | StopRangeInverted
    | RiskRewardNotPositive
    | ConfidenceOutOfRange

  /**
   * Outcome of validation: accepted; rejected with the errors found; or a
   * Python TypeError / AttributeError (a section that is not a dictionary, a
   * compared value that is not a number) that escapes the validator.
   */
  datatype Validation = Accepted | Rejected(errors: seq<ConfigError>) | TypeFailure

  const RequiredSections: seq<string> := ["trading_params", "risk_management", "claude"]

  predicate HasSections(raw: map<string, Value>)
  {
    "trading_params" in raw && "risk_management" in raw && "claude" in raw
  }

  /** `d.get(key, default)`. */
  function GetOr(d: map<string, Value>, key: string, default: Value): Value
  {
    if key in d then d[key] else default
  }

  /** `section.get(key, default)` used as a number; a non-dictionary section or a non-number is a TypeError. */
  function NumberAt(section: Value, key: string, default: real): Option<real>
  {
    if !section.VDict? then None
    else AsNumber(GetOr(section.d, key, VReal(default)))
  }

  /** Python `a < b` on two strings: code-point order, a proper prefix first. */
  function StrLess(a: string, b: string): bool
    decreases |a|
  {
    if a == [] then b != []
    else if b == [] then false
    else if a[0] != b[0] then a[0] < b[0]
    else StrLess(a[1..], b[1..])
  }

  /** String order is a strict total order: exactly one of a < b, a == b, b < a. */
  lemma {:induction false} StrLessTotal(a: string, b: string)
    ensures !StrLess(a, a)
    ensures a != b ==> StrLess(a, b) != StrLess(b, a)
    ensures a == b ==> !StrLess(a, b) && !StrLess(b, a)
    decreases |a|
  {
    if a != [] {
      StrLessTotal(a[1..], a[1..]);
      if b != [] && a[0] == b[0] {
        StrLessTotal(a[1..], b[1..]);
        assert a == [a[0]] + a[1..] && b == [b[0]] + b[1..];
      }
    }
  }

  /**
   * Python `a >= b` on two decoded values: numbers (booleans included) by
   * value, two strings in code-point order; any other pair raises a
   * TypeError (None).
   */
  function PyGe(a: Value, b: Value): Option<bool>
  {
    if a.VStr? && b.VStr? then Some(!StrLess(a.s, b.s))
    else if AsNumber(a).Some? && AsNumber(b).Some? then Some(AsNumber(a).value >= AsNumber(b).value)
    else None
  }

  /** The stop-limit comparison `risk.get('stop_loss_min', 0) >= risk.get('stop_loss_max', 100)`. */
  function StopOrder(risk: map<string, Value>): Option<bool>
  {
    PyGe(GetOr(risk, "stop_loss_min", VInt(0)), GetOr(risk, "stop_loss_max", VInt(100)))
  }

  function MissingSections(raw: map<string, Value>, secs: seq<string>): (r: seq<ConfigError>)
    ensures forall k :: 0 <= k < |r| ==> r[k].MissingSection? && r[k].section !in raw
    ensures |r| <= |secs|
    decreases |secs|
  {
    if secs == [] then []
    else MissingSections(raw, secs[..|secs| - 1]) +
         (if secs[|secs| - 1] !in raw then [MissingSection(secs[|secs| - 1])] else [])
  }

  /** The three consistency rules in the order they are checked. */
  function ConsistencyErrors(raw: map<string, Value>): Option<seq<ConfigError>>
    requires HasSections(raw)
  {
    var trading, risk := raw["trading_params"], raw["risk_management"];
    if !risk.VDict? then None
    else
      var inverted := StopOrder(risk.d);
      if inverted.None? then None
      else
        var e1 := if inverted.value then [StopRangeInverted] else [];
        var rr := NumberAt(trading, "min_risk_reward", 0.0);
        if rr.None? then None
        else
          var e2 := if rr.value <= 0.0 then [RiskRewardNotPositive] else [];
          var conf := NumberAt(trading, "confidence_threshold", 0.65);
          if conf.None? then None
          else
            var e3 := if !(0.0 < conf.value <= 1.0) then [ConfidenceOutOfRange] else [];
            Some(e1 + e2 + e3)
  }

  /** The validator's verdict on a loaded configuration. */
  function Validate(raw: map<string, Value>): Validation
  {
    var missing := MissingSections(raw, RequiredSections);
    if missing != [] then Rejected(missing)
    else
      NoMissingSections(raw);
      match ConsistencyErrors(raw)
      case None => TypeFailure
      case Some(errs) => if errs == [] then Accepted else Rejected(errs)
  }

  /** No section is reported missing exactly when all three are present. */
  lemma NoMissingSections(raw: map<string, Value>)
    ensures MissingSections(raw, RequiredSections) == [] <==> HasSections(raw)
  {
    assert RequiredSections[..2] == ["trading_params", "risk_management"];
    assert RequiredSections[..2][..1] == ["trading_params"];
    assert ["trading_params"][..0] == [];
  }

  /**
   * Acceptance in full: all three sections present, the stop limits in
   * ascending order (as numbers, or as two strings), a positive R/R minimum
   * and a confidence threshold in (0, 1].
   */
  lemma ValidateAccepts(raw: map<string, Value>)
    ensures Validate(raw) == Accepted <==>
      HasSections(raw) &&
      var trading, risk := raw["trading_params"], raw["risk_management"];
      var rr, conf := NumberAt(trading, "min_risk_reward", 0.0), NumberAt(trading, "confidence_threshold", 0.65);
      risk.VDict? && StopOrder(risk.d) == Some(false) && rr.Some? && conf.Some? &&
      rr.value > 0.0 && 0.0 < conf.value <= 1.0
  {
    NoMissingSections(raw);
  }

  /**
   * Stop limits written as strings are compared as strings: "15" below "50"
   * is accepted, while "9" against "10" is inverted, since '9' sorts after '1'.
   */
  lemma StringStopLimits(raw: map<string, Value>, lo: string, hi: string)
    requires raw == map["trading_params" := VDict(map["min_risk_reward" := VInt(3)]),
                        "risk_management" := VDict(map["stop_loss_min" := VStr(lo), "stop_loss_max" := VStr(hi)]),
                        "claude" := VDict(map[])]
    ensures lo == "15" && hi == "50" ==> Validate(raw) == Accepted
    ensures lo == "9" && hi == "10" ==> Validate(raw) == Rejected([StopRangeInverted])
  {
    var risk := map["stop_loss_min" := VStr(lo), "stop_loss_max" := VStr(hi)];
    var trading := map["min_risk_reward" := VInt(3)];
    NoMissingSections(raw);
    assert raw["risk_management"] == VDict(risk) && raw["trading_params"] == VDict(trading) by {
      assert |"risk_management"| == 15 && |"trading_params"| == 14 && |"claude"| == 6;
    }
    assert StopOrder(risk) == Some(!StrLess(lo, hi)) by {
      assert |"stop_loss_min"| == |"stop_loss_max"| && "stop_loss_min"[11] != "stop_loss_max"[11];
    }
    assert NumberAt(VDict(trading), "min_risk_reward", 0.0) == Some(3.0);
    assert NumberAt(VDict(trading), "confidence_threshold", 0.65) == Some(0.65) by {
      assert |"confidence_threshold"| != |"min_risk_reward"|;
    }
    if lo == "15" && hi == "50" {
      assert StrLess(lo, hi) by { assert lo[0] < hi[0]; }
    }
    if lo == "9" && hi == "10" {
      assert !StrLess(lo, hi) by { assert lo[0] > hi[0]; }
    }
  }

  /**
   * The validator sees the configuration before the environment overrides:
   * a configuration that validates ends up with a confidence threshold of
   * 1.5, which the validator would reject, once CONFIDENCE_THRESHOLD is applied.
   */
  lemma OverridesBypassValidation(raw: map<string, Value>, env: map<string, string>)
    requires raw == map["trading_params" := VDict(map["min_risk_reward" := VInt(3)]),
                        "risk_management" := VDict(map[]), "claude" := VDict(map[])]
    requires env == map["CONFIDENCE_THRESHOLD" := "1.5"]
    ensures Validate(raw) == Accepted
    ensures Validate(ApplyOverrides(raw, env, EnvMappings)) == Rejected([ConfidenceOutOfRange])
  {
    var t := map["min_risk_reward" := VInt(3)];
    var t4 := map["min_risk_reward" := VInt(3)]["confidence_threshold" := VReal(1.5)];
    var r4 := raw["trading_params" := VDict(t4)];
    LowConfidenceAccepted(raw, t);
    assert raw["trading_params"] == VDict(t) by {
      assert |"risk_management"| == 15 && |"claude"| == 6;
    }
    ConfidenceOverride(raw, env);
    HighConfidenceRejected(raw, r4, t4);
  }

  lemma LowConfidenceAccepted(raw: map<string, Value>, t: map<string, Value>)
    requires t == map["min_risk_reward" := VInt(3)]
    requires raw == map["trading_params" := VDict(t), "risk_management" := VDict(map[]), "claude" := VDict(map[])]
    ensures Validate(raw) == Accepted
  {
    NoMissingSections(raw);
    assert "confidence_threshold" !in t;
    assert NumberAt(VDict(t), "confidence_threshold", 0.65) == Some(0.65);
    assert NumberAt(VDict(t), "min_risk_reward", 0.0) == Some(3.0);
    assert ConsistencyErrors(raw) == Some([]);
  }

  lemma ParseOnePointFive()
    ensures ParseEnvValue("1.5") == Some(VReal(1.5))
  {
    OnePointFive("1.5");
  }

  lemma OnePointFive(s: string)
    requires s == NatString(1) + "." + NatString(5)
    ensures ParseEnvValue(s) == Some(VReal(1.5))
  {
    ParseEnvDecimal(1, 5);
    MantissaOnePointFive();
  }

  lemma MantissaOnePointFive()
    ensures MantissaValue(NatString(1), NatString(5)) == 1.5
  {
    assert NatString(1) == "1" && NatString(5) == "5";
    assert DigitsValue("1") == 1 && DigitsValue("5") == 5;
    assert Pow10(1) == 10.0;
  }

  /**
   * With only CONFIDENCE_THRESHOLD=1.5 set, the overrides write 1.5 into
   * `trading_params` (when that section is a dictionary) and nothing else.
   */
  lemma ConfidenceOverride(raw: map<string, Value>, env: map<string, string>)
    requires env == map["CONFIDENCE_THRESHOLD" := "1.5"]
    requires "trading_params" in raw && raw["trading_params"].VDict?
    ensures ApplyOverrides(raw, env, EnvMappings) ==
            raw["trading_params" := VDict(raw["trading_params"].d["confidence_threshold" := VReal(1.5)])]
  {
    var ms := EnvMappings;
    ConfidenceParsed(env, ms[4]);
    OnlyConfidenceSet(env);
    UnsetOverrides(raw, env, ms[..4]);
    OverridesSplit(raw, env, ms, 4);
    OverridesUnfoldTwo(raw, env, ms[4..]);
    assert ms[4..][0] == ms[4] && ms[4..][1] == ms[5] && ms[4..][2..] == [];
    OverrideWrites(raw, env, ms[4], VReal(1.5));
    OverrideUnset(ApplyOverride(raw, env, ms[4]), env, ms[5]);
  }

  lemma ConfidenceParsed(env: map<string, string>, m: EnvMapping)
    requires env == map["CONFIDENCE_THRESHOLD" := "1.5"] && m == EnvMappings[4]
    ensures m.variable in env && ParseEnvValue(env[m.variable]) == Some(VReal(1.5))
  {
    assert env[m.variable] == "1.5";
    ParseOnePointFive();
  }

  /** An override whose variable is not set changes nothing. */
  lemma OverrideUnset(raw: map<string, Value>, env: map<string, string>, m: EnvMapping)
    requires m.variable !in env
    ensures ApplyOverride(raw, env, m) == raw
  {
  }

  /** A set variable whose value parses replaces its key in a section that is a dictionary. */
  lemma OverrideWrites(raw: map<string, Value>, env: map<string, string>, m: EnvMapping, v: Value)
    requires m.variable in env && ParseEnvValue(env[m.variable]) == Some(v)
    requires m.section in raw && raw[m.section].VDict?
    ensures ApplyOverride(raw, env, m) == raw[m.section := VDict(raw[m.section].d[m.key := v])]
  {
  }

  /** With only CONFIDENCE_THRESHOLD set, no other mapped variable is (the names differ in length). */
  lemma OnlyConfidenceSet(env: map<string, string>)
    requires env == map["CONFIDENCE_THRESHOLD" := "1.5"]
    ensures forall k :: 0 <= k < |EnvMappings[..4]| ==> EnvMappings[..4][k].variable !in env
    ensures EnvMappings[5].variable !in env
  {
    var ms := EnvMappings[..4];
    forall k | 0 <= k < |ms|
      ensures ms[k].variable !in env
    {
      assert |ms[k].variable| != 20;
    }
    assert |EnvMappings[5].variable| != 20;
  }

  lemma HighConfidenceRejected(raw: map<string, Value>, r: map<string, Value>, t: map<string, Value>)
    requires raw == map["trading_params" := VDict(map["min_risk_reward" := VInt(3)]),
                        "risk_management" := VDict(map[]), "claude" := VDict(map[])]
    requires t == map["min_risk_reward" := VInt(3)]["confidence_threshold" := VReal(1.5)]
    requires r == raw["trading_params" := VDict(t)]
    ensures Validate(r) == Rejected([ConfidenceOutOfRange])
  {
    NoMissingSections(r);
    assert NumberAt(VDict(t), "confidence_threshold", 0.65) == Some(1.5);
    assert NumberAt(VDict(t), "min_risk_reward", 0.0) == Some(3.0);
    assert r["trading_params"] == VDict(t) && r["risk_management"] == VDict(map[]);
    assert StopOrder(map[]) == Some(false);
    assert ConsistencyErrors(r) == Some([] + [] + [ConfidenceOutOfRange]);
  }

  /** Variables that are not set change nothing. */
  lemma {:induction false} UnsetOverrides(raw: map<string, Value>, env: map<string, string>, ms: seq<EnvMapping>)
    requires forall k :: 0 <= k < |ms| ==> ms[k].variable !in env
    ensures ApplyOverrides(raw, env, ms) == raw
    decreases |ms|
  {
    if ms != [] {
      UnsetOverrides(raw, env, ms[1..]);
    }
  }

  lemma {:induction false} OverridesSplit(raw: map<string, Value>, env: map<string, string>, ms: seq<EnvMapping>, k: nat)
    requires k <= |ms|
    ensures ApplyOverrides(raw, env, ms) == ApplyOverrides(ApplyOverrides(raw, env, ms[..k]), env, ms[k..])
    decreases k
  {
    if k > 0 {
      assert ms[1..][..k - 1] == ms[..k][1..];
      assert ms[1..][k - 1..] == ms[k..];
      OverridesSplit(ApplyOverride(raw, env, ms[0]), env, ms[1..], k - 1);
    }
  }

  // ---------------------------------------------------------------------
  // Typed configurations

  /** Trading parameters (the `trading_params` section). */
  datatype TradingConfig = TradingConfig(minGapSize: real, maxGapAgeBars: int, minRiskReward: real,
                                         confidenceThreshold: real, positionSize: int,
                                         maxSlippagePoints: real)

  /** Risk limits (the `risk_management` section). */
  datatype RiskConfig = RiskConfig(stopLossMin: int, stopLossDefault: int, stopLossMax: int,
                                   stopBuffer: int, maxDailyTrades: int, maxDailyLoss: real,
                                   maxConsecutiveLosses: int, maxPositionSize: int,
                                   maxDrawdownPercent: real, coolDownAfterLossMinutes: int)

  /**
   * A number with no fractional part: what an integer field can hold and
   * still behave as that integer in the risk gate's comparisons.
   */
  predicate IsWhole(v: Value)
  {
    AsNumber(v).Some? && AsNumber(v).value == AsNumber(v).value.Floor as real
  }

  /** `section.get(key, default)` for an integer field: an int, a bool or a whole float. */
  function IntField(section: map<string, Value>, key: string, default: int): (r: Option<int>)
    ensures r.Some? <==> key !in section || IsWhole(section[key])
    ensures key in section && r.Some? ==> r.value as real == AsNumber(section[key]).value
  {
    if key !in section then Some(default)
    else match AsNumber(section[key])
      case Some(x) => if x == x.Floor as real then Some(x.Floor) else None
      case None => None
  }

  /** `section.get(key, default)` for a real field: any number. */
  function RealField(section: map<string, Value>, key: string, default: real): (r: Option<real>)
    ensures r.Some? <==> key !in section || AsNumber(section[key]).Some?
    ensures key in section ==> r == AsNumber(section[key])
  {
    if key !in section then Some(default) else AsNumber(section[key])
  }

  /** `raw.get(name, {})` as a dictionary. */
  function SectionOf(raw: map<string, Value>, name: string): Option<map<string, Value>>
  {
    if name !in raw then Some(map[])
    else match raw[name]
      case VDict(d) => Some(d)
      case _ => None
  }

  /** The section's dictionary, or an empty one when it is absent or not a dictionary. */
  function SectionDict(raw: map<string, Value>, name: string): map<string, Value>
  {
    if name in raw && raw[name].VDict? then raw[name].d else map[]
  }

  /** A present integer field the typed record cannot take: not a whole number. */
  predicate BadInt(section: map<string, Value>, key: string)
  {
    key in section && !IsWhole(section[key])
  }

  /** A present real field the typed record cannot take: not a number. */
  predicate BadReal(section: map<string, Value>, key: string)
  {
    key in section && AsNumber(section[key]).None?
  }

  /** The numeric value of a present field, or the field's default when it is absent. */
  function Given(section: map<string, Value>, key: string, default: real): real
  {
    if key in section && AsNumber(section[key]).Some? then AsNumber(section[key]).value else default
  }

  /** `trading_params` present but not a dictionary, or one of its six fields holding a value it cannot take. */
  predicate TradingUnusable(raw: map<string, Value>)
  {
    "trading_params" in raw &&
    (!raw["trading_params"].VDict? ||
     var t := raw["trading_params"].d;
     BadReal(t, "min_gap_size") || BadInt(t, "max_gap_age_bars") || BadReal(t, "min_risk_reward") ||
     BadReal(t, "confidence_threshold") || BadInt(t, "position_size") || BadReal(t, "max_slippage_points"))
  }

  /** `risk_management` present but not a dictionary, or one of its ten fields holding a value it cannot take. */
  predicate RiskUnusable(raw: map<string, Value>)
  {
    "risk_management" in raw &&
    (!raw["risk_management"].VDict? ||
     var r := raw["risk_management"].d;
     BadInt(r, "stop_loss_min") || BadInt(r, "stop_loss_default") || BadInt(r, "stop_loss_max") ||
     BadInt(r, "stop_buffer") || BadInt(r, "max_daily_trades") || BadReal(r, "max_daily_loss") ||
     BadInt(r, "max_consecutive_losses") || BadInt(r, "max_position_size") ||
     BadReal(r, "max_drawdown_percent") || BadInt(r, "cool_down_after_loss_minutes"))
  }

  /**
   * `TradingConfig(...)` from `trading_params`: each field is the section's
   * number under its key, or its default when the key is absent; no record
   * exactly when the section is unusable. Keys outside the six fields are
   * ignored, as the constructor call names only these.
   */
  function TypedTrading(raw: map<string, Value>): (r: Option<TradingConfig>)
    ensures r.Some? <==> !TradingUnusable(raw)
    ensures r.Some? ==>
              var t := SectionDict(raw, "trading_params");
              r.value.minGapSize == Given(t, "min_gap_size", 5.0) &&
              r.value.maxGapAgeBars as real == Given(t, "max_gap_age_bars", 1000.0) &&
              r.value.minRiskReward == Given(t, "min_risk_reward", 3.0) &&
              r.value.confidenceThreshold == Given(t, "confidence_threshold", 0.65) &&
              r.value.positionSize as real == Given(t, "position_size", 1.0) &&
              r.value.maxSlippagePoints == Given(t, "max_slippage_points", 2.0)
  {
    match SectionOf(raw, "trading_params")
    case None => None
    case Some(t) =>
      var a, b := RealField(t, "min_gap_size", 5.0), IntField(t, "max_gap_age_bars", 1000);
      var c, d := RealField(t, "min_risk_reward", 3.0), RealField(t, "confidence_threshold", 0.65);
      var e, f := IntField(t, "position_size", 1), RealField(t, "max_slippage_points", 2.0);
      if a.Some? && b.Some? && c.Some? && d.Some? && e.Some? && f.Some?
      then Some(TradingConfig(a.value, b.value, c.value, d.value, e.value, f.value))
      else None
  }

  /** `RiskConfig(...)` from `risk_management`, by the same rule. */
  function TypedRisk(raw: map<string, Value>): (r: Option<RiskConfig>)
    ensures r.Some? <==> !RiskUnusable(raw)
    ensures r.Some? ==>
              var s := SectionDict(raw, "risk_management");
              r.value.stopLossMin as real == Given(s, "stop_loss_min", 15.0) &&
              r.value.stopLossDefault as real == Given(s, "stop_loss_default", 35.0) &&
              r.value.stopLossMax as real == Given(s, "stop_loss_max", 50.0) &&
              r.value.stopBuffer as real == Given(s, "stop_buffer", 5.0) &&
              r.value.maxDailyTrades as real == Given(s, "max_daily_trades", 5.0) &&
              r.value.maxDailyLoss == Given(s, "max_daily_loss", 100.0) &&
              r.value.maxConsecutiveLosses as real == Given(s, "max_consecutive_losses", 3.0) &&
              r.value.maxPositionSize as real == Given(s, "max_position_size", 10.0) &&
              r.value.maxDrawdownPercent == Given(s, "max_drawdown_percent", 5.0) &&
              r.value.coolDownAfterLossMinutes as real == Given(s, "cool_down_after_loss_minutes", 15.0)
  {
    match SectionOf(raw, "risk_management")
    case None => None
    case Some(r) =>
      var a, b := IntField(r, "stop_loss_min", 15), IntField(r, "stop_loss_default", 35);
      var c, d := IntField(r, "stop_loss_max", 50), IntField(r, "stop_buffer", 5);
      var e, f := IntField(r, "max_daily_trades", 5), RealField(r, "max_daily_loss", 100.0);
      var g, h := IntField(r, "max_consecutive_losses", 3), IntField(r, "max_position_size", 10);
      var i, j := RealField(r, "max_drawdown_percent", 5.0), IntField(r, "cool_down_after_loss_minutes", 15);
      if a.Some? && b.Some? && c.Some? && d.Some? && e.Some? && f.Some? && g.Some? && h.Some? && i.Some? && j.Some?
      then Some(RiskConfig(a.value, b.value, c.value, d.value, e.value, f.value, g.value, h.value, i.value, j.value))
      else None
  }

  const DefaultTrading: TradingConfig := TradingConfig(5.0, 1000, 3.0, 0.65, 1, 2.0)
  const DefaultRisk: RiskConfig := RiskConfig(15, 35, 50, 5, 5, 100.0, 3, 10, 5.0, 15)

  /** Absent sections and absent keys take the documented defaults; present numbers win. */
  lemma TypedDefaults(raw: map<string, Value>, n: int)
    ensures "trading_params" !in raw ==> TypedTrading(raw) == Some(DefaultTrading)
    ensures "risk_management" !in raw ==> TypedRisk(raw) == Some(DefaultRisk)
    ensures "risk_management" in raw && raw["risk_management"] == VDict(map["max_daily_trades" := VInt(n)]) ==>
              TypedRisk(raw) == Some(DefaultRisk.(maxDailyTrades := n))
    ensures "risk_management" in raw && raw["risk_management"] == VDict(map["stop_loss_min" := VInt(n)]) ==>
              TypedRisk(raw) == Some(DefaultRisk.(stopLossMin := n))
    ensures "trading_params" in raw && raw["trading_params"] == VDict(map["confidence_threshold" := VReal(0.65)]) ==>
              TypedTrading(raw) == Some(DefaultTrading)
  {
    if "trading_params" !in raw {
      NoTradingSection(raw);
    }
    if "risk_management" !in raw {
      NoRiskSection(raw);
    }
    if "risk_management" in raw && raw["risk_management"] == VDict(map["max_daily_trades" := VInt(n)]) {
      OnlyDailyTrades(raw, n);
    }
    if "risk_management" in raw && raw["risk_management"] == VDict(map["stop_loss_min" := VInt(n)]) {
      OnlyStopLossMin(raw, n);
    }
    if "trading_params" in raw && raw["trading_params"] == VDict(map["confidence_threshold" := VReal(0.65)]) {
      OnlyDefaultConfidence(raw);
    }
  }

  lemma NoTradingSection(raw: map<string, Value>)
    requires "trading_params" !in raw
    ensures TypedTrading(raw) == Some(DefaultTrading)
  {
  }

  lemma NoRiskSection(raw: map<string, Value>)
    requires "risk_management" !in raw
    ensures TypedRisk(raw) == Some(DefaultRisk)
  {
  }

  lemma OnlyDailyTrades(raw: map<string, Value>, n: int)
    requires "risk_management" in raw && raw["risk_management"] == VDict(map["max_daily_trades" := VInt(n)])
    ensures TypedRisk(raw) == Some(DefaultRisk.(maxDailyTrades := n))
  {
  }

  lemma OnlyStopLossMin(raw: map<string, Value>, n: int)
    requires "risk_management" in raw && raw["risk_management"] == VDict(map["stop_loss_min" := VInt(n)])
    ensures TypedRisk(raw) == Some(DefaultRisk.(stopLossMin := n))
  {
  }

  lemma OnlyDefaultConfidence(raw: map<string, Value>)
    requires "trading_params" in raw && raw["trading_params"] == VDict(map["confidence_threshold" := VReal(0.65)])
    ensures TypedTrading(raw) == Some(DefaultTrading)
  {
  }

  /**
   * POSITION_SIZE=2.0 is stored as the float 2.0, and the typed record still
   * holds a position size of 2, as the dataclass holding 2.0 behaves.
   */
  lemma FloatPositionSize(raw: map<string, Value>)
    requires raw == map["trading_params" := VDict(map["position_size" := VReal(2.0)])]
    ensures TypedTrading(raw) == Some(DefaultTrading.(positionSize := 2))
  {
    var t := map["position_size" := VReal(2.0)];
    assert SectionOf(raw, "trading_params") == Some(t);
    assert IntField(t, "position_size", 1) == Some(2);
  }

  /** Outcome of `get_file_path`: a path, a missing or falsy entry (ConfigurationError), or an unusable value. */
  datatype PathResult = PathOk(path: string) | NotConfigured(key: string) | BadPathValue

  /** `file_paths[key]` when it is a non-empty string; a falsy or missing value raises. */
  function GetFilePath(raw: map<string, Value>, key: string): (r: PathResult)
    ensures r.PathOk? <==> (match SectionOf(raw, "file_paths")
                            case None => false
                            case Some(fp) => key in fp && fp[key].VStr? && fp[key].s != "")
    ensures r.PathOk? ==> r.path != ""
  {
    match SectionOf(raw, "file_paths")
    case None => BadPathValue
    case Some(fp) =>
      var path := if key in fp then fp[key] else VNull;
      if !Truthy(path) then NotConfigured(key)
      else if path.VStr? then PathOk(path.s)
      else BadPathValue
  }

  /** The configuration as loaded, plus the errors of the last validation. */
  class ConfigStore {
    var raw: map<string, Value>
    var validationErrors: seq<ConfigError>

    constructor (loaded: map<string, Value>)
      ensures raw == loaded && validationErrors == []
    {
      raw := loaded;
      validationErrors := [];
    }

    /** Dot-path lookup. */
    method Get(key: string, default: Value) returns (v: Value)
      ensures v == Lookup(VDict(raw), Split(key, '.'), default)
    {
      var keys := Split(key, '.');
      var value := VDict(raw);
      var i := 0;
      while i < |keys|
        invariant 0 <= i <= |keys|
        invariant Lookup(value, keys[i..], default) == Lookup(VDict(raw), keys, default)
      {
        assert keys[i..][1..] == keys[i + 1..];
        if value.VDict? {
          value := if keys[i] in value.d then value.d[keys[i]] else VNull;
        } else {
          return default;
        }
        if value.VNull? {
          return default;
        }
        i := i + 1;
      }
      return value;
    }

    /**
     * Record the missing sections, then (only when there are none) the
     * consistency errors; the outcome is the validator's verdict.
     */
    method ValidateConfigs() returns (outcome: Validation)
      modifies this`validationErrors
      ensures outcome == Validate(raw)
      ensures outcome.Rejected? ==> validationErrors == outcome.errors
      ensures outcome.Accepted? ==> validationErrors == []
    {
      validationErrors := [];
      var i := 0;
      while i < |RequiredSections|
        invariant 0 <= i <= |RequiredSections|
        invariant validationErrors == MissingSections(raw, RequiredSections[..i])
      {
        assert RequiredSections[..i + 1][..i] == RequiredSections[..i];
        if RequiredSections[i] !in raw {
          validationErrors := validationErrors + [MissingSection(RequiredSections[i])];
        }
        i := i + 1;
      }
      assert RequiredSections[..i] == RequiredSections;
      if validationErrors != [] {
        return Rejected(validationErrors);
      }
      NoMissingSections(raw);
      var errs := ConsistencyErrors(raw);
      if errs.None? {
        return TypeFailure;
      }
      validationErrors := errs.value;
      outcome := if errs.value == [] then Accepted else Rejected(errs.value);
    }

    /** Write every applicable override into the raw configuration, in table order. */
    method ApplyEnvironmentOverrides(env: map<string, string>)
      modifies this`raw
      ensures raw == ApplyOverrides(old(raw), env, EnvMappings)
    {
      var i := 0;
      while i < |EnvMappings|
        invariant 0 <= i <= |EnvMappings|
        invariant ApplyOverrides(raw, env, EnvMappings[i..]) == ApplyOverrides(old(raw), env, EnvMappings)
      {
        var m := EnvMappings[i];
        assert EnvMappings[i..][1..] == EnvMappings[i + 1..];
        if m.variable in env {
          var parsed := ParseEnvValue(env[m.variable]);
          if parsed.Some? && m.section in raw && raw[m.section].VDict? {
            raw := raw[m.section := VDict(raw[m.section].d[m.key := parsed.value])];
          }
        }
        i := i + 1;
      }
    }
  }
}
