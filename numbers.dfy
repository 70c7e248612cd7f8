/*
 * The text-to-number conversions the scripts rely on: Python's `float()`
 * restricted to plain decimal notation, the character substitutions of
 * `str.replace` and `str.strip`, and the scan `re.findall(r'\d+\.?\d*', s)`.
 */
module Numbers {
  import opened Schema

  predicate IsDigit(c: char)
  {
    '0' <= c <= '9'
  }

  predicate AllDigits(s: string)
  {
    forall i :: 0 <= i < |s| ==> IsDigit(s[i])
  }

  function DigitValue(c: char): nat
    requires IsDigit(c)
  {
    c as int - '0' as int
  }

  /** The natural number a string of decimal digits denotes (0 for the empty string). */
  function DigitsValue(s: string): nat
    requires AllDigits(s)
  {
    if s == [] then 0 else DigitsValue(s[..|s| - 1]) * 10 + DigitValue(s[|s| - 1])
  }

  function Pow10(n: nat): (r: nat)
    ensures r >= 1
  {
    if n == 0 then 1 else 10 * Pow10(n - 1)
  }

  /** The value of `ip.fp` in decimal notation. */
  function DecimalValue(ip: string, fp: string): (r: real)
    requires AllDigits(ip) && AllDigits(fp)
    ensures r >= 0.0
  {
    DigitsValue(ip) as real + DigitsValue(fp) as real / Pow10(|fp|) as real
  }

  /** The whitespace `str.strip()` removes (ASCII part). */
  predicate IsSpace(c: char)
  {
    c == ' ' || c == '\t' || c == '\n' || c == '\r' || c == '\U{000B}' || c == '\U{000C}'
  }

  /** Number of blanks that start `s`. */
  function Leading(s: string): (k: nat)
    ensures k <= |s| && (k < |s| ==> !IsSpace(s[k]))
    ensures forall j :: 0 <= j < k ==> IsSpace(s[j])
  {
    if s != [] && IsSpace(s[0]) then 1 + Leading(s[1..]) else 0
  }

  /** Number of blanks that end `s`. */
  function Trailing(s: string): (k: nat)
    ensures k <= |s| && (k < |s| ==> !IsSpace(s[|s| - 1 - k]))
    ensures forall j :: |s| - k <= j < |s| ==> IsSpace(s[j])
  {
    if s != [] && IsSpace(s[|s| - 1]) then 1 + Trailing(s[..|s| - 1]) else 0
  }

  /** `s.strip()`: the text between the leading and the trailing blanks. */
  function Strip(s: string): (r: string)
    ensures |r| <= |s|
  {
    var a := Leading(s);
    if a == |s| then [] else s[a..|s| - Trailing(s)]
  }

  /** Stripping only removes characters. */
  lemma StripSubset(s: string)
    ensures forall c :: c in Strip(s) ==> c in s
  {
    var a := Leading(s);
    if a < |s| {
      forall c | c in Strip(s)
        ensures c in s
      {
        var i :| 0 <= i < |Strip(s)| && Strip(s)[i] == c;
        assert s[a + i] == c;
      }
    }
  }

  /** Text that neither starts nor ends with a blank is left as it is. */
  lemma StripUnblanked(s: string)
    requires s != [] ==> !IsSpace(s[0]) && !IsSpace(s[|s| - 1])
    ensures Strip(s) == s
  {
    if s != [] {
      assert Leading(s) == 0;
      assert Trailing(s) == 0;
    }
  }

  /** A character that is not blank survives stripping. */
  lemma StripKeeps(s: string, c: char)
    requires c in s && !IsSpace(c)
    ensures c in Strip(s)
  {
    var i :| 0 <= i < |s| && s[i] == c;
    var a := Leading(s);
    assert a <= i < |s| - Trailing(s);
    assert Strip(s)[i - a] == c;
  }

  /** `s.replace(a, b)` for single characters. */
  function Replace(s: string, a: char, b: char): (r: string)
    ensures |r| == |s|
    ensures forall i :: 0 <= i < |s| ==> r[i] == if s[i] == a then b else s[i]
  {
    seq(|s|, i requires 0 <= i < |s| => if s[i] == a then b else s[i])
  }

  lemma ReplaceConcat(s: string, t: string, a: char, b: char)
    ensures Replace(s + t, a, b) == Replace(s, a, b) + Replace(t, a, b)
  {
  }

  lemma ReplaceAbsent(s: string, a: char, b: char)
    requires a !in s
    ensures Replace(s, a, b) == s
  {
  }

  lemma ReplaceMembers(s: string, a: char, b: char)
    requires a != b
    ensures forall c :: c in Replace(s, a, b) && c != b ==> c in s && c != a
    ensures forall c :: c in s && c != a ==> c in Replace(s, a, b)
  {
    forall c | c in s && c != a
      ensures c in Replace(s, a, b)
    {
      var i :| 0 <= i < |s| && s[i] == c;
      assert Replace(s, a, b)[i] == c;
    }
  }

  /** `s.replace(c, '')` */
  function Delete(s: string, c: char): string
  {
    if s == [] then []
    else (if s[0] == c then [] else [s[0]]) + Delete(s[1..], c)
  }

  lemma {:induction false} DeleteConcat(s: string, t: string, c: char)
    ensures Delete(s + t, c) == Delete(s, c) + Delete(t, c)
  {
    if s == [] {
      assert s + t == t;
    } else {
      assert (s + t)[0] == s[0] && (s + t)[1..] == s[1..] + t;
      DeleteConcat(s[1..], t, c);
    }
  }

  lemma {:induction false} DeleteMembers(s: string, c: char)
    ensures forall d :: d in Delete(s, c) <==> d in s && d != c
  {
    if s != [] {
      DeleteMembers(s[1..], c);
      assert s == [s[0]] + s[1..];
    }
  }

  lemma {:induction false} DeleteAbsent(s: string, c: char)
    requires c !in s
    ensures Delete(s, c) == s
  {
    if s != [] {
      assert s[1..] == s[1..];
      DeleteAbsent(s[1..], c);
      assert s == [s[0]] + s[1..];
    }
  }

  /** Index of the first occurrence of `c` in `s`. */
  function Find(s: string, c: char): (k: nat)
    requires c in s
    ensures k < |s| && s[k] == c && c !in s[..k]
  {
    if s[0] == c then 0 else 1 + Find(s[1..], c)
  }

  /** Unsigned decimal notation: `ddd`, `ddd.`, `ddd.ddd` or `.ddd`. */
  function ParseUnsigned(t: string): Option<real>
  {
    if '.' !in t then
      if t != [] && AllDigits(t) then Some(DigitsValue(t) as real) else None
    else
      var k := Find(t, '.');
      var ip, fp := t[..k], t[k + 1..];
      if AllDigits(ip) && AllDigits(fp) && (ip != [] || fp != []) then Some(DecimalValue(ip, fp))
      else None
  }

  lemma ParseUnsignedNonNegative(t: string)
    requires ParseUnsigned(t).Some?
    ensures ParseUnsigned(t).value >= 0.0
  {
  }

  /**
   * Python's `float(s)` on plain decimal notation: surrounding whitespace,
   * an optional sign, then unsigned decimal notation. Anything else is
   * rejected (None), as `float` raises on it.
   */
  function ParseFloat(s: string): Option<real>
  {
    var t := Strip(s);
    if t == [] then None
    else if t[0] == '-' then
      match ParseUnsigned(t[1..])
      case Some(x) => Some(-x)
      case None => None
    else if t[0] == '+' then ParseUnsigned(t[1..])
    else ParseUnsigned(t)
  }

  /** Without a minus sign `float` never yields a negative number. */
  lemma ParseFloatNonNegative(s: string)
    requires '-' !in s
    ensures ParseFloat(s).Some? ==> ParseFloat(s).value >= 0.0
  {
    StripSubset(s);
    var t := Strip(s);
    if t != [] {
      assert t[0] in t;
      if t[0] == '+' && ParseUnsigned(t[1..]).Some? {
        ParseUnsignedNonNegative(t[1..]);
      } else if ParseUnsigned(t).Some? {
        ParseUnsignedNonNegative(t);
      }
    }
  }

  lemma ParseUnsignedChars(t: string)
    requires ParseUnsigned(t).Some?
    ensures forall c :: c in t ==> IsDigit(c) || c == '.'
  {
    if '.' in t {
      var k := Find(t, '.');
      assert t == t[..k] + ['.'] + t[k + 1..];
    }
  }

  /** `float` accepts only digits, one point, a leading sign and surrounding blanks. */
  lemma ParseFloatChars(s: string, c: char)
    requires ParseFloat(s).Some? && c in s
    ensures IsDigit(c) || c == '.' || c == '-' || c == '+' || IsSpace(c)
  {
    var t := Strip(s);
    if IsSpace(c) {
    } else {
      StripKeeps(s, c);
      if t[0] == '-' || t[0] == '+' {
        assert t == [t[0]] + t[1..];
        ParseUnsignedChars(t[1..]);
      } else {
        ParseUnsignedChars(t);
      }
    }
  }

  /** A string of digits parses as the number it denotes. */
  lemma ParseDigits(d: string)
    requires d != [] && AllDigits(d)
    ensures ParseFloat(d) == Some(DigitsValue(d) as real)
  {
    DigitsUnblanked(d);
    DigitsLack(d, '.');
    assert d[0] != '-' && d[0] != '+' by {
      assert IsDigit(d[0]);
    }
  }

  lemma NoPointInDigits(d: string)
    requires AllDigits(d)
    ensures '.' !in d && '-' !in d && '/' !in d && ',' !in d && '%' !in d
  {
    forall i | 0 <= i < |d|
      ensures d[i] != '.' && d[i] != '-' && d[i] != '/' && d[i] != ',' && d[i] != '%'
    {
      assert IsDigit(d[i]);
    }
  }

  /** Digit strings neither start nor end with a blank. */
  lemma DigitsUnblanked(d: string)
    requires d != [] && AllDigits(d)
    ensures Strip(d) == d
  {
    assert IsDigit(d[0]) && IsDigit(d[|d| - 1]);
    StripUnblanked(d);
  }

  /** Digits joined by a non-blank separator: stripping leaves them as they are. */
  lemma JoinUnblanked(a: string, sep: char, b: string)
    requires a != [] && b != [] && AllDigits(a) && AllDigits(b)
    ensures Strip(a + [sep] + b) == a + [sep] + b
  {
    var t := a + [sep] + b;
    assert IsDigit(t[0]) && IsDigit(t[|t| - 1]) by {
      assert t[0] == a[0] && t[|t| - 1] == b[|b| - 1];
    }
    StripUnblanked(t);
  }

  /** Digits joined by `sep` contain no other non-digit. */
  lemma JoinLacks(a: string, sep: char, b: string, c: char)
    requires AllDigits(a) && AllDigits(b) && !IsDigit(c) && c != sep
    ensures c !in a + [sep] + b
  {
    DigitsLack(a, c);
    DigitsLack(b, c);
  }

  lemma DigitsLack(d: string, c: char)
    requires AllDigits(d) && !IsDigit(c)
    ensures c !in d
  {
    forall i | 0 <= i < |d|
      ensures d[i] != c
    {
      assert IsDigit(d[i]);
    }
  }

  /** `ip.fp` parses as its decimal value. */
  lemma ParseDecimal(ip: string, fp: string)
    requires ip != [] && AllDigits(ip) && AllDigits(fp)
    ensures ParseFloat(ip + "." + fp) == Some(DecimalValue(ip, fp))
  {
    var t := ip + ['.'] + fp;
    assert ip + "." + fp == t;
    if fp == [] {
      assert IsDigit(ip[0]) && t[0] == ip[0] && t[|t| - 1] == '.';
      StripUnblanked(t);
    } else {
      JoinUnblanked(ip, '.', fp);
    }
    assert t[0] != '-' && t[0] != '+' by {
      assert IsDigit(ip[0]) && t[0] == ip[0];
    }
    PointAt(ip, fp);
  }

  lemma PointAt(ip: string, fp: string)
    requires AllDigits(ip) && AllDigits(fp)
    ensures ParseUnsigned(ip + ['.'] + fp) == if ip != [] || fp != [] then Some(DecimalValue(ip, fp)) else None
  {
    var t := ip + ['.'] + fp;
    DigitsLack(ip, '.');
    assert t[|ip|] == '.' && t[..|ip|] == ip;
    FindAt(t, '.', |ip|);
    assert t[|ip| + 1..] == fp;
  }

  lemma {:induction false} FindAt(s: string, c: char, k: nat)
    requires k < |s| && s[k] == c && c !in s[..k]
    ensures Find(s, c) == k
  {
    if k > 0 {
      assert s[..k][0] == s[0];
      assert s[1..][..k - 1] == s[..k][1..];
      FindAt(s[1..], c, k - 1);
    }
  }

  /** Length of the run of digits that starts `s`. */
  function DigitRun(s: string): (k: nat)
    ensures k <= |s| && AllDigits(s[..k]) && (k == |s| || !IsDigit(s[k]))
  {
    if s != [] && IsDigit(s[0]) then
      var k := 1 + DigitRun(s[1..]);
      assert s[..k] == [s[0]] + s[1..][..k - 1];
      k
    else 0
  }

  /**
   * The numbers `float(p)` for `p` in `re.findall(r'\d+\.?\d*', s)`: at a
   * digit the pattern takes the longest run of digits, an optional point and
   * the digits after it; any other character is skipped.
   */
  function NumberTokens(s: string): (r: seq<real>)
    decreases |s|
  {
    if s == [] then []
    else if !IsDigit(s[0]) then NumberTokens(s[1..])
    else
      var k := DigitRun(s);
      if k < |s| && s[k] == '.' then
        var j := DigitRun(s[k + 1..]);
        assert s[k + 1..][..j] == s[k + 1..k + 1 + j];
        [DecimalValue(s[..k], s[k + 1..k + 1 + j])] + NumberTokens(s[k + 1 + j..])
      else
        [DecimalValue(s[..k], [])] + NumberTokens(s[k..])
  }

  /** A maximal run of digits not followed by a point is one token. */
  lemma TokensOfDigits(d: string, rest: string)
    requires d != [] && AllDigits(d) && (rest == [] || (!IsDigit(rest[0]) && rest[0] != '.'))
    ensures NumberTokens(d + rest) == [DigitsValue(d) as real] + NumberTokens(rest)
  {
    var s := d + rest;
    DigitRunOf(d, rest);
    assert s[0] == d[0];
    assert s[..|d|] == d && s[|d|..] == rest;
    assert DecimalValue(d, []) == DigitsValue(d) as real;
  }

  lemma {:induction false} DigitRunOf(d: string, rest: string)
    requires AllDigits(d) && (rest == [] || !IsDigit(rest[0]))
    ensures DigitRun(d + rest) == |d|
    decreases |d|
  {
    if d != [] {
      assert (d + rest)[0] == d[0] && (d + rest)[1..] == d[1..] + rest;
      DigitRunOf(d[1..], rest);
    } else {
      assert d + rest == rest;
    }
  }

  lemma {:induction false} NumberTokensNonNegative(s: string)
    ensures forall i :: 0 <= i < |NumberTokens(s)| ==> NumberTokens(s)[i] >= 0.0
    decreases |s|
  {
    if s != [] {
      if !IsDigit(s[0]) {
        NumberTokensNonNegative(s[1..]);
      } else {
        var k := DigitRun(s);
        if k < |s| && s[k] == '.' {
          var j := DigitRun(s[k + 1..]);
          NumberTokensNonNegative(s[k + 1 + j..]);
        } else {
          NumberTokensNonNegative(s[k..]);
        }
      }
    }
  }

  /** Without a single digit there is nothing for the pattern to match. */
  lemma {:induction false} NoDigitsNoTokens(s: string)
    requires forall c :: c in s ==> !IsDigit(c)
    ensures NumberTokens(s) == []
    decreases |s|
  {
    if s != [] {
      assert s[0] in s;
      NoDigitsNoTokens(s[1..]);
    }
  }

  function Sum(xs: seq<real>): real
  {
    if xs == [] then 0.0 else xs[0] + Sum(xs[1..])
  }

  lemma {:induction false} SumNonNegative(xs: seq<real>)
    requires forall i :: 0 <= i < |xs| ==> xs[i] >= 0.0
    ensures Sum(xs) >= 0.0
  {
    if xs != [] {
      SumNonNegative(xs[1..]);
    }
  }

  /** `sum(xs) / len(xs)` */
  function Average(xs: seq<real>): real
    requires xs != []
  {
    Sum(xs) / |xs| as real
  }

  lemma AverageNonNegative(xs: seq<real>)
    requires xs != [] && forall i :: 0 <= i < |xs| ==> xs[i] >= 0.0
    ensures Average(xs) >= 0.0
  {
    SumNonNegative(xs);
    var s, n := Sum(xs), |xs| as real;
    assert s / n >= 0.0;
  }
}
