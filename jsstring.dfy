/** The JavaScript string operations the core uses: `trim`, `toLowerCase` and
    the decimal rendering of a status code in a template literal. A JavaScript
    string is modelled as a sequence of characters, and its `length` as the
    sequence length. */
module JsString {

  /** The characters `String.prototype.trim` removes: every WhiteSpace and
      LineTerminator code point of ECMAScript. */
  predicate IsJsWhitespace(c: char)
  {
    || c == '\t' || c == '\n' || c == '\U{000B}' || c == '\U{000C}' || c == '\r'
    || c == ' ' || c == '\U{00A0}' || c == '\U{1680}'
    || ('\U{2000}' <= c <= '\U{200A}')
    || c == '\U{2028}' || c == '\U{2029}' || c == '\U{202F}' || c == '\U{205F}'
    || c == '\U{3000}' || c == '\U{FEFF}'
  }

  /** Drops the leading whitespace: the result is the suffix of `s` that
      starts at its first non-whitespace character. */
  function TrimStart(s: string): (r: string)
    ensures |r| <= |s| && r == s[|s| - |r|..]
    ensures r != [] ==> !IsJsWhitespace(r[0])
    ensures forall i :: 0 <= i < |s| - |r| ==> IsJsWhitespace(s[i])
  {
    if |s| > 0 && IsJsWhitespace(s[0]) then TrimStart(s[1..]) else s
  }

  /** Drops the trailing whitespace: the result is the prefix of `s` that
      ends at its last non-whitespace character. */
  function TrimEnd(s: string): (r: string)
    ensures |r| <= |s| && r == s[..|r|]
    ensures r != [] ==> !IsJsWhitespace(r[|r| - 1])
    ensures forall i :: |r| <= i < |s| ==> IsJsWhitespace(s[i])
  {
    if |s| > 0 && IsJsWhitespace(s[|s| - 1]) then TrimEnd(s[..|s| - 1]) else s
  }

  /** `s.trim()`. */
  function Trim(s: string): (r: string)
    ensures |r| <= |s|
    ensures r != [] ==> !IsJsWhitespace(r[0]) && !IsJsWhitespace(r[|r| - 1])
    ensures r == [] <==> forall i :: 0 <= i < |s| ==> IsJsWhitespace(s[i])
  {
    var t := TrimStart(s);
    var r := TrimEnd(t);
    assert t != [] ==> r != [] by {
      if t != [] {
        assert !IsJsWhitespace(t[0]);
      }
    }
    r
  }

  /** A string that neither starts nor ends with whitespace is its own trim. */
  lemma TrimOfTrimmed(s: string)
    requires s != [] ==> !IsJsWhitespace(s[0]) && !IsJsWhitespace(s[|s| - 1])
    ensures Trim(s) == s
  {
  }

  /** Leading whitespace does not reach past a non-whitespace character, so
      text appended after one is kept as it is. */
  lemma {:induction false} TrimStartAppend(u: string, t: string)
    requires u != [] && !IsJsWhitespace(u[|u| - 1])
    ensures TrimStart(u + t) == TrimStart(u) + t
  {
    if IsJsWhitespace(u[0]) {
      assert (u + t)[1..] == u[1..] + t;
      TrimStartAppend(u[1..], t);
    }
  }

  /** Appending text that ends in a non-whitespace character to a string
      that ends in one trims to the trimmed string followed by that text. */
  lemma TrimAppend(u: string, t: string)
    requires u != [] && !IsJsWhitespace(u[|u| - 1])
    requires t != [] && !IsJsWhitespace(t[|t| - 1])
    ensures Trim(u + t) == Trim(u) + t
  {
    TrimStartAppend(u, t);
    var w := TrimStart(u) + t;
    assert w[|w| - 1] == t[|t| - 1];
    assert TrimEnd(w) == w;
    var v := TrimStart(u);
    assert v != [] && v[|v| - 1] == u[|u| - 1];
    assert TrimEnd(v) == v;
  }

  /** Leading whitespace in front of a string that starts with a
      non-whitespace character is exactly what `TrimStart` drops. */
  lemma {:induction false} TrimStartPadded(p: string, t: string)
    requires forall i :: 0 <= i < |p| ==> IsJsWhitespace(p[i])
    requires t != [] && !IsJsWhitespace(t[0])
    ensures TrimStart(p + t) == t
  {
    if p == [] {
      assert p + t == t;
    } else {
      assert (p + t)[1..] == p[1..] + t;
      TrimStartPadded(p[1..], t);
    }
  }

  /** Trailing whitespace after a string that ends with a non-whitespace
      character is exactly what `TrimEnd` drops. */
  lemma {:induction false} TrimEndPadded(t: string, q: string)
    requires t != [] && !IsJsWhitespace(t[|t| - 1])
    requires forall i :: 0 <= i < |q| ==> IsJsWhitespace(q[i])
    ensures TrimEnd(t + q) == t
  {
    if q == [] {
      assert t + q == t;
    } else {
      var w := t + q;
      assert w[..|w| - 1] == t + q[..|q| - 1];
      TrimEndPadded(t, q[..|q| - 1]);
    }
  }

  /** `trim` removes whitespace padding and nothing else. */
  lemma TrimPadded(p: string, m: string, q: string)
    requires forall i :: 0 <= i < |p| ==> IsJsWhitespace(p[i])
    requires forall i :: 0 <= i < |q| ==> IsJsWhitespace(q[i])
    requires m != [] && !IsJsWhitespace(m[0]) && !IsJsWhitespace(m[|m| - 1])
    ensures Trim(p + m + q) == m
  {
    assert p + m + q == p + (m + q);
    assert (m + q)[0] == m[0];
    TrimStartPadded(p, m + q);
    TrimEndPadded(m, q);
  }

  /** The ASCII part of `toLowerCase`. */
  function LowerChar(c: char): char
  {
    if 'A' <= c <= 'Z' then (c as int + 32) as char else c
  }

  /** `s.toLowerCase()`, character by character. */
  function ToLower(s: string): (r: string)
    ensures |r| == |s|
    ensures forall i :: 0 <= i < |s| ==> r[i] == LowerChar(s[i])
  {
    if s == [] then [] else [LowerChar(s[0])] + ToLower(s[1..])
  }

  function Digit(d: nat): char
    requires d < 10
  {
    "0123456789"[d]
  }

  /** `${n}` for a non-negative integer: its decimal digits, most significant
      first, without leading zeros. */
  function Decimal(n: nat): (r: string)
    ensures r != []
    ensures forall i :: 0 <= i < |r| ==> '0' <= r[i] <= '9'
    ensures r[0] == '0' ==> n == 0
  {
    if n < 10 then [Digit(n)] else Decimal(n / 10) + [Digit(n % 10)]
  }

  /** The number a string of decimal digits denotes, most significant
      digit first. */
  function DigitsValue(r: string): nat
    requires forall i :: 0 <= i < |r| ==> '0' <= r[i] <= '9'
  {
    if r == [] then 0 else 10 * DigitsValue(r[..|r| - 1]) + (r[|r| - 1] - '0') as nat
  }

  /** The digits `Decimal` writes denote `n`. */
  lemma {:induction false} DecimalValue(n: nat)
    ensures DigitsValue(Decimal(n)) == n
  {
    if n >= 10 {
      DecimalValue(n / 10);
      var r := Decimal(n);
      assert r[..|r| - 1] == Decimal(n / 10);
    }
  }

  /** `toLowerCase` distributes over concatenation. */
  lemma ToLowerAppend(a: string, b: string)
    ensures ToLower(a + b) == ToLower(a) + ToLower(b)
  {
    var l := ToLower(a + b);
    var r := ToLower(a) + ToLower(b);
    assert forall i :: 0 <= i < |l| ==> l[i] == r[i] by {
      forall i | 0 <= i < |l| ensures l[i] == r[i] {
        if i < |a| {
          assert (a + b)[i] == a[i];
        } else {
          assert (a + b)[i] == b[i - |a|];
        }
      }
    }
  }

  /** Lower-casing leaves whitespace as it is. */
  lemma ToLowerWhitespace(s: string)
    requires forall i :: 0 <= i < |s| ==> IsJsWhitespace(s[i])
    ensures ToLower(s) == s
  {
  }

  /** `${i}` for any integer. */
  function IntString(i: int): string
  {
    if i >= 0 then Decimal(i) else "-" + Decimal(-i)
  }
}
