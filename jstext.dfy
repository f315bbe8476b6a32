/**
 * The JavaScript string operations the core relies on, over strings of Unicode
 * scalar values: `trim`, `toUpperCase`, `startsWith`, `includes`, and the
 * conversion of an integral Number to its decimal string.
 */
module JsText {

  /** The WhiteSpace and LineTerminator code points of ECMAScript: what `trim` removes and `\s` matches. */
  predicate IsTrimmable(c: char) {
    c == '\t' || c == '\n' || c == '\U{000B}' || c == '\U{000C}' || c == '\r' || c == ' '
    || c == '\U{00A0}' || c == '\U{1680}' || ('\U{2000}' <= c <= '\U{200A}')
    || c == '\U{2028}' || c == '\U{2029}' || c == '\U{202F}' || c == '\U{205F}'
    || c == '\U{3000}' || c == '\U{FEFF}'
  }

  /** `s` with its leading trimmable characters removed. */
  function TrimStart(s: string): (r: string)
    ensures |r| <= |s| && r == s[|s| - |r|..]
    ensures forall k :: 0 <= k < |s| - |r| ==> IsTrimmable(s[k])
    ensures r == [] || !IsTrimmable(r[0])
  {
    if s != [] && IsTrimmable(s[0]) then TrimStart(s[1..]) else s
  }

  /** `s` with its trailing trimmable characters removed. */
  function TrimEnd(s: string): (r: string)
    ensures |r| <= |s| && r == s[..|r|]
    ensures forall k :: |r| <= k < |s| ==> IsTrimmable(s[k])
    ensures r == [] || !IsTrimmable(r[|r| - 1])
  {
    if s != [] && IsTrimmable(s[|s| - 1]) then TrimEnd(s[..|s| - 1]) else s
  }

  /** `String.prototype.trim`. */
  function Trim(s: string): string {
    TrimEnd(TrimStart(s))
  }

  /**
   * The upper-case form of one character under `String.prototype.toUpperCase`:
   * ASCII letters, and every other character whose upper-case form contains an
   * ASCII letter (the dotless i, the long s and the special casings that expand
   * to more than one character). Every other character is left as it is.
   */
  function UpperChar(c: char): string {
    if 'a' <= c <= 'z' then [(c as int - 32) as char]
    else if c == '\U{00DF}' then "SS"
    else if c == '\U{0131}' then "I"
    else if c == '\U{017F}' then "S"
    else if c == '\U{0149}' then "\U{02BC}N"
    else if c == '\U{01F0}' then "J\U{030C}"
    else if c == '\U{1E96}' then "H\U{0331}"
    else if c == '\U{1E97}' then "T\U{0308}"
    else if c == '\U{1E98}' then "W\U{030A}"
    else if c == '\U{1E99}' then "Y\U{030A}"
    else if c == '\U{1E9A}' then "A\U{02BE}"
    else if c == '\U{FB00}' then "FF"
    else if c == '\U{FB01}' then "FI"
    else if c == '\U{FB02}' then "FL"
    else if c == '\U{FB03}' then "FFI"
    else if c == '\U{FB04}' then "FFL"
    else if c == '\U{FB05}' || c == '\U{FB06}' then "ST"
    else [c]
  }

  /** `String.prototype.toUpperCase`, character by character. */
  function ToUpper(s: string): string {
    if s == [] then [] else UpperChar(s[0]) + ToUpper(s[1..])
  }

  /** Upper-casing distributes over concatenation. */
  lemma {:induction false} ToUpperAppend(a: string, b: string)
    ensures ToUpper(a + b) == ToUpper(a) + ToUpper(b)
  {
    if a != [] {
      assert (a + b)[0] == a[0];
      assert (a + b)[1..] == a[1..] + b;
      ToUpperAppend(a[1..], b);
      calc {
        ToUpper(a + b);
        UpperChar(a[0]) + ToUpper(a[1..] + b);
        UpperChar(a[0]) + (ToUpper(a[1..]) + ToUpper(b));
        (UpperChar(a[0]) + ToUpper(a[1..])) + ToUpper(b);
      }
    } else {
      assert a + b == b;
    }
  }

  predicate IsAsciiUpper(c: char) {
    'A' <= c <= 'Z'
  }

  /** `w` is `kw` written in any mix of cases: every character of `w` upper-cases to the one of `kw` at its place. */
  predicate CaseVariant(w: string, kw: string) {
    |w| == |kw| && forall k :: 0 <= k < |w| ==> UpperChar(w[k]) == [kw[k]]
  }

  /** A case variant of a word upper-cases to that word. */
  lemma {:induction false} CaseVariantUpper(w: string, kw: string)
    requires CaseVariant(w, kw)
    ensures ToUpper(w) == kw
  {
    if w != [] {
      assert CaseVariant(w[1..], kw[1..]) by {
        forall k | 0 <= k < |w[1..]| ensures UpperChar(w[1..][k]) == [kw[1..][k]] {
          assert w[1..][k] == w[k + 1];
        }
      }
      CaseVariantUpper(w[1..], kw[1..]);
      assert kw == [kw[0]] + kw[1..];
    }
  }

  /** A character that upper-cases to an ASCII capital letter is not whitespace. */
  lemma LetterNotTrimmable(c: char, u: char)
    requires IsAsciiUpper(u) && UpperChar(c) == [u]
    ensures !IsTrimmable(c)
  {
  }

  /** Trimming the front skips exactly a whitespace run that stops at a non-whitespace character. */
  lemma {:induction false} TrimStartSkips(ws: string, t: string)
    requires forall k :: 0 <= k < |ws| ==> IsTrimmable(ws[k])
    requires t != [] && !IsTrimmable(t[0])
    ensures TrimStart(ws + t) == t
  {
    if ws == [] {
      assert ws + t == t;
    } else {
      assert (ws + t)[0] == ws[0];
      assert (ws + t)[1..] == ws[1..] + t;
      TrimStartSkips(ws[1..], t);
    }
  }

  /** Trimming the back keeps a prefix that ends in a non-whitespace character. */
  lemma TrimEndKeeps(w: string, rest: string)
    requires w != [] && !IsTrimmable(w[|w| - 1])
    ensures StartsWith(TrimEnd(w + rest), w)
  {
    var r := TrimEnd(w + rest);
    assert (w + rest)[|w| - 1] == w[|w| - 1];
    assert r[..|w|] == (w + rest)[..|w|];
    assert (w + rest)[..|w|] == w;
  }

  /** Upper-casing a string that starts with a case variant of a word gives one that starts with the word. */
  lemma UpperStartsWith(s: string, w: string, kw: string)
    requires StartsWith(s, w) && CaseVariant(w, kw)
    ensures StartsWith(ToUpper(s), kw)
  {
    assert s == w + s[|w|..];
    ToUpperAppend(w, s[|w|..]);
    CaseVariantUpper(w, kw);
    assert ToUpper(s)[..|kw|] == kw;
  }

  predicate IsAscii(c: char) {
    c < '\U{0080}'
  }

  /** On ASCII text, upper-casing keeps the length and works position by position. */
  lemma {:induction false} ToUpperAscii(s: string)
    requires forall k :: 0 <= k < |s| ==> IsAscii(s[k])
    ensures |ToUpper(s)| == |s|
    ensures forall k :: 0 <= k < |s| ==> UpperChar(s[k]) == [ToUpper(s)[k]]
  {
    if s != [] {
      ToUpperAscii(s[1..]);
      assert UpperChar(s[0]) == [ToUpper(s)[0]];
      forall k | 1 <= k < |s| ensures UpperChar(s[k]) == [ToUpper(s)[k]] {
        assert s[1..][k - 1] == s[k];
      }
    }
  }

  /** `s.startsWith(p)`. */
  predicate StartsWith(s: string, p: string) {
    |p| <= |s| && s[..|p|] == p
  }

  /** `s.includes(p)`: `p` occurs somewhere in `s`. */
  predicate Includes(s: string, p: string)
    decreases |s|
  {
    StartsWith(s, p) || (s != [] && Includes(s[1..], p))
  }

  /** A string includes every string it has in the middle. */
  lemma {:induction false} IncludesInfix(a: string, p: string, b: string)
    ensures Includes(a + p + b, p)
  {
    if a == [] {
      assert (a + p + b)[..|p|] == p;
    } else {
      assert (a + p + b)[1..] == a[1..] + p + b;
      IncludesInfix(a[1..], p, b);
    }
  }

  /** The decimal digit for `d`. */
  function Digit(d: nat): char
    requires d < 10
  {
    ('0' as int + d) as char
  }

  predicate IsDigit(c: char) {
    '0' <= c <= '9'
  }

  /** The value of a digit string, most significant digit first. */
  function DecimalValue(s: string): nat
    requires forall k :: 0 <= k < |s| ==> IsDigit(s[k])
  {
    if s == [] then 0
    else
      var last := s[|s| - 1];
      assert IsDigit(last);
      DecimalValue(s[..|s| - 1]) * 10 + (last as int - '0' as int)
  }

  /** `String(n)` for a non-negative integral Number: its decimal digits, without leading zeros. */
  function NatToString(n: nat): (r: string)
    ensures |r| >= 1
    ensures forall k :: 0 <= k < |r| ==> IsDigit(r[k])
    ensures r[0] == '0' ==> r == "0"
  {
    if n < 10 then [Digit(n)] else NatToString(n / 10) + [Digit(n % 10)]
  }

  /** Reading the digits back gives the number. */
  lemma {:induction false} NatToStringRoundTrip(n: nat)
    ensures DecimalValue(NatToString(n)) == n
  {
    if n >= 10 {
      NatToStringRoundTrip(n / 10);
      var s := NatToString(n);
      assert s[..|s| - 1] == NatToString(n / 10);
    }
  }

  /**
   * The decimal text of an integer. It is JavaScript's `String(n)` for integers of
   * magnitude at most 2^53; above that a Number cannot hold every integer and
   * JavaScript prints shortest round-trip digits, or exponent form from 10^21 on.
   */
  function IntToString(n: int): (r: string)
    ensures |r| >= 1 && (r[0] == '-' <==> n < 0)
    ensures var digits := if n < 0 then r[1..] else r;
      (forall k :: 0 <= k < |digits| ==> IsDigit(digits[k]))
      && DecimalValue(digits) == (if n < 0 then -n else n)
  {
    NatToStringRoundTrip(if n < 0 then -n else n);
    if n < 0 then "-" + NatToString(-n) else NatToString(n)
  }
}
