/**
 * The Python string operations the exporter relies on: `str.split(sep)`,
 * `str.strip()` and `str.strip(chars)`, ASCII `str.lower()`, and the
 * `{n:03d}` decimal formatting of slice numbers.
 */
module Text {

  /** `s.split(c)`: the pieces between occurrences of `c`; "" gives [""]. */
  function Split(s: string, c: char): (parts: seq<string>)
    ensures |parts| >= 1
    ensures forall p :: p in parts ==> c !in p
    decreases |s|
  {
    if |s| == 0 then [""]
    else
      var rest := Split(s[1..], c);
      if s[0] == c then [""] + rest
      else [[s[0]] + rest[0]] + rest[1..]
  }

  /** `c.join(parts)`. */
  function Join(parts: seq<string>, c: char): string
    requires |parts| >= 1
  {
    if |parts| == 1 then parts[0] else parts[0] + [c] + Join(parts[1..], c)
  }

  /** Splitting loses nothing: joining the pieces gives back the text. */
  lemma {:induction false} JoinSplit(s: string, c: char)
    ensures Join(Split(s, c), c) == s
  {
    if |s| > 0 {
      JoinSplit(s[1..], c);
      var rest := Split(s[1..], c);
      if s[0] != c {
        if |rest| == 1 {
        } else {
          assert ([s[0]] + rest[0]) + [c] + Join(rest[1..], c) == [s[0]] + (rest[0] + [c] + Join(rest[1..], c));
        }
      }
    }
  }

  /** The number of pieces is one more than the number of separators. */
  lemma {:induction false} SplitCount(s: string, c: char)
    ensures |Split(s, c)| == Occurrences(s, c) + 1
  {
    if |s| > 0 {
      SplitCount(s[1..], c);
    }
  }

  function Occurrences(s: string, c: char): nat {
    if |s| == 0 then 0 else (if s[0] == c then 1 else 0) + Occurrences(s[1..], c)
  }

  /** Removes the leading characters that belong to `cs`. */
  function StripLeft(s: string, cs: set<char>): (r: string)
    ensures |r| <= |s| && r == s[|s| - |r|..]
    ensures r == [] || r[0] !in cs
    ensures forall i :: 0 <= i < |s| - |r| ==> s[i] in cs
  {
    if |s| > 0 && s[0] in cs then StripLeft(s[1..], cs) else s
  }

  /** Removes the trailing characters that belong to `cs`. */
  function StripRight(s: string, cs: set<char>): (r: string)
    ensures |r| <= |s| && r == s[..|r|]
    ensures r == [] || r[|r| - 1] !in cs
    ensures forall i :: |r| <= i < |s| ==> s[i] in cs
  {
    if |s| > 0 && s[|s| - 1] in cs then StripRight(s[..|s| - 1], cs) else s
  }

  /** `s.strip(chars)`. */
  function Strip(s: string, cs: set<char>): string {
    StripRight(StripLeft(s, cs), cs)
  }

  /** The characters `str.strip()` removes: those for which `str.isspace()` holds. */
  const Whitespace: set<char> := {
    ' ', '\t', '\n', '\r', '\U{B}', '\U{C}', '\U{1C}', '\U{1D}', '\U{1E}', '\U{1F}', '\U{85}', '\U{A0}',
    '\U{1680}', '\U{2000}', '\U{2001}', '\U{2002}', '\U{2003}', '\U{2004}', '\U{2005}', '\U{2006}',
    '\U{2007}', '\U{2008}', '\U{2009}', '\U{200A}', '\U{2028}', '\U{2029}', '\U{202F}', '\U{205F}', '\U{3000}'}

  /** Strip keeps a middle part of the text and only drops characters of `cs`. */
  lemma StripIsInfix(s: string, cs: set<char>) returns (a: nat, b: nat)
    ensures a <= b <= |s| && Strip(s, cs) == s[a..b]
    ensures forall i :: 0 <= i < a || b <= i < |s| ==> s[i] in cs
    ensures a < b ==> s[a] !in cs && s[b - 1] !in cs
  {
    var l := StripLeft(s, cs);
    a := |s| - |l|;
    var r := StripRight(l, cs);
    b := a + |r|;
    assert r == l[..|r|];
    assert l == s[a..];
    forall i | b <= i < |s| ensures s[i] in cs {
      assert s[i] == l[i - a];
    }
    if a < b {
      assert r[0] == l[0];
    }
  }

  function LowerChar(c: char): char {
    if 'A' <= c <= 'Z' then (c as int + 32) as char else c
  }

  /**
   * `s.lower()` on ASCII letters. Python also lower-cases other Unicode
   * letters, but the only ones whose lower case holds an ASCII letter are
   * the Kelvin sign (U+212A, to "k") and U+0130 (to "i" and a combining
   * dot). Neither "k" nor "i" occurs in "approved", the one word lower-cased
   * text is compared with, so that comparison comes out as in Python.
   */
  function LowerAscii(s: string): (r: string)
    ensures |r| == |s|
    ensures forall i :: 0 <= i < |s| ==> r[i] == LowerChar(s[i])
  {
    if |s| == 0 then "" else [LowerChar(s[0])] + LowerAscii(s[1..])
  }

  function UpperChar(c: char): char {
    if 'a' <= c <= 'z' then (c as int - 32) as char else c
  }

  lemma LowerCharIff(c: char, l: char)
    requires 'a' <= l <= 'z'
    ensures LowerChar(c) == l <==> c == l || c == UpperChar(l)
  {
    if 'A' <= c <= 'Z' {
      assert (LowerChar(c) == l) == (c as int + 32 == l as int);
    }
  }

  /**
   * Lower-casing `s` gives the lower-case word `w` exactly when each
   * character of `s` is the letter of `w` in either case.
   */
  lemma LowerEqualsIff(s: string, w: string)
    requires forall i :: 0 <= i < |w| ==> 'a' <= w[i] <= 'z'
    ensures LowerAscii(s) == w <==>
            |s| == |w| && forall i :: 0 <= i < |s| ==> s[i] == w[i] || s[i] == UpperChar(w[i])
  {
    if |s| == |w| {
      forall i | 0 <= i < |s|
        ensures LowerAscii(s)[i] == w[i] <==> s[i] == w[i] || s[i] == UpperChar(w[i])
      {
        LowerCharIff(s[i], w[i]);
      }
    }
  }

  function DigitChar(d: nat): char
    requires d < 10
  {
    ('0' as int + d) as char
  }

  /** Decimal digits of `n`, without leading zeros ("0" for zero). */
  function Decimal(n: nat): (s: string)
    ensures |s| >= 1
    ensures forall i :: 0 <= i < |s| ==> '0' <= s[i] <= '9'
  {
    if n < 10 then [DigitChar(n)] else Decimal(n / 10) + [DigitChar(n % 10)]
  }

  /** `f"{n:03d}"`: decimal digits left-padded with zeros to at least three. */
  function ZeroPad3(n: nat): (s: string)
    ensures |s| >= 3
    ensures forall i :: 0 <= i < |s| ==> '0' <= s[i] <= '9'
  {
    var d := Decimal(n);
    if |d| >= 3 then d else seq(3 - |d|, _ => '0') + d
  }

  /** Value of a string of decimal digits. */
  function DigitsValue(s: string): nat
    requires forall i :: 0 <= i < |s| ==> '0' <= s[i] <= '9'
  {
    if |s| == 0 then 0 else DigitsValue(s[..|s| - 1]) * 10 + (s[|s| - 1] as int - '0' as int)
  }

  lemma {:induction false} DecimalValue(n: nat)
    ensures DigitsValue(Decimal(n)) == n
  {
    if n >= 10 {
      DecimalValue(n / 10);
      var d := Decimal(n);
      assert d[..|d| - 1] == Decimal(n / 10);
    }
  }

  lemma {:induction false} LeadingZerosValue(z: nat, s: string)
    requires forall i :: 0 <= i < |s| ==> '0' <= s[i] <= '9'
    ensures DigitsValue(seq(z, _ => '0') + s) == DigitsValue(s)
    decreases |s|
  {
    var zs: string := seq(z, _ => '0');
    if |s| == 0 {
      assert zs + s == zs;
      ZerosValue(z);
    } else {
      assert (zs + s)[..|zs + s| - 1] == zs + s[..|s| - 1];
      LeadingZerosValue(z, s[..|s| - 1]);
    }
  }

  lemma {:induction false} ZerosValue(z: nat)
    ensures DigitsValue(seq(z, _ => '0')) == 0
  {
    if z > 0 {
      assert seq(z, _ => '0')[..z - 1] == seq(z - 1, _ => '0');
      ZerosValue(z - 1);
    }
  }

  /** Distinct numbers are padded to distinct strings. */
  lemma ZeroPad3Injective(m: nat, n: nat)
    requires ZeroPad3(m) == ZeroPad3(n)
    ensures m == n
  {
    ZeroPad3Value(m);
    ZeroPad3Value(n);
  }

  /** The zero-padded number reads back as the number: padding never changes it. */
  lemma ZeroPad3Value(n: nat)
    ensures DigitsValue(ZeroPad3(n)) == n
  {
    DecimalValue(n);
    var d := Decimal(n);
    if |d| < 3 {
      LeadingZerosValue(3 - |d|, d);
    }
  }
}
