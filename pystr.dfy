/** The handful of Python `str` built-ins the backend relies on, stated over
    Dafny strings (sequences of Unicode scalar values, as Python's `str` is). */
module PyStr {

  // ---------------------------------------------------------------------------
  // Whitespace, strip and split

  /** The characters for which Python's `str.isspace()` holds; `str.strip()`
      with no argument removes exactly these. */
  predicate IsSpace(c: char) {
    c == ' ' || ('\t' <= c <= '\r') || ('\U{1C}' <= c <= '\U{1F}')
    || c == '\U{85}' || c == '\U{A0}' || c == '\U{1680}'
    || ('\U{2000}' <= c <= '\U{200A}') || c == '\U{2028}' || c == '\U{2029}'
    || c == '\U{202F}' || c == '\U{205F}' || c == '\U{3000}'
  }

  predicate AllSpace(s: string) {
    forall i :: 0 <= i < |s| ==> IsSpace(s[i])
  }

  /** `s.lstrip()`: the longest suffix of `s` that does not start with whitespace. */
  function LStrip(s: string): (r: string)
    ensures |r| <= |s| && r == s[|s| - |r|..]
    ensures AllSpace(s[..|s| - |r|])
    ensures r == [] || !IsSpace(r[0])
  {
    if |s| > 0 && IsSpace(s[0]) then LStrip(s[1..]) else s
  }

  /** `s.rstrip()`: the longest prefix of `s` that does not end with whitespace. */
  function RStrip(s: string): (r: string)
    ensures |r| <= |s| && r == s[..|r|]
    ensures AllSpace(s[|r|..])
    ensures r == [] || !IsSpace(r[|r| - 1])
  {
    if |s| > 0 && IsSpace(s[|s| - 1]) then
      var r := RStrip(s[..|s| - 1]);
      assert s[|r|..] == s[..|s| - 1][|r|..] + [s[|s| - 1]];
      r
    else s
  }

  /** `s.strip()`. */
  function Strip(s: string): (r: string)
    ensures r == [] || (!IsSpace(r[0]) && !IsSpace(r[|r| - 1]))
    ensures r == [] <==> AllSpace(s)
  {
    StripEnds(s);
    RStrip(LStrip(s))
  }

  lemma StripEnds(s: string)
    ensures var r := RStrip(LStrip(s));
      (r == [] <==> AllSpace(s)) && (r == [] || !IsSpace(r[0]))
  {
    var l := LStrip(s);
    var r := RStrip(l);
    var k := |s| - |l|;
    if r == [] {
      assert l[|r|..] == l;
      assert l == [];
      assert s == s[..k];
    } else {
      assert r[0] == l[0] == s[k];
    }
  }

  lemma {:induction false} LStripPadded(a: string, t: string)
    requires AllSpace(a) && (t == [] || !IsSpace(t[0]))
    ensures LStrip(a + t) == t
  {
    if a != [] {
      assert (a + t)[1..] == a[1..] + t;
      LStripPadded(a[1..], t);
    } else {
      assert a + t == t;
    }
  }

  lemma {:induction false} RStripPadded(t: string, b: string)
    requires AllSpace(b) && (t == [] || !IsSpace(t[|t| - 1]))
    ensures RStrip(t + b) == t
  {
    if b != [] {
      assert (t + b)[..|t + b| - 1] == t + b[..|b| - 1];
      RStripPadded(t, b[..|b| - 1]);
    } else {
      assert t + b == t;
    }
  }

  /** Stripping removes exactly the surrounding whitespace. */
  lemma StripPadded(a: string, t: string, b: string)
    requires AllSpace(a) && AllSpace(b)
    requires t == [] || (!IsSpace(t[0]) && !IsSpace(t[|t| - 1]))
    ensures Strip(a + t + b) == t
  {
    if t == [] {
      assert a + t + b == a + b;
      LStripPadded(a + b, []);
      assert a + b + [] == a + b;
    } else {
      assert a + t + b == a + (t + b);
      LStripPadded(a, t + b);
      RStripPadded(t, b);
    }
  }

  /** The position of the first `c` in `s`. */
  function IndexOf(s: string, c: char): (i: nat)
    requires c in s
    ensures i < |s| && s[i] == c && c !in s[..i]
  {
    if s[0] == c then 0 else 1 + IndexOf(s[1..], c)
  }

  /** `s.split(sep, 1)` for a one-character separator: the text before the
      first `sep` and the text after it, or `[s]` when `sep` does not occur.
      The list is never empty. */
  function SplitOnce(s: string, sep: char): (parts: seq<string>)
    ensures 1 <= |parts| <= 2
    ensures |parts| == 1 <==> sep !in s
    ensures |parts| == 1 ==> parts[0] == s
    ensures |parts| == 2 ==> s == parts[0] + [sep] + parts[1] && sep !in parts[0]
  {
    if sep !in s then [s]
    else
      var i := IndexOf(s, sep);
      assert s == s[..i] + [sep] + s[i + 1..];
      [s[..i], s[i + 1..]]
  }

  predicate StartsWith(s: string, prefix: string) {
    |prefix| <= |s| && s[..|prefix|] == prefix
  }

  // ---------------------------------------------------------------------------
  // Case mapping, replacement, identifiers

  predicate IsAsciiUpper(c: char) { 'A' <= c <= 'Z' }

  predicate IsAsciiLower(c: char) { 'a' <= c <= 'z' }

  predicate IsAsciiDigit(c: char) { '0' <= c <= '9' }

  function LowerChar(c: char): (d: char)
    ensures !IsAsciiUpper(d)
    ensures IsAsciiUpper(c) ==> d as int == c as int + 32
    ensures !IsAsciiUpper(c) ==> d == c
  {
    if IsAsciiUpper(c) then (c as int + 32) as char else c
  }

  /** `s.lower()` on the ASCII letters. */
  function Lower(s: string): (r: string)
    ensures |r| == |s|
    ensures forall i :: 0 <= i < |s| ==> r[i] == LowerChar(s[i])
  {
    seq(|s|, i requires 0 <= i < |s| => LowerChar(s[i]))
  }

  /** `s.replace(from, to)` for a one-character `from`: every occurrence of
      `from`, scanning left to right, becomes `to`. */
  function Replace(s: string, from: char, to: string): string {
    if s == [] then []
    else (if s[0] == from then to else [s[0]]) + Replace(s[1..], from, to)
  }

  /** Every character of the result is a character of `s` other than
      `from`, or a character of `to`; so nothing is replaced when `from`
      does not occur, and no `from` is left when `to` has none. */
  lemma {:induction false} ReplaceContents(s: string, from: char, to: string)
    ensures forall c :: c in Replace(s, from, to) ==> (c in s && c != from) || c in to
    ensures from !in s ==> Replace(s, from, to) == s
  {
    if s != [] {
      ReplaceContents(s[1..], from, to);
      var h := if s[0] == from then to else [s[0]];
      forall c | c in Replace(s, from, to) ensures (c in s && c != from) || c in to {
        if c !in h {
          assert c in Replace(s[1..], from, to);
          assert c in s[1..] ==> c in s;
        }
      }
      if from !in s {
        assert from !in s[1..];
      }
    }
  }

  /** `s.isidentifier()` for ASCII text: a letter or underscore followed by
      letters, digits and underscores. Keywords are identifiers too. */
  predicate IsIdentifier(s: string): (b: bool)
    ensures b ==> |s| > 0 && !IsAsciiDigit(s[0]) && ' ' !in s && '-' !in s
  {
    |s| > 0
    && (IsAsciiUpper(s[0]) || IsAsciiLower(s[0]) || s[0] == '_')
    && forall i :: 1 <= i < |s| ==>
         IsAsciiUpper(s[i]) || IsAsciiLower(s[i]) || IsAsciiDigit(s[i]) || s[i] == '_'
  }

  // ---------------------------------------------------------------------------
  // Integers as text

  function Digit(d: nat): (c: char)
    requires d < 10
    ensures IsAsciiDigit(c)
  {
    ('0' as int + d) as char
  }

  function DigitValue(c: char): nat
    requires IsAsciiDigit(c)
  {
    c as int - '0' as int
  }

  predicate AllDigits(s: string) {
    forall i :: 0 <= i < |s| ==> IsAsciiDigit(s[i])
  }

  /** `str(n)` for a natural number: its decimal digits, most significant first. */
  function NatToDecimal(n: nat): (s: string)
    ensures |s| > 0 && AllDigits(s)
    ensures s[0] == '0' ==> n == 0
  {
    if n < 10 then [Digit(n)] else NatToDecimal(n / 10) + [Digit(n % 10)]
  }

  /** `str(n)`: a minus sign for negative numbers, then the digits. */
  function IntToDecimal(n: int): (s: string)
    ensures |s| > 0 && (s[0] == '-' <==> n < 0)
    ensures n >= 0 ==> AllDigits(s)
    ensures n < 0 ==> AllDigits(s[1..])
  {
    if n < 0 then "-" + NatToDecimal(-n) else NatToDecimal(n)
  }

  /** The value of a string of decimal digits (the `int(s)` of Python). */
  function DigitsValue(s: string): nat
    requires AllDigits(s)
  {
    if s == [] then 0 else 10 * DigitsValue(s[..|s| - 1]) + DigitValue(s[|s| - 1])
  }

  function ParseInt(s: string): int
    requires |s| > 0
    requires AllDigits(s) || (s[0] == '-' && AllDigits(s[1..]))
  {
    if s[0] == '-' then 0 - DigitsValue(s[1..]) else DigitsValue(s)
  }

  /** Reading back what `str(n)` wrote gives `n`. */
  lemma {:induction false} NatToDecimalRoundTrip(n: nat)
    ensures DigitsValue(NatToDecimal(n)) == n
  {
    var s := NatToDecimal(n);
    if n >= 10 {
      NatToDecimalRoundTrip(n / 10);
      assert s[..|s| - 1] == NatToDecimal(n / 10);
    }
  }

  lemma IntToDecimalRoundTrip(n: int)
    ensures |IntToDecimal(n)| > 0
    ensures AllDigits(IntToDecimal(n)) || (IntToDecimal(n)[0] == '-' && AllDigits(IntToDecimal(n)[1..]))
    ensures ParseInt(IntToDecimal(n)) == n
  {
    if n < 0 {
      NatToDecimalRoundTrip(-n);
      assert IntToDecimal(n)[1..] == NatToDecimal(-n);
    } else {
      NatToDecimalRoundTrip(n);
    }
  }

  /** The last three digits of `k`, zero-padded. */
  function Pad3(k: nat): (s: string)
    requires k < 1000
    ensures |s| == 3 && AllDigits(s)
  {
    [Digit(k / 100), Digit(k / 10 % 10), Digit(k % 10)]
  }

  function NatWithThousands(n: nat): (s: string)
    ensures |s| > 0 && IsAsciiDigit(s[0])
  {
    if n < 1000 then NatToDecimal(n) else NatWithThousands(n / 1000) + "," + Pad3(n % 1000)
  }

  /** Python's `f"{n:,}"`: the decimal digits grouped by three with commas. */
  function WithThousands(n: int): (s: string)
    ensures |s| > 0 && (s[0] == '-' <==> n < 0)
  {
    if n < 0 then "-" + NatWithThousands(-n) else NatWithThousands(n)
  }

  /** The digits of `n % 1000` are the last three digits of `n`. */
  lemma ThousandsArith(n: nat)
    ensures n / 10 / 10 == n / 100 && n / 100 / 10 == n / 1000
    ensures n % 1000 / 100 == n / 100 % 10 && n % 1000 / 10 % 10 == n / 10 % 10 && n % 1000 % 10 == n % 10
  {
    var q, r := n / 1000, n % 1000;
    var r2, r1, r0 := r / 100, r / 10 % 10, r % 10;
    assert r / 10 == 10 * r2 + r1;
    assert n == 10 * (100 * q + 10 * r2 + r1) + r0;
    assert n / 10 == 10 * (10 * q + r2) + r1;
    assert n / 100 == 10 * q + r2;
  }

  lemma DecimalSplitsAtThousands(n: nat)
    requires n >= 1000
    ensures NatToDecimal(n) == NatToDecimal(n / 1000) + Pad3(n % 1000)
  {
    var a, b, c := n / 10, n / 100, n / 1000;
    ThousandsArith(n);
    assert NatToDecimal(n) == NatToDecimal(a) + [Digit(n % 10)];
    assert NatToDecimal(a) == NatToDecimal(b) + [Digit(a % 10)];
    assert NatToDecimal(b) == NatToDecimal(c) + [Digit(b % 10)];
  }

  /** A string of digits has no comma to remove. */
  lemma ReplaceDigits(s: string)
    requires AllDigits(s)
    ensures Replace(s, ',', "") == s
  {
    ReplaceContents(s, ',', "");
  }

  lemma {:induction false} ReplaceConcat(a: string, b: string, from: char, to: string)
    ensures Replace(a + b, from, to) == Replace(a, from, to) + Replace(b, from, to)
  {
    if a != [] {
      ReplaceConcat(a[1..], b, from, to);
      var h := if a[0] == from then to else [a[0]];
      assert (a + b)[0] == a[0] && (a + b)[1..] == a[1..] + b;
      calc {
        Replace(a + b, from, to);
        h + Replace(a[1..] + b, from, to);
        h + (Replace(a[1..], from, to) + Replace(b, from, to));
        (h + Replace(a[1..], from, to)) + Replace(b, from, to);
      }
    } else {
      assert a + b == b;
    }
  }

  lemma {:induction false} NatWithThousandsDigits(n: nat)
    ensures Replace(NatWithThousands(n), ',', "") == NatToDecimal(n)
  {
    if n >= 1000 {
      var x, p := NatWithThousands(n / 1000), Pad3(n % 1000);
      NatWithThousandsDigits(n / 1000);
      DecimalSplitsAtThousands(n);
      assert NatWithThousands(n) == (x + ",") + p;
      ReplaceConcat(x + ",", p, ',', "");
      ReplaceConcat(x, ",", ',', "");
      assert Replace(",", ',', "") == "";
      ReplaceDigits(p);
      assert Replace(x + ",", ',', "") == NatToDecimal(n / 1000);
    } else {
      ReplaceDigits(NatToDecimal(n));
    }
  }

  /** Removing the separators from `f"{n:,}"` gives back `str(n)`. */
  lemma WithThousandsDigits(n: int)
    ensures Replace(WithThousands(n), ',', "") == IntToDecimal(n)
  {
    if n < 0 {
      var x := NatWithThousands(-n);
      NatWithThousandsDigits(-n);
      ReplaceConcat("-", x, ',', "");
      ReplaceContents("-", ',', "");
      calc {
        Replace(WithThousands(n), ',', "");
        Replace("-" + x, ',', "");
        "-" + Replace(x, ',', "");
        "-" + NatToDecimal(-n);
      }
    } else {
      NatWithThousandsDigits(n);
    }
  }

  /** `sep.join(xs)`. */
  function Join(xs: seq<string>, sep: string): string {
    if xs == [] then "" else if |xs| == 1 then xs[0] else xs[0] + sep + Join(xs[1..], sep)
  }

  // ---------------------------------------------------------------------------
  // Ordering and sorting of strings

  /** Python's `a < b` on strings: lexicographic by code point. */
  predicate StrLt(a: string, b: string) {
    |b| > 0 && (|a| == 0 || a[0] < b[0] || (a[0] == b[0] && StrLt(a[1..], b[1..])))
  }

  lemma {:induction false} StrLtIrreflexive(a: string)
    ensures !StrLt(a, a)
  {
    if |a| > 0 { StrLtIrreflexive(a[1..]); }
  }

  lemma {:induction false} StrLtAsymmetric(a: string, b: string)
    ensures StrLt(a, b) ==> !StrLt(b, a)
  {
    if |a| > 0 && |b| > 0 && a[0] == b[0] { StrLtAsymmetric(a[1..], b[1..]); }
  }

  lemma {:induction false} StrLtTransitive(a: string, b: string, c: string)
    requires StrLt(a, b) && StrLt(b, c)
    ensures StrLt(a, c)
  {
    if |a| > 0 && a[0] == b[0] && b[0] == c[0] { StrLtTransitive(a[1..], b[1..], c[1..]); }
  }

  lemma {:induction false} StrLtTotal(a: string, b: string)
    ensures a == b || StrLt(a, b) || StrLt(b, a)
  {
    if |a| > 0 && |b| > 0 && a[0] == b[0] {
      StrLtTotal(a[1..], b[1..]);
      if a[1..] == b[1..] { assert a == [a[0]] + a[1..] && b == [b[0]] + b[1..]; }
    }
  }

  predicate IsLeast(m: string, s: set<string>) {
    m in s && forall y :: y in s && y != m ==> StrLt(m, y)
  }

  lemma {:induction false} LeastExists(s: set<string>)
    requires s != {}
    ensures exists m :: IsLeast(m, s)
    decreases |s|
  {
    var x :| x in s;
    if s == {x} {
      assert IsLeast(x, s);
    } else {
      LeastExists(s - {x});
      var m :| IsLeast(m, s - {x});
      StrLtTotal(m, x);
      if StrLt(m, x) {
        assert IsLeast(m, s);
      } else {
        forall y | y in s && y != x ensures StrLt(x, y) {
          if y != m { StrLtTransitive(x, m, y); }
        }
        assert IsLeast(x, s);
      }
    }
  }

  lemma LeastUnique(s: set<string>)
    ensures forall m, m' :: IsLeast(m, s) && IsLeast(m', s) ==> m == m'
  {
    forall m, m' | IsLeast(m, s) && IsLeast(m', s) ensures m == m' {
      StrLtAsymmetric(m, m');
    }
  }

  predicate StrictlyIncreasing(r: seq<string>) {
    forall i, j :: 0 <= i < j < |r| ==> StrLt(r[i], r[j])
  }

  /** `sorted(s)` for a set of strings: its elements in increasing order, each once. */
  function SortedSet(s: set<string>): (r: seq<string>)
    ensures forall x :: x in r <==> x in s
    ensures |r| == |s|
    ensures StrictlyIncreasing(r)
    decreases |s|
  {
    if s == {} then []
    else
      LeastExists(s);
      LeastUnique(s);
      var m :| IsLeast(m, s);
      var rest := SortedSet(s - {m});
      LeastFirst(m, s, rest);
      [m] + rest
  }

  /** Putting the least element in front of the sorted rest keeps the
      result sorted and holding exactly the set. */
  lemma LeastFirst(m: string, s: set<string>, rest: seq<string>)
    requires IsLeast(m, s)
    requires (forall x :: x in rest <==> x in s - {m}) && |rest| == |s - {m}| && StrictlyIncreasing(rest)
    ensures var r := [m] + rest;
      (forall x :: x in r <==> x in s) && |r| == |s| && StrictlyIncreasing(r)
  {
    var r := [m] + rest;
    forall i, j | 0 <= i < j < |r| ensures StrLt(r[i], r[j]) {
      assert r[j] == rest[j - 1] && r[j] in s - {m};
      if i > 0 { assert r[i] == rest[i - 1]; }
    }
  }
}
