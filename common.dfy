/**
 * Values shared by every route of the patrol application: optional values,
 * HTTP error answers, Python's notion of whitespace, and the decimal
 * rendering and parsing of numbers that the routes use when they print
 * counters into reports or read identifiers from query strings.
 */
module Common {

  datatype Option<T> = None | Some(value: T)

  /** An error answer of a route: its HTTP status code and the message of its JSON body. */
  datatype HttpError = HttpError(code: int, message: string)

  datatype Result<T> = Ok(value: T) | Err(error: HttpError)

  /** A message a page route flashes before redirecting: its category and text. */
  datatype Flash = Flash(category: string, message: string)

  /** Python truthiness of an optional request field holding a number (absent and 0 are falsy). */
  predicate TruthyInt(o: Option<int>) { o.Some? && o.value != 0 }

  /** Python truthiness of an optional request field holding text (absent and "" are falsy). */
  predicate TruthyStr(o: Option<string>) { o.Some? && o.value != "" }

  // ------------------------------------------------------------------
  // Whitespace and str.strip()
  // ------------------------------------------------------------------

  /** The characters for which Python's str.isspace() holds; str.strip() and the regex class \s use this set. */
  predicate IsSpace(c: char)
  {
    ('\t' <= c <= '\r') || ('\U{1C}' <= c <= ' ') || c == '\U{85}' || c == '\U{A0}'
    || c == '\U{1680}' || ('\U{2000}' <= c <= '\U{200A}') || c == '\U{2028}' || c == '\U{2029}'
    || c == '\U{202F}' || c == '\U{205F}' || c == '\U{3000}'
  }

  predicate AllSpace(s: string) { forall i :: 0 <= i < |s| ==> IsSpace(s[i]) }

  /** Number of characters at the start of `s` that satisfy `p`. */
  function LeadingBy(s: string, p: char -> bool): (n: nat)
    ensures n <= |s|
    ensures forall i :: 0 <= i < n ==> p(s[i])
    ensures n < |s| ==> !p(s[n])
  {
    if |s| == 0 || !p(s[0]) then 0 else 1 + LeadingBy(s[1..], p)
  }

  /** Number of characters at the end of `s` that satisfy `p`. */
  function TrailingBy(s: string, p: char -> bool): (n: nat)
    ensures n <= |s|
    ensures forall i :: |s| - n <= i < |s| ==> p(s[i])
    ensures n < |s| ==> !p(s[|s| - n - 1])
  {
    if |s| == 0 || !p(s[|s| - 1]) then 0 else 1 + TrailingBy(s[..|s| - 1], p)
  }

  /** `s` without its longest prefix and longest suffix of characters satisfying `p`. */
  function StripBy(s: string, p: char -> bool): string
  {
    var a := LeadingBy(s, p);
    s[a..|s| - TrailingBy(s[a..], p)]
  }

  /** The stripped text is the slice of `s` between the two runs, and the end run satisfies `p`. */
  lemma StripBySlice(s: string, p: char -> bool)
    ensures LeadingBy(s, p) + |StripBy(s, p)| <= |s|
    ensures StripBy(s, p) == s[LeadingBy(s, p)..LeadingBy(s, p) + |StripBy(s, p)|]
    ensures forall i :: LeadingBy(s, p) + |StripBy(s, p)| <= i < |s| ==> p(s[i])
  {
    var a := LeadingBy(s, p);
    var e := |s| - TrailingBy(s[a..], p);
    TrailingAfter(s, a, p);
    assert StripBy(s, p) == s[a..e] && a + |s[a..e]| == e;
  }

  /** The stripped text is empty exactly when all of `s` satisfies `p`, and otherwise neither end does. */
  lemma StripByEnds(s: string, p: char -> bool)
    ensures |StripBy(s, p)| == 0 <==> forall i :: 0 <= i < |s| ==> p(s[i])
    ensures |StripBy(s, p)| > 0 ==> !p(StripBy(s, p)[0]) && !p(StripBy(s, p)[|StripBy(s, p)| - 1])
  {
    var a := LeadingBy(s, p);
    var e := |s| - TrailingBy(s[a..], p);
    TrailingAfter(s, a, p);
    TrimmedEnds(s, a, e, p);
    assert StripBy(s, p) == s[a..e];
  }

  /** The trailing run of the suffix `s[a..]`, read as positions of `s`. */
  lemma TrailingAfter(s: string, a: nat, p: char -> bool)
    requires a <= |s|
    ensures a <= |s| - TrailingBy(s[a..], p)
    ensures forall i :: |s| - TrailingBy(s[a..], p) <= i < |s| ==> p(s[i])
    ensures a < |s| - TrailingBy(s[a..], p) ==> !p(s[|s| - TrailingBy(s[a..], p) - 1])
  {
    var t := s[a..];
    var b := TrailingBy(t, p);
    forall i | |s| - b <= i < |s| ensures p(s[i]) {
      assert s[i] == t[i - a];
    }
    if b < |t| {
      assert s[|s| - b - 1] == t[|t| - b - 1];
    }
  }

  /** What the slice between a run of `p` at the start and one at the end looks like. */
  lemma TrimmedEnds(s: string, a: nat, e: nat, p: char -> bool)
    requires a <= e <= |s|
    requires forall i :: 0 <= i < a ==> p(s[i])
    requires a < |s| ==> !p(s[a])
    requires forall i :: e <= i < |s| ==> p(s[i])
    requires a < e ==> !p(s[e - 1])
    ensures a == e <==> forall i :: 0 <= i < |s| ==> p(s[i])
    ensures a < e ==> !p(s[a..e][0]) && !p(s[a..e][|s[a..e]| - 1])
  {
    if a < e {
      assert s[a..e][0] == s[a];
      assert s[a..e][|s[a..e]| - 1] == s[e - 1];
    } else {
      forall i | 0 <= i < |s| ensures p(s[i]) {
        assert i < a || e <= i;
      }
    }
  }

  /** Number of whitespace characters at the start of `s`. */
  function LeadingSpaces(s: string): (n: nat)
    ensures n <= |s|
    ensures forall i :: 0 <= i < n ==> IsSpace(s[i])
    ensures n < |s| ==> !IsSpace(s[n])
  {
    LeadingBy(s, IsSpace)
  }

  /** Python's `s.strip()`: `s` without its leading and trailing whitespace. */
  function Strip(s: string): (r: string)
    ensures |r| == 0 <==> AllSpace(s)
    ensures |r| > 0 ==> !IsSpace(r[0]) && !IsSpace(r[|r| - 1])
  {
    var r := StripBy(s, IsSpace);
    assert |r| == 0 <==> AllSpace(s) by {
      StripByEnds(s, IsSpace);
    }
    assert |r| > 0 ==> !IsSpace(r[0]) && !IsSpace(r[|r| - 1]) by {
      StripByEnds(s, IsSpace);
    }
    r
  }

  /** `strip(s)` is the slice of `s` after its leading whitespace, and only whitespace follows it. */
  lemma StripSlice(s: string)
    ensures LeadingSpaces(s) + |Strip(s)| <= |s|
    ensures Strip(s) == s[LeadingSpaces(s)..LeadingSpaces(s) + |Strip(s)|]
    ensures AllSpace(s[LeadingSpaces(s) + |Strip(s)|..])
  {
    var a, r := LeadingSpaces(s), Strip(s);
    StripBySlice(s, IsSpace);
    var t := s[a + |r|..];
    forall i | 0 <= i < |t| ensures IsSpace(t[i]) {
      assert t[i] == s[a + |r| + i];
    }
  }

  /** Every character of `strip(s)` is one of `s`, so a property all of them have survives stripping. */
  lemma StripKeeps(s: string, p: char -> bool)
    requires forall i :: 0 <= i < |s| ==> p(s[i])
    ensures forall i :: 0 <= i < |Strip(s)| ==> p(Strip(s)[i])
  {
    var r, a := Strip(s), LeadingSpaces(s);
    StripSlice(s);
    forall i | 0 <= i < |r| ensures p(r[i]) {
      assert r[i] == s[a + i];
    }
  }

  /** A text that neither starts nor ends with whitespace is left unchanged by strip(). */
  lemma StripUnchanged(s: string)
    requires |s| > 0 && !IsSpace(s[0]) && !IsSpace(s[|s| - 1])
    ensures Strip(s) == s
  {
    StripSlice(s);
    var r := Strip(s);
    assert LeadingSpaces(s) == 0;
    assert s[0..|s|] == s;
  }

  // ------------------------------------------------------------------
  // Case folding
  // ------------------------------------------------------------------

  /** Python's str.lower() on one character, for the Basic Latin and Latin-1 capital letters. */
  function LowerChar(c: char): char
  {
    if 'A' <= c <= 'Z' || ('\U{C0}' <= c <= '\U{DE}' && c != '\U{D7}') then (c as int + 32) as char else c
  }

  function Lower(s: string): (r: string)
    ensures |r| == |s|
    ensures forall i :: 0 <= i < |s| ==> r[i] == LowerChar(s[i])
  {
    if |s| == 0 then "" else [LowerChar(s[0])] + Lower(s[1..])
  }

  // ------------------------------------------------------------------
  // Prefixes, suffixes, substrings, join and split
  // ------------------------------------------------------------------

  predicate StartsWith(s: string, prefix: string) { |prefix| <= |s| && s[..|prefix|] == prefix }

  predicate EndsWith(s: string, suffix: string) { |suffix| <= |s| && s[|s| - |suffix|..] == suffix }

  /** Python's `needle in haystack` on strings. */
  predicate IsSubstring(needle: string, haystack: string)
    decreases |haystack|
  {
    StartsWith(haystack, needle) || (|haystack| > 0 && IsSubstring(needle, haystack[1..]))
  }

  /** Python's `<=` on strings: lexicographic order of code points. */
  predicate LexLeq(a: string, b: string)
    decreases |a|
  {
    |a| == 0 || (|b| > 0 && (a[0] < b[0] || (a[0] == b[0] && LexLeq(a[1..], b[1..]))))
  }

  /** A common prefix does not decide the order. */
  lemma {:induction false} LexLeqCommonPrefix(p: string, a: string, b: string)
    ensures LexLeq(p + a, p + b) == LexLeq(a, b)
  {
    if |p| == 0 {
      assert p + a == a && p + b == b;
    } else {
      assert (p + a)[0] == (p + b)[0];
      assert (p + a)[1..] == p[1..] + a;
      assert (p + b)[1..] == p[1..] + b;
      LexLeqCommonPrefix(p[1..], a, b);
    }
  }

  /** When two heads of equal length differ, they decide the order whatever follows. */
  lemma {:induction false} LexLeqFirstDifference(a: string, x: string, b: string, y: string)
    requires |a| == |b| && a != b
    ensures LexLeq(a + x, b + y) == LexLeq(a, b)
  {
    assert |a| > 0;
    if a[0] == b[0] {
      assert a[1..] != b[1..] by {
        assert a == [a[0]] + a[1..] && b == [b[0]] + b[1..];
      }
      assert (a + x)[1..] == a[1..] + x;
      assert (b + y)[1..] == b[1..] + y;
      LexLeqFirstDifference(a[1..], x, b[1..], y);
    }
  }

  /** Zero-padded two-digit numerals sort like the numbers they write. */
  lemma LexLeqPad2(m: nat, n: nat)
    requires m < 100 && n < 100
    ensures LexLeq(Pad2(m), Pad2(n)) <==> m <= n
  {
    var a := Pad2(m);
    var b := Pad2(n);
    assert a[0] == DigitChar(m / 10) && a[1] == DigitChar(m % 10);
    assert b[0] == DigitChar(n / 10) && b[1] == DigitChar(n % 10);
    assert LexLeq(a[1..], b[1..]) <==> a[1] <= b[1] by {
      assert a[1..][1..] == [] && b[1..][1..] == [];
    }
    assert LexLeq(a, b) <==> a[0] < b[0] || (a[0] == b[0] && a[1] <= b[1]);
    assert m <= n <==> m / 10 < n / 10 || (m / 10 == n / 10 && m % 10 <= n % 10);
  }

  /** Zero-padded four-digit numerals sort like the numbers they write. */
  lemma LexLeqPad4(m: nat, n: nat)
    requires m < 10000 && n < 10000
    ensures LexLeq(Pad4(m), Pad4(n)) <==> m <= n
  {
    var hm, lm, hn, ln := Pad2(m / 100), Pad2(m % 100), Pad2(n / 100), Pad2(n % 100);
    assert Pad4(m) == hm + lm && Pad4(n) == hn + ln;
    if m / 100 == n / 100 {
      LexLeqCommonPrefix(hm, lm, ln);
      LexLeqPad2(m % 100, n % 100);
    } else {
      assert hm != hn by {
        assert DigitsValue(hm) != DigitsValue(hn);
      }
      LexLeqFirstDifference(hm, lm, hn, ln);
      LexLeqPad2(m / 100, n / 100);
    }
  }

  /** Python's `sep.join(parts)`. */
  function Join(parts: seq<string>, sep: string): string
  {
    if |parts| == 0 then "" else if |parts| == 1 then parts[0] else parts[0] + sep + Join(parts[1..], sep)
  }

  /** Index of the first occurrence of `c` in `s`. */
  function IndexOf(s: string, c: char): (i: nat)
    requires c in s
    ensures i < |s| && s[i] == c && c !in s[..i]
  {
    if s[0] == c then 0 else
      var k := IndexOf(s[1..], c);
      assert s[..k + 1] == [s[0]] + s[1..][..k];
      1 + k
  }

  /** Python's `s.split(c)` (and JavaScript's `s.split(c)`) for a one-character separator. */
  function Split(s: string, c: char): (parts: seq<string>)
    ensures |parts| >= 1
    ensures forall i :: 0 <= i < |parts| ==> c !in parts[i]
    decreases |s|
  {
    if c !in s then [s]
    else
      var i := IndexOf(s, c);
      [s[..i]] + Split(s[i + 1..], c)
  }

  /** Splitting on a separator and joining the pieces back with it gives the original text. */
  lemma {:induction false} JoinSplit(s: string, c: char)
    ensures Join(Split(s, c), [c]) == s
    decreases |s|
  {
    if c in s {
      var i := IndexOf(s, c);
      JoinSplit(s[i + 1..], c);
      JoinCons(s[..i], Split(s[i + 1..], c), [c]);
      assert s == s[..i] + [c] + s[i + 1..];
    }
  }

  /** Joining a first piece onto a non-empty list puts the separator between them. */
  lemma JoinCons(x: string, rest: seq<string>, sep: string)
    requires |rest| >= 1
    ensures Join([x] + rest, sep) == x + sep + Join(rest, sep)
  {
    assert ([x] + rest)[1..] == rest;
  }

  /** A separator right after a text without one is where `split` cuts first. */
  lemma SplitAfterChar(x: string, y: string, c: char)
    requires c !in x
    ensures Split(x + [c] + y, c) == [x] + Split(y, c)
  {
    var s := x + [c] + y;
    assert s[|x|] == c;
    var i := IndexOf(s, c);
    assert forall k :: 0 <= k < |x| ==> s[k] == x[k];
    forall j | |x| < j <= |s|
      ensures c in s[..j]
    {
      assert s[..j][|x|] == c;
    }
    assert i == |x|;
    assert s[..i] == x;
    assert s[i + 1..] == y;
  }

  /** A text without the separator is its own single piece. */
  lemma SplitNoSeparator(s: string, c: char)
    requires c !in s
    ensures Split(s, c) == [s]
  {
  }

  // ------------------------------------------------------------------
  // Decimal digits
  // ------------------------------------------------------------------

  predicate IsDigit(c: char) { '0' <= c <= '9' }

  predicate AllDigits(s: string) { forall i :: 0 <= i < |s| ==> IsDigit(s[i]) }

  function DigitValue(c: char): (d: nat)
    requires IsDigit(c)
    ensures d < 10
  {
    c as int - '0' as int
  }

  function DigitChar(d: nat): (c: char)
    requires d < 10
    ensures IsDigit(c) && DigitValue(c) == d
  {
    ('0' as int + d) as char
  }

  /** The number written by a non-empty string of decimal digits (leading zeros allowed). */
  function DigitsValue(s: string): nat
    requires AllDigits(s)
  {
    if |s| == 0 then 0 else DigitsValue(s[..|s| - 1]) * 10 + DigitValue(s[|s| - 1])
  }

  /** The decimal numeral Python's str() and JavaScript's template literals write for a natural number. */
  function NatToString(n: nat): (s: string)
    ensures |s| >= 1 && AllDigits(s)
    ensures n >= 10 <==> |s| >= 2
    ensures |s| >= 2 ==> s[0] != '0'
  {
    if n < 10 then [DigitChar(n)] else NatToString(n / 10) + [DigitChar(n % 10)]
  }

  /** Reading back the numeral of `n` gives `n`. */
  lemma {:induction false} NatToStringValue(n: nat)
    ensures DigitsValue(NatToString(n)) == n
  {
    if n >= 10 {
      var s := NatToString(n);
      assert s[..|s| - 1] == NatToString(n / 10);
      NatToStringValue(n / 10);
    }
  }

  /** Decimal numeral of an integer, with a leading '-' for negative values. */
  function IntToString(i: int): (s: string)
    ensures |s| >= 1
    ensures i >= 0 <==> s[0] != '-'
  {
    if i < 0 then "-" + NatToString(-i) else NatToString(i)
  }

  /** An optional sign followed by at least one ASCII digit, read as an integer. */
  function SignedNumeral(t: string): (r: Option<int>)
    ensures r.Some? ==> |t| >= 1
  {
    if |t| >= 1 && (t[0] == '-' || t[0] == '+') then
      var body := t[1..];
      var v: int := if |body| >= 1 && AllDigits(body) then DigitsValue(body) else 0;
      if |body| >= 1 && AllDigits(body) then Some(if t[0] == '-' then -v else v)
      else None
    else if |t| >= 1 && AllDigits(t) then Some(DigitsValue(t))
    else None
  }

  /**
   * Python's `int(s)` on text: surrounding whitespace, an optional sign and at
   * least one ASCII digit; None where Python raises ValueError.
   */
  function PyInt(s: string): (r: Option<int>)
    ensures r.Some? ==> |Strip(s)| >= 1
  {
    SignedNumeral(Strip(s))
  }

  /** A plain numeral is read by int() as its value. */
  lemma PyIntNumeral(t: string)
    requires |t| >= 1 && AllDigits(t)
    ensures PyInt(t) == Some(DigitsValue(t))
  {
    StripUnchanged(t);
  }

  /** A numeral preceded by '-' is read by int() as the opposite of its value. */
  lemma PyIntNegativeNumeral(d: string)
    requires |d| >= 1 && AllDigits(d)
    ensures PyInt("-" + d) == Some(-(DigitsValue(d) as int))
  {
    var t := "-" + d;
    SignedEndsUnspaced('-', d);
    PyIntUnspaced(t);
    NegativeNumeral(t, d);
  }

  /** Text that neither starts nor ends with whitespace is read by int() as it stands. */
  lemma PyIntUnspaced(t: string)
    requires |t| > 0 && !IsSpace(t[0]) && !IsSpace(t[|t| - 1])
    ensures PyInt(t) == SignedNumeral(t)
  {
    StripUnchanged(t);
  }

  /** A sign followed by a numeral neither starts nor ends with whitespace. */
  lemma SignedEndsUnspaced(sinal: char, d: string)
    requires |d| >= 1 && AllDigits(d) && !IsSpace(sinal)
    ensures var t := [sinal] + d; |t| > 0 && !IsSpace(t[0]) && !IsSpace(t[|t| - 1])
  {
    var t := [sinal] + d;
    assert t[|t| - 1] == d[|d| - 1];
  }

  lemma NegativeNumeral(t: string, d: string)
    requires |d| >= 1 && AllDigits(d) && t == "-" + d
    ensures SignedNumeral(t) == Some(-(DigitsValue(d) as int))
  {
    assert t[1..] == d;
  }

  /** `int(str(i)) == i`: the numeral of every integer is read back as that integer. */
  lemma {:induction false} PyIntIntToString(i: int)
    ensures PyInt(IntToString(i)) == Some(i)
  {
    if i < 0 {
      var n: nat := -i;
      var d := NatToString(n);
      NatToStringValue(n);
      PyIntNegativeNumeral(d);
      assert PyInt("-" + d) == Some(i);
      assert IntToString(i) == "-" + d;
    } else {
      var d := NatToString(i);
      assert IntToString(i) == d;
      NatToStringValue(i);
      PyIntNumeral(d);
    }
  }

  /** Two-digit zero-padded numeral (`%02d`, strftime's `%H`, `%M`, `%d`, `%m`). */
  function Pad2(n: nat): (s: string)
    requires n < 100
    ensures |s| == 2 && AllDigits(s) && DigitsValue(s) == n
  {
    var s := [DigitChar(n / 10), DigitChar(n % 10)];
    DigitsValuePair(s);
    s
  }

  /** Four-digit zero-padded numeral (strftime's `%Y`). */
  function Pad4(n: nat): (s: string)
    requires n < 10000
    ensures |s| == 4 && AllDigits(s) && DigitsValue(s) == n
  {
    var hi := Pad2(n / 100);
    var lo := Pad2(n % 100);
    DigitsValueSnoc(hi, lo[0]);
    assert hi + lo == (hi + [lo[0]]) + [lo[1]];
    DigitsValueSnoc(hi + [lo[0]], lo[1]);
    DigitsValuePair(lo);
    hi + lo
  }

  lemma DigitsValueSnoc(s: string, c: char)
    requires AllDigits(s) && IsDigit(c)
    ensures AllDigits(s + [c]) && DigitsValue(s + [c]) == DigitsValue(s) * 10 + DigitValue(c)
  {
    assert (s + [c])[..|s|] == s;
  }

  lemma DigitsValuePair(s: string)
    requires |s| == 2 && AllDigits(s)
    ensures DigitsValue(s) == DigitValue(s[0]) * 10 + DigitValue(s[1])
  {
    assert s[..1][..0] == [];
    assert DigitsValue(s[..1]) == DigitValue(s[0]);
  }

  // ------------------------------------------------------------------
  // Counting and filtering
  // ------------------------------------------------------------------

  /** Number of elements of `s` satisfying `p`. */
  function CountIf<T>(s: seq<T>, p: T -> bool): (n: nat)
    ensures n <= |s|
  {
    if |s| == 0 then 0 else CountIf(s[..|s| - 1], p) + (if p(s[|s| - 1]) then 1 else 0)
  }

  /** The elements of `s` satisfying `p`, in their order (a Python list comprehension with an `if`). */
  function Filter<T>(s: seq<T>, p: T -> bool): (r: seq<T>)
    ensures |r| == CountIf(s, p)
    ensures forall x :: x in r ==> x in s && p(x)
  {
    if |s| == 0 then [] else Filter(s[..|s| - 1], p) + (if p(s[|s| - 1]) then [s[|s| - 1]] else [])
  }

  /** One more element of the input adds it to the filter's output exactly when it satisfies `p`. */
  lemma FilterStep<T>(s: seq<T>, i: nat, p: T -> bool)
    requires i < |s|
    ensures Filter(s[..i + 1], p) == Filter(s[..i], p) + (if p(s[i]) then [s[i]] else [])
  {
    assert s[..i + 1][..i] == s[..i];
  }

  /** Every element of `s` satisfying `p` is kept by the filter. */
  lemma {:induction false} FilterKeeps<T>(s: seq<T>, p: T -> bool, x: T)
    requires x in s && p(x)
    ensures x in Filter(s, p)
  {
    if s[|s| - 1] != x {
      assert x in s[..|s| - 1] by {
        var i :| 0 <= i < |s| && s[i] == x;
        assert s[..|s| - 1][i] == x;
      }
      FilterKeeps(s[..|s| - 1], p, x);
    }
  }

  /** Filtering distributes over concatenation, so it keeps the order of the input. */
  lemma {:induction false} FilterAppend<T>(a: seq<T>, b: seq<T>, p: T -> bool)
    ensures Filter(a + b, p) == Filter(a, p) + Filter(b, p)
    decreases |b|
  {
    if |b| > 0 {
      assert (a + b)[..|a + b| - 1] == a + b[..|b| - 1];
      FilterAppend(a, b[..|b| - 1], p);
    } else {
      assert a + b == a;
    }
  }

  /** The count over a prefix grows by one exactly when the next element satisfies `p`. */
  lemma CountIfStep<T>(s: seq<T>, i: nat, p: T -> bool)
    requires i < |s|
    ensures CountIf(s[..i + 1], p) == CountIf(s[..i], p) + (if p(s[i]) then 1 else 0)
  {
    assert s[..i + 1][..i] == s[..i];
  }

  /** Appending one element adds one to the count exactly when that element satisfies `p`. */
  lemma CountIfSnoc<T>(s: seq<T>, x: T, p: T -> bool)
    ensures CountIf(s + [x], p) == CountIf(s, p) + (if p(x) then 1 else 0)
  {
    assert (s + [x])[..|s|] == s;
  }

  /** Two sequences that agree position by position on their predicates have the same count. */
  lemma {:induction false} CountIfPointwise<T, U>(s: seq<T>, t: seq<U>, p: T -> bool, q: U -> bool)
    requires |s| == |t|
    requires forall i :: 0 <= i < |s| ==> p(s[i]) == q(t[i])
    ensures CountIf(s, p) == CountIf(t, q)
  {
    if |s| > 0 {
      var n := |s| - 1;
      CountIfPointwise(s[..n], t[..n], p, q);
    }
  }

  lemma {:induction false} CountIfDisjoint<T>(s: seq<T>, p: T -> bool, q: T -> bool)
    requires forall x :: x in s ==> !(p(x) && q(x))
    ensures CountIf(s, p) + CountIf(s, q) <= |s|
  {
    if |s| > 0 {
      assert forall x :: x in s[..|s| - 1] ==> x in s;
      CountIfDisjoint(s[..|s| - 1], p, q);
    }
  }

  /** The count is positive exactly when some element satisfies `p`. */
  lemma {:induction false} CountIfPositive<T>(s: seq<T>, p: T -> bool)
    ensures CountIf(s, p) > 0 <==> exists x :: x in s && p(x)
  {
    if |s| > 0 {
      var init, last := s[..|s| - 1], s[|s| - 1];
      CountIfPositive(init, p);
      assert forall x :: x in init ==> x in s;
      if !p(last) && exists x :: x in s && p(x) {
        var x :| x in s && p(x);
        var i :| 0 <= i < |s| && s[i] == x;
        assert init[i] == x;
      }
    }
  }

  /** Python's `next((x for x in s if p(x)), None)`, as the index of the first element satisfying `p`. */
  function FirstWhere<T>(s: seq<T>, p: T -> bool): (r: Option<nat>)
    ensures r.Some? ==> r.value < |s| && p(s[r.value]) && forall j :: 0 <= j < r.value ==> !p(s[j])
    ensures r.None? ==> forall j :: 0 <= j < |s| ==> !p(s[j])
  {
    if |s| == 0 then None
    else if p(s[0]) then Some(0)
    else match FirstWhere(s[1..], p)
      case None => None
      case Some(k) => Some(k + 1)
  }

  /** The texts `f(x)` of the elements of `s`, concatenated in order (a `+=` loop over a list). */
  function ConcatMap<T>(s: seq<T>, f: T -> string): string
  {
    if |s| == 0 then "" else ConcatMap(s[..|s| - 1], f) + f(s[|s| - 1])
  }

  lemma ConcatMapStep<T>(s: seq<T>, i: nat, f: T -> string)
    requires i < |s|
    ensures ConcatMap(s[..i + 1], f) == ConcatMap(s[..i], f) + f(s[i])
  {
    assert s[..i + 1][..i] == s[..i];
  }

  /** A `+=` loop that appends `f(x)` to `prefix` for every element `x` of `s`, in order. */
  method AppendEach<T>(prefix: string, s: seq<T>, f: T -> string) returns (text: string)
    ensures text == prefix + ConcatMap(s, f)
  {
    text := prefix;
    var i := 0;
    while i < |s|
      invariant 0 <= i <= |s|
      invariant text == prefix + ConcatMap(s[..i], f)
    {
      ConcatMapStep(s, i, f);
      text := text + f(s[i]);
      i := i + 1;
    }
    assert s[..i] == s;
  }

  /** `[f(x) for x in s]`. */
  function MapSeq<T, U>(s: seq<T>, f: T --> U): (r: seq<U>)
    requires forall i :: 0 <= i < |s| ==> f.requires(s[i])
    ensures |r| == |s|
    ensures forall i :: 0 <= i < |s| ==> r[i] == f(s[i])
  {
    if |s| == 0 then [] else MapSeq(s[..|s| - 1], f) + [f(s[|s| - 1])]
  }

  /**
   * A loop that builds `f(x)` for every element `x` of `s`, in order, hands
   * it to `enviar`, and counts the calls that answered true.
   */
  method EnviarCada<T, U>(s: seq<T>, f: T --> U, enviar: U -> bool) returns (total: nat, enviados: seq<U>)
    requires forall i :: 0 <= i < |s| ==> f.requires(s[i])
    ensures enviados == MapSeq(s, f)
    ensures total == CountIf(enviados, enviar)
  {
    total, enviados := 0, [];
    var i := 0;
    while i < |s|
      invariant 0 <= i <= |s|
      invariant enviados == MapSeq(s[..i], f)
      invariant total == CountIf(enviados, enviar)
    {
      var dado := f(s[i]);
      CountIfSnoc(enviados, dado, enviar);
      if enviar(dado) {
        total := total + 1;
      }
      assert s[..i + 1][..i] == s[..i];
      enviados := enviados + [dado];
      i := i + 1;
    }
    assert s[..i] == s;
  }

  /** Appending an element appends its piece. */
  lemma ConcatMapSnoc<T>(s: seq<T>, x: T, f: T -> string)
    ensures ConcatMap(s + [x], f) == ConcatMap(s, f) + f(x)
  {
    assert (s + [x])[..|s|] == s;
  }

  /** The text of a concatenation of lists is the text of each list, in order. */
  lemma {:induction false} ConcatMapAppend<T>(a: seq<T>, b: seq<T>, f: T -> string)
    ensures ConcatMap(a + b, f) == ConcatMap(a, f) + ConcatMap(b, f)
    decreases |b|
  {
    if |b| == 0 {
      assert a + b == a;
    } else {
      assert (a + b)[..|a + b| - 1] == a + b[..|b| - 1];
      ConcatMapAppend(a, b[..|b| - 1], f);
    }
  }

  /** The piece of the i-th element sits right after the pieces of the elements before it. */
  lemma {:induction false} ConcatMapAt<T>(s: seq<T>, i: nat, f: T -> string)
    requires i < |s|
    ensures ConcatMap(s, f) == ConcatMap(s[..i], f) + f(s[i]) + ConcatMap(s[i + 1..], f)
  {
    var a := s[..i + 1];
    var b := s[i + 1..];
    assert a + b == s;
    ConcatMapAppend(a, b, f);
    ConcatMapStep(s, i, f);
  }

  /** The texts `g(x)` of the elements of `s`, in order (a list comprehension). */
  function MapStrings<T>(s: seq<T>, g: T -> string): (r: seq<string>)
    ensures |r| == |s|
    ensures forall i :: 0 <= i < |s| ==> r[i] == g(s[i])
  {
    if |s| == 0 then [] else [g(s[0])] + MapStrings(s[1..], g)
  }

  /**
   * When every piece `f(x)` is a line `g(x)` followed by a line break, the
   * concatenated pieces followed by any text split into the lines, in order,
   * and then that text's pieces.
   */
  lemma {:induction false} SplitConcatLines<T>(s: seq<T>, f: T -> string, g: T -> string, resto: string)
    requires forall x :: x in s ==> f(x) == g(x) + "\n" && '\n' !in g(x)
    ensures Split(ConcatMap(s, f) + resto, '\n') == MapStrings(s, g) + Split(resto, '\n')
    decreases |s|
  {
    if |s| == 0 {
      assert ConcatMap(s, f) + resto == resto;
    } else {
      var cauda := s[1..];
      var y := ConcatMap(cauda, f) + resto;
      var primeira := g(s[0]);
      PrimeiraLinha(s, f, primeira, resto);
      var linhas := MapStrings(cauda, g);
      var fim := Split(resto, '\n');
      assert Split(ConcatMap(s, f) + resto, '\n') == [primeira] + Split(y, '\n') by {
        SplitAfterChar(primeira, y, '\n');
      }
      assert Split(y, '\n') == linhas + fim by {
        SplitConcatLines(cauda, f, g, resto);
      }
      assert MapStrings(s, g) == [primeira] + linhas;
      SeqAssoc([primeira], linhas, fim);
    }
  }

  /** The first piece of a list of lines, before the rest of the text. */
  lemma PrimeiraLinha<T>(s: seq<T>, f: T -> string, primeira: string, resto: string)
    requires |s| > 0 && f(s[0]) == primeira + "\n"
    ensures ConcatMap(s, f) + resto == primeira + ['\n'] + (ConcatMap(s[1..], f) + resto)
  {
    ConcatMapCons(s, f);
    SeqAssoc(f(s[0]), ConcatMap(s[1..], f), resto);
    SeqAssoc(primeira, ['\n'], ConcatMap(s[1..], f) + resto);
  }

  /** Concatenation of sequences is associative. */
  lemma SeqAssoc<T>(a: seq<T>, b: seq<T>, c: seq<T>)
    ensures a + (b + c) == a + b + c
  {
  }

  /** The text of a non-empty list is the first element's piece followed by the rest's. */
  lemma ConcatMapCons<T>(s: seq<T>, f: T -> string)
    requires |s| > 0
    ensures ConcatMap(s, f) == f(s[0]) + ConcatMap(s[1..], f)
  {
    var primeiro := [s[0]];
    assert ConcatMap(primeiro, f) == f(s[0]) by {
      assert primeiro[..0] == [];
      assert ConcatMap(primeiro[..0], f) == "";
    }
    ConcatMapAppend(primeiro, s[1..], f);
    assert primeiro + s[1..] == s;
  }

  /** Sum of `f` over the elements of `s`. */
  function SumOf<T>(s: seq<T>, f: T -> int): int
  {
    if |s| == 0 then 0 else SumOf(s[..|s| - 1], f) + f(s[|s| - 1])
  }

  lemma SumOfStep<T>(s: seq<T>, i: nat, f: T -> int)
    requires i < |s|
    ensures SumOf(s[..i + 1], f) == SumOf(s[..i], f) + f(s[i])
  {
    assert s[..i + 1][..i] == s[..i];
  }

  lemma SumOfSnoc<T>(s: seq<T>, x: T, f: T -> int)
    ensures SumOf(s + [x], f) == SumOf(s, f) + f(x)
  {
    assert (s + [x])[..|s|] == s;
  }

  /** Replacing one element changes the sum by the difference of its terms. */
  lemma {:induction false} SumOfUpdate<T>(s: seq<T>, k: nat, x: T, f: T -> int)
    requires k < |s|
    ensures SumOf(s[k := x], f) == SumOf(s, f) - f(s[k]) + f(x)
  {
    var n := |s| - 1;
    if k == n {
      assert s[k := x] == s[..n] + [x];
      assert s == s[..n] + [s[n]];
      SumOfSnoc(s[..n], x, f);
      SumOfSnoc(s[..n], s[n], f);
    } else {
      SumOfUpdate(s[..n], k, x, f);
      assert s[k := x] == s[..n][k := x] + [s[n]];
      assert s == s[..n] + [s[n]];
      SumOfSnoc(s[..n][k := x], s[n], f);
      SumOfSnoc(s[..n], s[n], f);
    }
  }

  /** The sum of non-negative terms is non-negative. */
  lemma {:induction false} SumOfNonNegative<T>(s: seq<T>, f: T -> int)
    requires forall x :: x in s ==> f(x) >= 0
    ensures SumOf(s, f) >= 0
  {
    if |s| > 0 {
      assert forall x :: x in s[..|s| - 1] ==> x in s;
      SumOfNonNegative(s[..|s| - 1], f);
    }
  }

  /** Python's `int(a / b)` for a positive divisor: the quotient truncated toward zero. */
  function TruncDiv(a: int, b: int): (q: int)
    requires b > 0
    ensures a >= 0 ==> 0 <= q && q * b <= a < q * b + b
    ensures a < 0 ==> q <= 0 && q * b - b < a <= q * b
  {
    if a >= 0 then
      DivBounds(a, b);
      a / b
    else
      DivBounds(-a, b);
      NegatedProduct((-a) / b, b);
      -((-a) / b)
  }

  lemma DivBounds(n: nat, b: int)
    requires b > 0
    ensures 0 <= n / b && (n / b) * b <= n < (n / b) * b + b
  {
    assert n == (n / b) * b + n % b;
  }

  lemma NegatedProduct(x: int, b: int)
    ensures (-x) * b == -(x * b)
  {
  }
}
