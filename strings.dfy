/** Text operations shared by the frontend (JavaScript string methods) and the
    backend (Python str methods). Characters are compared by their code point;
    case mapping covers the ASCII letters only. */
module Strings {
  import opened Wrappers

  // ---------------------------------------------------------------------
  // Case mapping

  predicate IsAsciiUpper(c: char) { 'A' <= c <= 'Z' }
  predicate IsAsciiLower(c: char) { 'a' <= c <= 'z' }

  function LowerChar(c: char): char
  {
    if IsAsciiUpper(c) then (c as int + 32) as char else c
  }

  function UpperChar(c: char): char
  {
    if IsAsciiLower(c) then (c as int - 32) as char else c
  }

  /** `str.lower()` / `String.prototype.toLowerCase()` on ASCII letters. */
  function Lower(s: string): (r: string)
    ensures |r| == |s|
    ensures forall i :: 0 <= i < |s| ==> r[i] == LowerChar(s[i])
    ensures forall i :: 0 <= i < |s| ==> !IsAsciiUpper(r[i])
  {
    seq(|s|, i requires 0 <= i < |s| => LowerChar(s[i]))
  }

  lemma LowerIdempotent(s: string)
    ensures Lower(Lower(s)) == Lower(s)
  {
  }

  // ---------------------------------------------------------------------
  // Whitespace and trimming

  /** The characters JavaScript's `trim()` and the regular-expression class `\s`
      treat as white space: the Unicode space separators, tab, vertical tab,
      form feed, the byte order mark and the four line terminators. */
  predicate IsJsSpace(c: char)
  {
    var n := c as int;
    n == 0x09 || n == 0x0A || n == 0x0B || n == 0x0C || n == 0x0D || n == 0x20 ||
    n == 0xA0 || n == 0x1680 || (0x2000 <= n <= 0x200A) || n == 0x2028 ||
    n == 0x2029 || n == 0x202F || n == 0x205F || n == 0x3000 || n == 0xFEFF
  }

  /** The characters Python's `str.strip()` and `int()` treat as white space. */
  predicate IsPySpace(c: char)
  {
    var n := c as int;
    (0x09 <= n <= 0x0D) || (0x1C <= n <= 0x20) || n == 0x85 || n == 0xA0 ||
    n == 0x1680 || (0x2000 <= n <= 0x200A) || n == 0x2028 || n == 0x2029 ||
    n == 0x202F || n == 0x205F || n == 0x3000
  }

  function TrimStart(s: string): (r: string)
    ensures |r| <= |s| && r == s[|s| - |r|..]
    ensures r == [] || !IsJsSpace(r[0])
    ensures forall i :: 0 <= i < |s| - |r| ==> IsJsSpace(s[i])
    decreases |s|
  {
    if |s| > 0 && IsJsSpace(s[0]) then TrimStart(s[1..]) else s
  }

  function TrimEnd(s: string): (r: string)
    ensures |r| <= |s| && r == s[..|r|]
    ensures r == [] || !IsJsSpace(r[|r| - 1])
    ensures forall i :: |r| <= i < |s| ==> IsJsSpace(s[i])
    decreases |s|
  {
    if |s| > 0 && IsJsSpace(s[|s| - 1]) then TrimEnd(s[..|s| - 1]) else s
  }

  /** `String.prototype.trim()`: the longest infix of `s` that neither starts
      nor ends with white space, everything cut off being white space. */
  function Trim(s: string): (r: string)
    ensures |r| <= |s|
    ensures r == [] || (!IsJsSpace(r[0]) && !IsJsSpace(r[|r| - 1]))
    ensures r == [] <==> forall i :: 0 <= i < |s| ==> IsJsSpace(s[i])
  {
    TrimFacts(s);
    TrimEnd(TrimStart(s))
  }

  lemma TrimFacts(s: string)
    ensures var r := TrimEnd(TrimStart(s));
      (r == [] || (!IsJsSpace(r[0]) && !IsJsSpace(r[|r| - 1]))) &&
      (r == [] <==> forall i :: 0 <= i < |s| ==> IsJsSpace(s[i]))
  {
    var t := TrimStart(s);
    var r := TrimEnd(t);
    var k := |s| - |t|;
    assert s[k..] == t;
    if r == [] {
      forall i | k <= i < |s| ensures IsJsSpace(s[i]) {
        assert s[i] == t[i - k];
      }
    } else {
      assert r[0] == t[0];
      assert !IsJsSpace(s[k]);
    }
  }

  lemma TrimIdempotent(s: string)
    ensures Trim(Trim(s)) == Trim(s)
  {
    var r := Trim(s);
    if r != [] {
      assert TrimStart(r) == r;
      assert TrimEnd(r) == r;
    }
  }

  // ---------------------------------------------------------------------
  // Prefixes and substrings

  predicate StartsWith(s: string, prefix: string)
  {
    |prefix| <= |s| && s[..|prefix|] == prefix
  }

  /** `sub in s` (Python) or `s.includes(sub)` (JavaScript). */
  predicate Contains(s: string, sub: string)
    decreases |s|
  {
    StartsWith(s, sub) || (|s| > 0 && Contains(s[1..], sub))
  }

  /** `Contains` agrees with "occurs at some position". */
  lemma {:induction false} ContainsIffOccurs(s: string, sub: string)
    ensures Contains(s, sub) <==> exists k :: 0 <= k <= |s| && StartsWith(s[k..], sub)
    decreases |s|
  {
    if StartsWith(s, sub) {
      assert s[0..] == s;
    } else if |s| > 0 {
      ContainsIffOccurs(s[1..], sub);
      if Contains(s[1..], sub) {
        var k :| 0 <= k <= |s[1..]| && StartsWith(s[1..][k..], sub);
        assert s[1..][k..] == s[k + 1..];
      } else {
        forall k | 0 <= k <= |s| ensures !StartsWith(s[k..], sub) {
          if k > 0 {
            assert s[1..][k - 1..] == s[k..];
          } else {
            assert s[0..] == s;
          }
        }
      }
    } else {
      assert forall k :: 0 <= k <= |s| ==> k == 0 && s[k..] == s;
    }
  }

  /** A text contains whatever it is built around. */
  lemma ContainsMiddle(a: string, sub: string, b: string)
    ensures Contains(a + sub + b, sub)
  {
    var s := a + sub + b;
    assert s[|a|..][..|sub|] == sub;
    ContainsIffOccurs(s, sub);
  }

  /** Text put in front keeps every occurrence. */
  lemma {:induction false} ContainsAfter(pre: string, s: string, sub: string)
    requires Contains(s, sub)
    ensures Contains(pre + s, sub)
    decreases |pre|
  {
    if |pre| == 0 {
      assert pre + s == s;
    } else {
      ContainsAfter(pre[1..], s, sub);
      assert (pre + s)[1..] == pre[1..] + s;
    }
  }

  lemma ContainsEmpty(s: string)
    ensures Contains(s, "")
  {
  }

  /** Python's `sub in s` for the lowered forms: case-insensitive containment. */
  predicate ContainsIgnoringCase(s: string, sub: string)
  {
    Contains(Lower(s), Lower(sub))
  }

  // ---------------------------------------------------------------------
  // Joining and splitting

  /** `sep.join(parts)` (Python) or `parts.join(sep)` (JavaScript). */
  function Join(sep: string, parts: seq<string>): (r: string)
    ensures |parts| == 1 ==> r == parts[0]
    decreases |parts|
  {
    if |parts| == 0 then ""
    else if |parts| == 1 then parts[0]
    else parts[0] + sep + Join(sep, parts[1..])
  }

  function SumLengths(parts: seq<string>): nat
  {
    if |parts| == 0 then 0 else |parts[0]| + SumLengths(parts[1..])
  }

  /** A join of n parts adds exactly n - 1 separators. */
  lemma {:induction false} JoinLength(sep: string, parts: seq<string>)
    requires |parts| > 0
    ensures |Join(sep, parts)| == SumLengths(parts) + (|parts| - 1) * |sep|
    decreases |parts|
  {
    if |parts| > 1 {
      JoinLength(sep, parts[1..]);
    }
  }

  predicate HasNo(s: string, c: char) { forall i :: 0 <= i < |s| ==> s[i] != c }

  function IndexOfChar(s: string, c: char): (i: nat)
    requires c in s
    ensures i < |s| && s[i] == c && HasNo(s[..i], c)
  {
    if s[0] == c then 0 else 1 + IndexOfChar(s[1..], c)
  }

  /** `s.split(sep)` for a one-character separator (Python and JavaScript
      agree): the pieces between separators, at least one piece. */
  function Split(s: string, sep: char): (r: seq<string>)
    ensures |r| >= 1
    ensures forall i :: 0 <= i < |r| ==> HasNo(r[i], sep)
    decreases |s|
  {
    if sep !in s then
      assert HasNo(s, sep);
      [s]
    else
      var i := IndexOfChar(s, sep);
      [s[..i]] + Split(s[i + 1..], sep)
  }

  /** Splitting and joining with the same separator gives the text back. */
  lemma {:induction false} JoinSplit(s: string, sep: char)
    ensures Join([sep], Split(s, sep)) == s
    decreases |s|
  {
    if sep in s {
      var i := IndexOfChar(s, sep);
      JoinSplit(s[i + 1..], sep);
      var rest := Split(s[i + 1..], sep);
      assert Split(s, sep) == [s[..i]] + rest;
      assert ([s[..i]] + rest)[1..] == rest;
      assert s == s[..i] + [sep] + s[i + 1..];
    }
  }

  /** Splitting a text that starts with a separator-free piece and the
      separator gives that piece, then the pieces of the rest. */
  lemma SplitCons(p: string, rest: string, sep: char)
    requires HasNo(p, sep)
    ensures Split(p + [sep] + rest, sep) == [p] + Split(rest, sep)
  {
    var s := p + [sep] + rest;
    assert s[|p|] == sep;
    assert s[..|p|] == p;
    var i := IndexOfChar(s, sep);
    assert i == |p|;
    assert s[i + 1..] == rest;
  }

  /** Joining pieces that contain no separator and splitting again gives the
      pieces back. */
  lemma {:induction false} SplitJoin(parts: seq<string>, sep: char)
    requires |parts| >= 1
    requires forall i :: 0 <= i < |parts| ==> HasNo(parts[i], sep)
    ensures Split(Join([sep], parts), sep) == parts
    decreases |parts|
  {
    if |parts| == 1 {
      assert sep !in parts[0];
    } else {
      var rest := Join([sep], parts[1..]);
      assert Join([sep], parts) == parts[0] + [sep] + rest;
      SplitCons(parts[0], rest, sep);
      SplitJoin(parts[1..], sep);
      assert parts == [parts[0]] + parts[1..];
    }
  }

  // ---------------------------------------------------------------------
  // Replacement

  /** Python's `s.replace(pat, rep)` for a non-empty pattern: every
      occurrence found scanning left to right, without overlaps. */
  function ReplaceAll(s: string, pat: string, rep: string): string
    requires |pat| > 0
    decreases |s|
  {
    if |s| < |pat| then s
    else if s[..|pat|] == pat then rep + ReplaceAll(s[|pat|..], pat, rep)
    else [s[0]] + ReplaceAll(s[1..], pat, rep)
  }

  /** Text that does not contain the pattern is left as it is. */
  lemma {:induction false} ReplaceAllAbsent(s: string, pat: string, rep: string)
    requires |pat| > 0
    requires !Contains(s, pat)
    ensures ReplaceAll(s, pat, rep) == s
    decreases |s|
  {
    if |s| >= |pat| {
      ReplaceAllAbsent(s[1..], pat, rep);
      assert [s[0]] + s[1..] == s;
    }
  }

  /** A leading occurrence is replaced and the rest is scanned as before. */
  lemma ReplaceAllLeading(pat: string, rest: string, rep: string)
    requires |pat| > 0
    ensures ReplaceAll(pat + rest, pat, rep) == rep + ReplaceAll(rest, pat, rep)
  {
    assert (pat + rest)[..|pat|] == pat;
    assert (pat + rest)[|pat|..] == rest;
  }

  // ---------------------------------------------------------------------
  // Stripping a given character (Python `s.strip(chars)` with one character)

  function StripStart(s: string, c: char): (r: string)
    ensures |r| <= |s| && r == s[|s| - |r|..]
    ensures r == [] || r[0] != c
    ensures forall i :: 0 <= i < |s| - |r| ==> s[i] == c
    decreases |s|
  {
    if |s| > 0 && s[0] == c then StripStart(s[1..], c) else s
  }

  function StripEnd(s: string, c: char): (r: string)
    ensures |r| <= |s| && r == s[..|r|]
    ensures r == [] || r[|r| - 1] != c
    ensures forall i :: |r| <= i < |s| ==> s[i] == c
    decreases |s|
  {
    if |s| > 0 && s[|s| - 1] == c then StripEnd(s[..|s| - 1], c) else s
  }

  function Strip(s: string, c: char): string
  {
    StripEnd(StripStart(s, c), c)
  }

  /** What `Strip` leaves neither starts nor ends with the stripped character. */
  lemma StripEnds(s: string, c: char)
    ensures var r := Strip(s, c); r == [] || (r[0] != c && r[|r| - 1] != c)
  {
    var t := StripStart(s, c);
    var r := StripEnd(t, c);
    if r != [] {
      assert r[0] == t[0];
    }
  }

  // ---------------------------------------------------------------------
  // Ordering (JavaScript `<` on strings, compared here by code point)

  predicate Less(a: string, b: string)
    decreases |a|
  {
    if |a| == 0 then |b| > 0
    else |b| > 0 && (a[0] < b[0] || (a[0] == b[0] && Less(a[1..], b[1..])))
  }

  lemma {:induction false} LessIrreflexive(a: string)
    ensures !Less(a, a)
    decreases |a|
  {
    if |a| > 0 {
      LessIrreflexive(a[1..]);
    }
  }

  lemma {:induction false} LessTransitive(a: string, b: string, c: string)
    requires Less(a, b) && Less(b, c)
    ensures Less(a, c)
    decreases |a|
  {
    if |a| > 0 && a[0] == b[0] && b[0] == c[0] {
      LessTransitive(a[1..], b[1..], c[1..]);
    }
  }

  lemma {:induction false} LessTotal(a: string, b: string)
    ensures a == b || Less(a, b) || Less(b, a)
    decreases |a|
  {
    if |a| > 0 && |b| > 0 && a[0] == b[0] {
      LessTotal(a[1..], b[1..]);
      if a[1..] == b[1..] {
        assert a == [a[0]] + a[1..] && b == [b[0]] + b[1..];
      }
    }
  }

  lemma LessAsymmetric(a: string, b: string)
    requires Less(a, b)
    ensures !Less(b, a)
  {
    if Less(b, a) {
      LessTransitive(a, b, a);
      LessIrreflexive(a);
    }
  }

  // ---------------------------------------------------------------------
  // Decimal text

  predicate IsDigit(c: char) { '0' <= c <= '9' }

  predicate AllDigits(s: string) { forall i :: 0 <= i < |s| ==> IsDigit(s[i]) }

  function DigitChar(d: nat): char
    requires d < 10
  {
    ('0' as int + d) as char
  }

  function DigitValue(c: char): nat
    requires IsDigit(c)
  {
    c as int - '0' as int
  }

  /** `str(n)` for a non-negative integer: its decimal digits, without a
      leading zero. */
  function NatToString(n: nat): (r: string)
    ensures |r| >= 1 && AllDigits(r)
    ensures |r| > 1 ==> r[0] != '0'
  {
    if n < 10 then [DigitChar(n)] else NatToString(n / 10) + [DigitChar(n % 10)]
  }

  function DigitsValue(s: string): nat
    requires AllDigits(s)
  {
    if |s| == 0 then 0 else DigitsValue(s[..|s| - 1]) * 10 + DigitValue(s[|s| - 1])
  }

  /** Reading the decimal text of a number back gives the number. */
  lemma {:induction false} DigitsValueOfNatToString(n: nat)
    ensures DigitsValue(NatToString(n)) == n
  {
    if n >= 10 {
      DigitsValueOfNatToString(n / 10);
      var r := NatToString(n);
      assert r[..|r| - 1] == NatToString(n / 10);
    }
  }

  lemma NatToStringInjective(m: nat, n: nat)
    requires NatToString(m) == NatToString(n)
    ensures m == n
  {
    DigitsValueOfNatToString(m);
    DigitsValueOfNatToString(n);
  }

  /** `str(i)` for any integer. */
  function IntToString(i: int): string
  {
    if i < 0 then "-" + NatToString(-i) else NatToString(i)
  }

  function PyStripStart(s: string): (r: string)
    decreases |s|
  {
    if |s| > 0 && IsPySpace(s[0]) then PyStripStart(s[1..]) else s
  }

  function PyStripEnd(s: string): (r: string)
    decreases |s|
  {
    if |s| > 0 && IsPySpace(s[|s| - 1]) then PyStripEnd(s[..|s| - 1]) else s
  }

  /** The digit part `int` accepts: decimal digits, where a single `_` may
      separate two digits. */
  predicate UnderscoredDigits(d: string)
    decreases |d|
  {
    |d| > 0 && IsDigit(d[0]) &&
    (|d| == 1 || (if d[1] == '_' then UnderscoredDigits(d[2..]) else UnderscoredDigits(d[1..])))
  }

  /** The text without its underscores. */
  function DropUnderscores(d: string): (r: string)
    ensures |r| <= |d|
    decreases |d|
  {
    if |d| == 0 then "" else (if d[0] == '_' then "" else [d[0]]) + DropUnderscores(d[1..])
  }

  /** Underscored digits lose only their separators, leaving digits. */
  lemma {:induction false} UnderscoredDigitsDrop(d: string)
    requires UnderscoredDigits(d)
    ensures |DropUnderscores(d)| > 0 && AllDigits(DropUnderscores(d))
    decreases |d|
  {
    if |d| > 1 {
      if d[1] == '_' {
        UnderscoredDigitsDrop(d[2..]);
        assert DropUnderscores(d[1..]) == DropUnderscores(d[2..]);
      } else {
        UnderscoredDigitsDrop(d[1..]);
      }
    }
  }

  /** A plain digit text is an underscored one with nothing to drop. */
  lemma {:induction false} PlainDigitsUnderscored(d: string)
    requires |d| > 0 && AllDigits(d)
    ensures UnderscoredDigits(d) && DropUnderscores(d) == d
    decreases |d|
  {
    if |d| > 1 {
      PlainDigitsUnderscored(d[1..]);
    }
  }

  /** The value of an underscored digit text. */
  function UnderscoredValue(d: string): nat
    requires UnderscoredDigits(d)
  {
    UnderscoredDigitsDrop(d);
    DigitsValue(DropUnderscores(d))
  }

  /** Python's `int(text)`: optional surrounding white space, an optional
      sign and decimal digits, single underscores allowed between digits;
      anything else is a ValueError. */
  function ParseInt(text: string): Result<int>
  {
    var t := PyStripEnd(PyStripStart(text));
    if |t| > 0 && (t[0] == '-' || t[0] == '+') then
      var d := t[1..];
      if UnderscoredDigits(d) then
        var v: int := UnderscoredValue(d);
        Ok(if t[0] == '-' then -v else v)
      else Err("ValueError")
    else if UnderscoredDigits(t) then Ok(UnderscoredValue(t))
    else Err("ValueError")
  }

  /** An underscore between digits is read as if absent. */
  lemma ParseIntUnderscored()
    ensures ParseInt("2_0") == Ok(20)
  {
    assert UnderscoredDigits("0");
    assert UnderscoredDigits("2_0");
    assert DropUnderscores("2_0") == "20";
    assert "20"[..1] == "2" && "2"[..0] == "";
    assert DigitsValue("20") == 20;
    PyStripNoSpace("2_0");
  }

  /** A leading, trailing or doubled underscore is refused. */
  lemma ParseIntMisplacedUnderscores()
    ensures ParseInt("_20").Err? && ParseInt("20_").Err? && ParseInt("2__0").Err?
  {
    PyStripNoSpace("_20");
    PyStripNoSpace("20_");
    assert !UnderscoredDigits("_");
    assert !UnderscoredDigits("0_");
    PyStripNoSpace("2__0");
    assert !UnderscoredDigits("_0");
  }

  lemma {:induction false} PyStripNoSpace(s: string)
    requires |s| > 0 && !IsPySpace(s[0]) && !IsPySpace(s[|s| - 1])
    ensures PyStripEnd(PyStripStart(s)) == s
  {
    assert PyStripStart(s) == s;
  }

  lemma {:induction false} ParseIntDigits(s: string)
    requires |s| > 0 && AllDigits(s)
    ensures ParseInt(s) == Ok(DigitsValue(s))
  {
    PyStripNoSpace(s);
    PlainDigitsUnderscored(s);
  }

  lemma {:induction false} ParseIntNegative(s: string)
    requires |s| > 1 && s[0] == '-' && AllDigits(s[1..])
    ensures ParseInt(s) == Ok(-(DigitsValue(s[1..]) as int))
  {
    assert PyStripEnd(PyStripStart(s)) == s by {
      assert s[|s| - 1] == s[1..][|s| - 2];
      PyStripNoSpace(s);
    }
    PlainDigitsUnderscored(s[1..]);
  }

  lemma ParseIntMinusSign(t: string, d: string, n: nat)
    requires |t| > 1 && t[0] == '-' && t[1..] == d && AllDigits(d) && DigitsValue(d) == n
    ensures ParseInt(t) == Ok(-(n as int))
  {
    ParseIntNegative(t);
  }

  lemma PrependFacts(c: char, d: string)
    ensures |[c] + d| == |d| + 1 && ([c] + d)[0] == c && ([c] + d)[1..] == d
  {
  }

  /** A minus sign before decimal digits reads as the negated value. */
  lemma ParseIntMinusDigits(d: string, n: nat)
    requires |d| > 0 && AllDigits(d) && DigitsValue(d) == n
    ensures ParseInt("-" + d) == Ok(-(n as int))
  {
    PrependFacts('-', d);
    ParseIntMinusSign("-" + d, d, n);
  }

  lemma ParseIntOfNegated(n: nat)
    requires n > 0
    ensures ParseInt("-" + NatToString(n)) == Ok(-(n as int))
  {
    DigitsValueOfNatToString(n);
    ParseIntMinusDigits(NatToString(n), n);
  }

  lemma ParseIntOfNat(n: nat)
    ensures ParseInt(NatToString(n)) == Ok(n)
  {
    DigitsValueOfNatToString(n);
    ParseIntDigits(NatToString(n));
  }

  lemma ParseIntOfNegativeInt(i: int)
    requires i < 0
    ensures ParseInt(IntToString(i)) == Ok(i)
  {
    var n: nat := -i;
    ParseIntOfNegated(n);
    assert -(n as int) == i;
    assert IntToString(i) == "-" + NatToString(n);
  }

  /** `int(str(i)) == i`. */
  lemma ParseIntToString(i: int)
    ensures ParseInt(IntToString(i)) == Ok(i)
  {
    if i < 0 {
      ParseIntOfNegativeInt(i);
    } else {
      ParseIntOfNat(i);
    }
  }
}
