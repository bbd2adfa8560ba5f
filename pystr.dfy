/**
 * The handful of Python `str` operations the modelled code relies on,
 * with Python's semantics: `lstrip`/`rstrip`/`strip` with a character set,
 * `strip()` on whitespace, `startswith`, `in`, `replace`, `split(sep)[0]`,
 * `str(int)` and the `repr` of a list of plain strings.
 */
module PyStr {
  import opened Wrappers

  /** The characters for which Python's `str.isspace()` holds; `strip()` with no argument removes them. */
  const Whitespace: set<char> :=
    {' ', '\t', '\n', '\r', '\U{B}', '\U{C}', '\U{1C}', '\U{1D}', '\U{1E}', '\U{1F}',
     '\U{85}', '\U{A0}', '\U{1680}', '\U{2000}', '\U{2001}', '\U{2002}', '\U{2003}',
     '\U{2004}', '\U{2005}', '\U{2006}', '\U{2007}', '\U{2008}', '\U{2009}', '\U{200A}',
     '\U{2028}', '\U{2029}', '\U{202F}', '\U{205F}', '\U{3000}'}

  /** The set of the one character `/`, as in `strip("/")`. */
  const Slash: set<char> := {'/'}

  /** `s.lstrip(chars)`: the longest suffix of `s` that does not start with one of `chars`. */
  function LStrip(s: string, chars: set<char>): (r: string)
    ensures |r| <= |s| && r == s[|s| - |r|..]
    ensures r == [] || r[0] !in chars
    ensures forall i :: 0 <= i < |s| - |r| ==> s[i] in chars
  {
    if |s| > 0 && s[0] in chars then LStrip(s[1..], chars) else s
  }

  /** `s.rstrip(chars)`: the longest prefix of `s` that does not end with one of `chars`. */
  function RStrip(s: string, chars: set<char>): (r: string)
    ensures |r| <= |s| && r == s[..|r|]
    ensures r == [] || r[|r| - 1] !in chars
    ensures forall i :: |r| <= i < |s| ==> s[i] in chars
  {
    if |s| > 0 && s[|s| - 1] in chars then RStrip(s[..|s| - 1], chars) else s
  }

  /** `s.strip(chars)`: both ends trimmed; empty exactly when every character of `s` is in `chars`. */
  function Strip(s: string, chars: set<char>): (r: string)
    ensures |r| <= |s|
    ensures r == [] || (r[0] !in chars && r[|r| - 1] !in chars)
    ensures r == [] <==> forall i :: 0 <= i < |s| ==> s[i] in chars
  {
    var l := LStrip(s, chars);
    assert l != [] ==> s[|s| - |l|] == l[0];
    RStrip(l, chars)
  }

  /** `s.strip()`. */
  function StripSpace(s: string): string { Strip(s, Whitespace) }

  /** A text that does not begin with whitespace keeps its first character through `strip()`. */
  lemma StripSpaceFirst(s: string)
    requires s != [] && s[0] !in Whitespace
    ensures StripSpace(s) != [] && StripSpace(s)[0] == s[0]
  {
    assert LStrip(s, Whitespace) == s;
  }

  /** `s.startswith(p)`. */
  predicate StartsWith(s: string, p: string) {
    |p| <= |s| && s[..|p|] == p
  }

  /** `sub in s`. */
  predicate Contains(s: string, sub: string)
    decreases |s|
  {
    StartsWith(s, sub) || (|s| > 0 && Contains(s[1..], sub))
  }

  /** `sub in s` holds as soon as `sub` occurs at some position `i` of `s`. */
  lemma {:induction false} ContainsAt(s: string, sub: string, i: nat)
    requires i + |sub| <= |s| && s[i..i + |sub|] == sub
    ensures Contains(s, sub)
  {
    if i > 0 {
      assert s[1..][i - 1..i - 1 + |sub|] == s[i..i + |sub|];
      ContainsAt(s[1..], sub, i - 1);
    }
  }

  /** Whatever surrounds it, an occurrence of `sub` is found. */
  lemma ContainsInfix(a: string, sub: string, b: string)
    ensures Contains(a + sub + b, sub)
  {
    var s := a + sub + b;
    assert s[|a|..|a| + |sub|] == sub;
    ContainsAt(s, sub, |a|);
  }

  /**
   * `s.replace(pat, rep)` for a non-empty `pat`: occurrences are found from
   * the left and do not overlap, and the text put in is not searched again.
   */
  function ReplaceAll(s: string, pat: string, rep: string): (r: string)
    requires pat != []
    decreases |s|
  {
    if |s| == 0 then []
    else if StartsWith(s, pat) then rep + ReplaceAll(s[|pat|..], pat, rep)
    else [s[0]] + ReplaceAll(s[1..], pat, rep)
  }

  /** Replacing a pattern that does not occur changes nothing. */
  lemma {:induction false} ReplaceAbsent(s: string, pat: string, rep: string)
    requires pat != [] && !Contains(s, pat)
    ensures ReplaceAll(s, pat, rep) == s
    decreases |s|
  {
    if |s| > 0 {
      ReplaceAbsent(s[1..], pat, rep);
    }
  }

  /**
   * A prefix with no `//` inside it and no `/` at its end is left alone by
   * `replace("//", "/")`: the replacement only acts on what follows it.
   */
  lemma {:induction false} ReplaceSlashesAfter(p: string, s: string)
    requires !Contains(p, "//") && (p == [] || p[|p| - 1] != '/')
    ensures ReplaceAll(p + s, "//", "/") == p + ReplaceAll(s, "//", "/")
    decreases |p|
  {
    if |p| > 0 {
      var ps := p + s;
      assert ps[0] == p[0];
      if StartsWith(ps, "//") {
        assert false;
      }
      assert ps[1..] == p[1..] + s;
      assert ReplaceAll(ps, "//", "/") == [ps[0]] + ReplaceAll(ps[1..], "//", "/");
      ReplaceSlashesAfter(p[1..], s);
      assert [ps[0]] + (p[1..] + ReplaceAll(s, "//", "/")) == p + ReplaceAll(s, "//", "/");
    } else {
      assert p + s == s;
    }
  }

  /** After `replace("//", "/")` a string that began with `/` still begins with `/`. */
  lemma ReplaceSlashesLeading(s: string)
    requires |s| > 0 && s[0] == '/'
    ensures var r := ReplaceAll(s, "//", "/"); |r| > 0 && r[0] == '/'
  {
  }

  /** No two neighbouring characters of `s` are both `c`. */
  predicate NoPair(s: string, c: char) {
    forall i :: 0 <= i < |s| - 1 ==> !(s[i] == c && s[i + 1] == c)
  }

  /** Two texts without a doubled `c` are joined without one unless both sides of the seam are `c`. */
  lemma NoPairJoin(a: string, b: string, c: char)
    requires NoPair(a, c) && NoPair(b, c)
    requires a == [] || b == [] || a[|a| - 1] != c || b[0] != c
    ensures NoPair(a + b, c)
  {
    var s := a + b;
    forall i | 0 <= i < |s| - 1 ensures !(s[i] == c && s[i + 1] == c) {
      if i + 1 < |a| {
        assert s[i] == a[i] && s[i + 1] == a[i + 1];
      } else if i + 1 == |a| {
        assert s[i] == a[|a| - 1] && s[i + 1] == b[0];
      } else {
        assert s[i] == b[i - |a|] && s[i + 1] == b[i + 1 - |a|];
      }
    }
  }

  /** A text without a doubled `c` does not contain `[c, c]`. */
  lemma {:induction false} NoPairNotContains(s: string, c: char)
    requires NoPair(s, c)
    ensures !Contains(s, [c, c])
    decreases |s|
  {
    if |s| > 0 {
      assert |s| >= 2 ==> !(s[0] == c && s[1] == c);
      assert |s| >= 2 ==> s[..2][0] == s[0] && s[..2][1] == s[1];
      assert NoPair(s[1..], c) by {
        forall i | 0 <= i < |s[1..]| - 1 ensures !(s[1..][i] == c && s[1..][i + 1] == c) {
          assert s[1..][i] == s[i + 1] && s[1..][i + 1] == s[i + 2];
        }
      }
      NoPairNotContains(s[1..], c);
    }
  }

  /** `s.split(sep)[0]`: everything before the first `sep`, or all of `s` when there is none. */
  function SplitFirst(s: string, sep: char): (r: string)
    ensures |r| <= |s| && r == s[..|r|]
    ensures sep !in r
    ensures |r| == |s| || s[|r|] == sep
  {
    if |s| == 0 || s[0] == sep then [] else [s[0]] + SplitFirst(s[1..], sep)
  }

  predicate IsDigit(c: char) { '0' <= c <= '9' }

  function DigitChar(d: nat): (c: char)
    requires d < 10
    ensures IsDigit(c) && (c as int) - ('0' as int) == d
  {
    (('0' as int) + d) as char
  }

  /** `str(n)` for a natural number: decimal digits without leading zeros. */
  function NatToDecimal(n: nat): (r: string)
    ensures |r| > 0 && forall i :: 0 <= i < |r| ==> IsDigit(r[i])
    ensures r[0] == '0' ==> n == 0
    decreases n
  {
    if n < 10 then [DigitChar(n)] else NatToDecimal(n / 10) + [DigitChar(n % 10)]
  }

  /** `str(n)` for any integer. */
  function IntToDecimal(n: int): (r: string)
    ensures n < 0 <==> (|r| > 0 && r[0] == '-')
  {
    if n < 0 then "-" + NatToDecimal(-n) else NatToDecimal(n)
  }

  /** The value of a string of decimal digits (Python `int(s)` on such a string). */
  function DecimalValue(s: string): nat
    requires forall i :: 0 <= i < |s| ==> IsDigit(s[i])
  {
    if s == [] then 0
    else
      assert IsDigit(s[|s| - 1]);
      DecimalValue(s[..|s| - 1]) * 10 + ((s[|s| - 1] as int) - ('0' as int))
  }

  /** `int(str(n)) == n`. */
  lemma {:induction false} DecimalRoundTrip(n: nat)
    ensures DecimalValue(NatToDecimal(n)) == n
    decreases n
  {
    if n >= 10 {
      DecimalRoundTrip(n / 10);
      var s := NatToDecimal(n);
      assert s[..|s| - 1] == NatToDecimal(n / 10);
    }
  }

  predicate AllDigits(s: string) {
    forall i :: 0 <= i < |s| ==> IsDigit(s[i])
  }

  /**
   * `int(s)` for a text: whitespace around an optional sign and a run of
   * ASCII decimal digits; `None` where Python raises `ValueError`.
   */
  function ParseInt(s: string): (r: Option<int>)
    ensures r.Some? ==> StripSpace(s) != []
  {
    var t := StripSpace(s);
    if t != [] && (t[0] == '-' || t[0] == '+') then
      var digits := t[1..];
      if digits != [] && AllDigits(digits) then
        var v: int := DecimalValue(digits);
        Some(if t[0] == '-' then -v else v)
      else None
    else if t != [] && AllDigits(t) then Some(DecimalValue(t))
    else None
  }

  /** A text that starts and ends with a non-whitespace character is its own `strip()`. */
  lemma StripSpaceNone(s: string)
    requires s != [] && s[0] !in Whitespace && s[|s| - 1] !in Whitespace
    ensures StripSpace(s) == s
  {
    assert LStrip(s, Whitespace) == s;
    assert RStrip(s, Whitespace) == s;
  }

  lemma DigitNotSpace(c: char)
    requires IsDigit(c)
    ensures c !in Whitespace
  {
  }

  /** `int(str(n)) == n` for `n >= 0`: a run of digits without leading zeros reads as its decimal value. */
  lemma ParseIntNatural(n: int)
    requires n >= 0
    ensures ParseInt(IntToDecimal(n)) == Some(n)
  {
    var digits := NatToDecimal(n);
    assert IntToDecimal(n) == digits;
    DecimalRoundTrip(n);
    DigitNotSpace(digits[0]);
    DigitNotSpace(digits[|digits| - 1]);
    StripSpaceNone(digits);
  }

  /** `int(str(n)) == n` for `n < 0`: a minus sign before the digits of `-n`. */
  lemma ParseIntNegative(n: int)
    requires n < 0
    ensures ParseInt(IntToDecimal(n)) == Some(n)
  {
    var digits := NatToDecimal(-n);
    var t := "-" + digits;
    assert IntToDecimal(n) == t;
    DecimalRoundTrip(-n);
    assert AllDigits(digits) && DecimalValue(digits) == -n;
    DigitNotSpace(digits[|digits| - 1]);
    assert t[0] == '-' && t[1..] == digits && t[|t| - 1] == digits[|digits| - 1];
    StripSpaceNone(t);
    assert StripSpace(t) == t;
  }

  /** `int(str(n)) == n` for every integer. */
  lemma ParseIntPrinted(n: int)
    ensures ParseInt(IntToDecimal(n)) == Some(n)
  {
    if n < 0 {
      ParseIntNegative(n);
    } else {
      ParseIntNatural(n);
    }
  }

  /** `repr` of a list of strings that need no escaping: `['a', 'b']`. */
  function ListRepr(xs: seq<string>): (r: string)
    ensures |r| >= 2 && r[0] == '[' && r[|r| - 1] == ']'
  {
    "[" + JoinQuoted(xs) + "]"
  }

  function JoinQuoted(xs: seq<string>): string
  {
    if xs == [] then ""
    else if |xs| == 1 then "'" + xs[0] + "'"
    else "'" + xs[0] + "', " + JoinQuoted(xs[1..])
  }
}
