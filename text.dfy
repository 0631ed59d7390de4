/**
 * The string operations the pipeline's path conventions rely on: substring
 * tests, Python's `str.replace`, ASCII upper-casing, POSIX `dirname`/`join`,
 * and zero-padded decimal formatting.
 */
module Text {
  import opened Results

  predicate StartsWith(s: string, p: string) { |p| <= |s| && s[..|p|] == p }

  predicate EndsWith(s: string, p: string) { |p| <= |s| && s[|s| - |p|..] == p }

  /** Python's `t in s` for strings. */
  predicate Contains(s: string, t: string)
    decreases |s|
  {
    StartsWith(s, t) || (|s| > 0 && Contains(s[1..], t))
  }

  lemma {:induction false} ContainsShorter(s: string, t: string)
    requires Contains(s, t)
    ensures |t| <= |s|
    decreases |s|
  {
    if !StartsWith(s, t) { ContainsShorter(s[1..], t); }
  }

  /** An occurrence at a known position is an occurrence. */
  lemma {:induction false} ContainsAt(s: string, t: string, k: nat)
    requires k + |t| <= |s| && s[k..k + |t|] == t
    ensures Contains(s, t)
    decreases k
  {
    if k > 0 {
      assert s[1..][k - 1..k - 1 + |t|] == s[k..k + |t|];
      ContainsAt(s[1..], t, k - 1);
    }
  }

  /** Between strings of one length, containment is equality. */
  lemma ContainsSameLength(s: string, t: string)
    requires |s| == |t|
    ensures Contains(s, t) <==> s == t
  {
    if Contains(s, t) && !StartsWith(s, t) {
      ContainsShorter(s[1..], t);
    }
  }

  /** ASCII upper-casing, the part of `str.upper` the header tags need. */
  function UpperChar(c: char): char
  {
    if 'a' <= c <= 'z' then (c as int - 32) as char else c
  }

  function Upper(s: string): (r: string)
    ensures |r| == |s| && forall i :: 0 <= i < |s| ==> r[i] == UpperChar(s[i])
  {
    seq(|s|, i requires 0 <= i < |s| => UpperChar(s[i]))
  }

  /** Python's `s.split("_")[0]`: everything before the first underscore. */
  function BeforeUnderscore(s: string): (r: string)
    ensures StartsWith(s, r) && '_' !in r
    ensures |r| < |s| ==> s[|r|] == '_'
  {
    if |s| == 0 || s[0] == '_' then "" else [s[0]] + BeforeUnderscore(s[1..])
  }

  /**
   * Python's `s.replace(pat, rep)`: every non-overlapping occurrence of
   * `pat`, scanning left to right.
   */
  function ReplaceAll(s: string, pat: string, rep: string): string
    requires |pat| > 0
    decreases |s|
  {
    if |s| == 0 then ""
    else if StartsWith(s, pat) then rep + ReplaceAll(s[|pat|..], pat, rep)
    else [s[0]] + ReplaceAll(s[1..], pat, rep)
  }

  /** A suffix that occurs nowhere else is replaced exactly once, at the end. */
  lemma {:induction false} ReplaceSoleSuffix(stem: string, suffix: string, rep: string)
    requires |suffix| > 0
    requires forall k :: 0 <= k < |stem| ==> !StartsWith((stem + suffix)[k..], suffix)
    ensures ReplaceAll(stem + suffix, suffix, rep) == stem + rep
    decreases |stem|
  {
    var s := stem + suffix;
    if |stem| == 0 {
      assert s == suffix && s[|suffix|..] == "";
    } else {
      assert !StartsWith(s[0..], suffix);
      assert s[1..] == stem[1..] + suffix;
      forall k | 0 <= k < |stem| - 1
        ensures !StartsWith((stem[1..] + suffix)[k..], suffix)
      {
        assert (stem[1..] + suffix)[k..] == s[k + 1..];
      }
      ReplaceSoleSuffix(stem[1..], suffix, rep);
      assert [s[0]] + (stem[1..] + rep) == stem + rep;
    }
  }

  // ------------------------------------------------------- POSIX path helpers

  /** Index of the last '/', or -1. */
  function LastSlash(s: string): (k: int)
    ensures -1 <= k < |s|
    ensures k >= 0 ==> s[k] == '/'
    ensures forall j :: k < j < |s| ==> s[j] != '/'
  {
    if |s| == 0 then -1 else if s[|s| - 1] == '/' then |s| - 1 else LastSlash(s[..|s| - 1])
  }

  function StripTrailingSlashes(s: string): (r: string)
    ensures StartsWith(s, r)
    ensures |r| > 0 ==> r[|r| - 1] != '/'
  {
    if |s| > 0 && s[|s| - 1] == '/' then StripTrailingSlashes(s[..|s| - 1]) else s
  }

  predicate AllSlashes(s: string) { forall i :: 0 <= i < |s| ==> s[i] == '/' }

  /** `os.path.dirname` of the POSIX path module. */
  function Dirname(p: string): string
  {
    var head := p[..LastSlash(p) + 1];
    if |head| > 0 && !AllSlashes(head) then StripTrailingSlashes(head) else head
  }

  /** `os.path.join(a, b)` of the POSIX path module. */
  function Join(a: string, b: string): string
  {
    if StartsWith(b, "/") then b
    else if |a| == 0 || EndsWith(a, "/") then a + b
    else a + "/" + b
  }

  /** The folder of `d/f` is `d` when `f` names a file (no '/') and `d` has no trailing '/'. */
  lemma DirnameOfChild(d: string, f: string)
    requires |d| > 0 && d[|d| - 1] != '/'
    requires '/' !in f
    ensures Dirname(d + "/" + f) == d
  {
    var p := d + "/" + f;
    assert p[|d|] == '/';
    assert forall j :: |d| < j < |p| ==> p[j] == f[j - |d| - 1];
    assert LastSlash(p) == |d|;
    var head := p[..|d| + 1];
    assert head == d + "/";
    assert !AllSlashes(head) by { assert head[|d| - 1] != '/'; }
    assert head[..|head| - 1] == d;
    assert StripTrailingSlashes(head) == StripTrailingSlashes(d) == d;
  }

  lemma JoinPlain(a: string, b: string)
    requires |a| > 0 && a[|a| - 1] != '/'
    requires |b| > 0 && b[0] != '/'
    ensures Join(a, b) == a + "/" + b
  {
  }

  // ------------------------------------------------------ decimal formatting

  predicate IsDigit(c: char) { '0' <= c <= '9' }

  predicate IsDigits(s: string) { forall i :: 0 <= i < |s| ==> IsDigit(s[i]) }

  function DigitChar(d: nat): (c: char)
    requires d < 10
    ensures IsDigit(c)
  {
    ('0' as int + d) as char
  }

  /** `str(n)` for a non-negative integer. */
  function Decimal(n: nat): (r: string)
    ensures |r| > 0 && IsDigits(r)
    ensures n < 10 ==> |r| == 1
    ensures n < 100 ==> |r| <= 2
    ensures n < 1000 ==> |r| <= 3
    ensures n < 10000 ==> |r| <= 4
  {
    if n < 10 then [DigitChar(n)] else Decimal(n / 10) + [DigitChar(n % 10)]
  }

  function Zeros(k: nat): (r: string)
    ensures |r| == k && IsDigits(r)
  {
    seq(k, _ => '0')
  }

  /** `f"{n:0{width}d}"` for a non-negative integer: left-padded with '0'. */
  function ZeroPadded(n: nat, width: nat): string
  {
    var d := Decimal(n);
    if |d| >= width then d else Zeros(width - |d|) + d
  }

  /** The value of a string of decimal digits. */
  function DigitsValue(s: string): nat
    requires IsDigits(s)
  {
    if |s| == 0 then 0 else 10 * DigitsValue(s[..|s| - 1]) + (s[|s| - 1] as int - '0' as int)
  }

  lemma {:induction false} DecimalRoundTrip(n: nat)
    ensures DigitsValue(Decimal(n)) == n
  {
    if n >= 10 {
      var d := Decimal(n);
      assert d[..|d| - 1] == Decimal(n / 10);
      DecimalRoundTrip(n / 10);
    }
  }

  lemma {:induction false} LeadingZerosIgnored(k: nat, s: string)
    requires IsDigits(s)
    ensures DigitsValue(Zeros(k) + s) == DigitsValue(s)
    decreases |s|, k
  {
    var z := Zeros(k) + s;
    if |s| == 0 {
      assert z == Zeros(k);
      if k > 0 {
        assert z[..|z| - 1] == Zeros(k - 1) + "";
        LeadingZerosIgnored(k - 1, "");
      }
    } else {
      assert z[..|z| - 1] == Zeros(k) + s[..|s| - 1];
      LeadingZerosIgnored(k, s[..|s| - 1]);
    }
  }

  /** Formatting with zero padding can be read back: the padding loses nothing. */
  lemma ZeroPaddedRoundTrip(n: nat, width: nat)
    ensures IsDigits(ZeroPadded(n, width)) && |ZeroPadded(n, width)| >= width
    ensures DigitsValue(ZeroPadded(n, width)) == n
  {
    DecimalRoundTrip(n);
    var d := Decimal(n);
    if |d| < width { LeadingZerosIgnored(width - |d|, d); }
  }

  lemma ZeroPaddedInjective(m: nat, n: nat, width: nat)
    requires ZeroPadded(m, width) == ZeroPadded(n, width)
    ensures m == n
  {
    ZeroPaddedRoundTrip(m, width);
    ZeroPaddedRoundTrip(n, width);
  }

  /** The ASCII whitespace characters that `str.strip` and `int` skip. */
  predicate IsSpace(c: char)
  {
    c == ' ' || c == '\t' || c == '\n' || c == '\r' || c == 11 as char || c == 12 as char
  }

  predicate AllSpaces(s: string) { forall i :: 0 <= i < |s| ==> IsSpace(s[i]) }

  /** `s.lstrip()`: the suffix left after the leading whitespace. */
  function TrimStart(s: string): (r: string)
    ensures |r| <= |s| && r == s[|s| - |r|..]
    ensures AllSpaces(s[..|s| - |r|])
    ensures |r| > 0 ==> !IsSpace(r[0])
  {
    if |s| > 0 && IsSpace(s[0]) then TrimStart(s[1..]) else s
  }

  /** `s.rstrip()`: the prefix left before the trailing whitespace. */
  function TrimEnd(s: string): (r: string)
    ensures |r| <= |s| && r == s[..|r|]
    ensures AllSpaces(s[|r|..])
    ensures |r| > 0 ==> !IsSpace(r[|r| - 1])
  {
    if |s| > 0 && IsSpace(s[|s| - 1]) then TrimEnd(s[..|s| - 1]) else s
  }

  /** `s.strip()`. */
  function Strip(s: string): string { TrimEnd(TrimStart(s)) }

  lemma {:induction false} TrimStartOfSpaces(a: string, s: string)
    requires AllSpaces(a) && |s| > 0 && !IsSpace(s[0])
    ensures TrimStart(a + s) == s
    decreases |a|
  {
    if |a| > 0 {
      assert (a + s)[1..] == a[1..] + s;
      TrimStartOfSpaces(a[1..], s);
    } else {
      assert a + s == s;
    }
  }

  lemma {:induction false} TrimEndOfSpaces(s: string, b: string)
    requires AllSpaces(b) && |s| > 0 && !IsSpace(s[|s| - 1])
    ensures TrimEnd(s + b) == s
    decreases |b|
  {
    if |b| > 0 {
      assert (s + b)[..|s + b| - 1] == s + b[..|b| - 1];
      TrimEndOfSpaces(s, b[..|b| - 1]);
    } else {
      assert s + b == s;
    }
  }

  /** The literal `int` accepts once stripped: an optional sign, then at least one decimal digit. */
  function ParseLiteral(t: string): Option<int>
  {
    if |t| > 0 && (t[0] == '-' || t[0] == '+') then
      var body := t[1..];
      if |body| > 0 && IsDigits(body) then
        var v: int := DigitsValue(body);
        Some(if t[0] == '-' then -v else v)
      else None
    else if |t| > 0 && IsDigits(t) then Some(DigitsValue(t))
    else None
  }

  /**
   * Python's `int(s)` on ASCII text: surrounding whitespace is skipped, then
   * an optional sign and at least one decimal digit must remain.
   */
  function ParseInt(s: string): (r: Option<int>)
    ensures |s| > 0 && IsDigits(s) ==> r == Some(DigitsValue(s))
    ensures |s| > 1 && s[0] == '-' && IsDigits(s[1..]) ==> r == Some(0 - DigitsValue(s[1..]))
    ensures |s| > 1 && s[0] == '+' && IsDigits(s[1..]) ==> r == Some(DigitsValue(s[1..]))
    ensures r.Some? ==> var t := Strip(s);
      |t| > 0 && (IsDigits(t) || (|t| > 1 && (t[0] == '-' || t[0] == '+') && IsDigits(t[1..])))
  {
    StripOfLiteral(s);
    ParseLiteral(Strip(s))
  }

  /** A string that neither starts nor ends with whitespace is its own strip. */
  lemma StripOfLiteral(s: string)
    ensures |s| > 0 && !IsSpace(s[0]) && !IsSpace(s[|s| - 1]) ==> Strip(s) == s
  {
  }

  /** Whitespace around a literal does not change what `int` reads. */
  lemma ParseIntIgnoresSpaces(a: string, s: string, b: string)
    requires AllSpaces(a) && AllSpaces(b)
    requires |s| > 0 && !IsSpace(s[0]) && !IsSpace(s[|s| - 1])
    ensures ParseInt(a + s + b) == ParseInt(s)
  {
    TrimStartOfSpaces(a, s + b);
    assert a + s + b == a + (s + b);
    TrimEndOfSpaces(s, b);
    assert TrimStart(s) == s && TrimEnd(s) == s;
  }
}
