/**
 * The string operations the parser applies to cell text: JavaScript's
 * `String.prototype.trim`, the global replacement `replace(/\s+/g, '-')`,
 * and the decimal rendering of a column number inside a template literal.
 */
module Text {

  /** The characters JavaScript's `\s` matches and `trim` removes:
    * the WhiteSpace and LineTerminator code points of ECMAScript. */
  const Spaces: set<char> := {' ', '\t', '\n', '\r', '\U{000B}', '\U{000C}', '\U{00A0}', '\U{1680}',
    '\U{2000}', '\U{2001}', '\U{2002}', '\U{2003}', '\U{2004}', '\U{2005}', '\U{2006}', '\U{2007}',
    '\U{2008}', '\U{2009}', '\U{200A}', '\U{2028}', '\U{2029}', '\U{202F}', '\U{205F}', '\U{3000}', '\U{FEFF}'}
  predicate IsSpace(ch: char)
  {
    ch in Spaces
  }

  predicate AllSpace(s: string)
  {
    forall k :: 0 <= k < |s| ==> IsSpace(s[k])
  }

  predicate NoSpace(s: string)
  {
    forall k :: 0 <= k < |s| ==> !IsSpace(s[k])
  }

  /** Neither the first nor the last character is white space. */
  predicate Trimmed(s: string)
  {
    s == [] || (!IsSpace(s[0]) && !IsSpace(s[|s| - 1]))
  }

  /** `s` without its leading white space. */
  function TrimStart(s: string): (t: string)
    ensures |t| <= |s|
    ensures s != [] && IsSpace(s[0]) ==> |t| < |s|
  {
    if s != [] && IsSpace(s[0]) then TrimStart(s[1..]) else s
  }

  /** `TrimStart` cuts a prefix of white space and stops at a non-space character. */
  lemma {:induction false} TrimStartSpec(s: string)
    ensures var t := TrimStart(s);
            && t == s[|s| - |t|..]
            && AllSpace(s[..|s| - |t|])
            && (t == [] || !IsSpace(t[0]))
  {
    if s != [] && IsSpace(s[0]) {
      TrimStartSpec(s[1..]);
      var t := TrimStart(s);
      assert s[..|s| - |t|] == [s[0]] + s[1..][..|s| - 1 - |t|];
    }
  }

  /** `s` without its trailing white space. */
  function TrimEnd(s: string): (t: string)
    ensures |t| <= |s|
  {
    if s != [] && IsSpace(s[|s| - 1]) then TrimEnd(s[..|s| - 1]) else s
  }

  /** `TrimEnd` cuts a suffix of white space and stops at a non-space character. */
  lemma {:induction false} TrimEndSpec(s: string)
    ensures var t := TrimEnd(s);
            && t == s[..|t|]
            && AllSpace(s[|t|..])
            && (t == [] || !IsSpace(t[|t| - 1]))
  {
    if s != [] && IsSpace(s[|s| - 1]) {
      var init := s[..|s| - 1];
      TrimEndSpec(init);
      var t := TrimEnd(s);
      assert s[|t|..] == init[|t|..] + [s[|s| - 1]];
    }
  }

  /** JavaScript's `trim`. */
  function Trim(s: string): string
  {
    TrimEnd(TrimStart(s))
  }

  /** What `trim` returns: the slice of `s` left once the white space at
    * both ends is cut off; it starts and ends with a non-space character,
    * or is empty. */
  lemma TrimSpec(s: string)
    ensures Trimmed(Trim(s))
    ensures var t := Trim(s);
            exists i | 0 <= i <= |s| - |t| ::
              t == s[i..i + |t|] && AllSpace(s[..i]) && AllSpace(s[i + |t|..])
  {
    var u := TrimStart(s);
    var t := TrimEnd(u);
    var i := |s| - |u|;
    TrimStartSpec(s);
    TrimEndSpec(u);
    assert t == s[i..i + |t|];
    assert s[i + |t|..] == u[|t|..];
    assert t != [] ==> t[0] == u[0];
  }

  /** `s.replace(/\s+/g, '-')`: every maximal run of white space becomes one '-'. */
  function CollapseSpaces(s: string): (t: string)
    ensures NoSpace(t)
    ensures |t| <= |s|
    ensures NoSpace(s) ==> t == s
    decreases |s|
  {
    if s == [] then []
    else if IsSpace(s[0]) then "-" + CollapseSpaces(TrimStart(s))
    else [s[0]] + CollapseSpaces(s[1..])
  }

  /** A maximal run of white space becomes exactly one '-'. */
  lemma CollapseRun(w: string, s: string)
    requires w != [] && AllSpace(w) && (s == [] || !IsSpace(s[0]))
    ensures CollapseSpaces(w + s) == "-" + CollapseSpaces(s)
  {
    TrimStartSpaces(w, s);
    assert (w + s)[0] == w[0];
  }

  /** Leading trimming removes exactly a leading run of white space. */
  lemma {:induction false} TrimStartSpaces(w: string, s: string)
    requires AllSpace(w) && (s == [] || !IsSpace(s[0]))
    ensures TrimStart(w + s) == s
  {
    if w != [] {
      assert (w + s)[0] == w[0];
      assert (w + s)[1..] == w[1..] + s;
      TrimStartSpaces(w[1..], s);
    } else {
      assert w + s == s;
    }
  }

  predicate IsDigit(ch: char)
  {
    '0' <= ch <= '9'
  }

  predicate AllDigits(s: string)
  {
    forall k :: 0 <= k < |s| ==> IsDigit(s[k])
  }

  function DigitChar(d: nat): (ch: char)
    requires d < 10
    ensures IsDigit(ch)
  {
    ('0' as int + d) as char
  }

  function DigitValue(ch: char): (d: nat)
    requires IsDigit(ch)
    ensures d < 10
  {
    ch as int - '0' as int
  }

  /** The decimal numeral of `n`, as JavaScript renders an integer in a template literal. */
  function NatToDecimal(n: nat): (s: string)
    ensures s != [] && AllDigits(s)
  {
    if n < 10 then [DigitChar(n)] else NatToDecimal(n / 10) + [DigitChar(n % 10)]
  }

  /** The number a numeral of decimal digits denotes. */
  function DecimalValue(s: string): nat
    requires AllDigits(s)
  {
    if s == [] then 0 else 10 * DecimalValue(s[..|s| - 1]) + DigitValue(s[|s| - 1])
  }

  /** Reading the numeral back gives the number. */
  lemma {:induction false} DecimalRoundTrip(n: nat)
    ensures DecimalValue(NatToDecimal(n)) == n
  {
    var s := NatToDecimal(n);
    if n >= 10 {
      DecimalRoundTrip(n / 10);
      assert s[..|s| - 1] == NatToDecimal(n / 10);
    }
  }

  /** Distinct numbers have distinct numerals. */
  lemma DecimalInjective(m: nat, n: nat)
    requires m != n
    ensures NatToDecimal(m) != NatToDecimal(n)
  {
    DecimalRoundTrip(m);
    DecimalRoundTrip(n);
  }
}
