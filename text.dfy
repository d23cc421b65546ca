/** String helpers the screens rely on: JavaScript's `String.prototype.trim`
    and the decimal rendering of integers that template literals perform
    (`${n}`). Rendering is paired with a parser so that the round trip, and
    with it injectivity, is proved. */
module Text {

  /** The characters `trim` removes: ECMAScript's WhiteSpace and
      LineTerminator code points. */
  predicate IsWhitespace(c: char)
  {
    c == '\U{0009}' || c == '\U{000A}' || c == '\U{000B}' || c == '\U{000C}' || c == '\U{000D}'
    || c == ' ' || c == '\U{00A0}' || c == '\U{1680}'
    || ('\U{2000}' <= c <= '\U{200A}')
    || c == '\U{2028}' || c == '\U{2029}' || c == '\U{202F}' || c == '\U{205F}'
    || c == '\U{3000}' || c == '\U{FEFF}'
  }

  predicate AllWhitespace(s: string)
  {
    forall i :: 0 <= i < |s| ==> IsWhitespace(s[i])
  }

  /** The number of whitespace characters `s` starts with. */
  function LeadingSpace(s: string): (n: nat)
    ensures n <= |s|
    ensures forall i :: 0 <= i < n ==> IsWhitespace(s[i])
    ensures n < |s| ==> !IsWhitespace(s[n])
    decreases |s|
  {
    if |s| > 0 && IsWhitespace(s[0]) then 1 + LeadingSpace(s[1..]) else 0
  }

  /** The number of whitespace characters `s` ends with. */
  function TrailingSpace(s: string): (n: nat)
    ensures n <= |s|
    ensures forall i :: |s| - n <= i < |s| ==> IsWhitespace(s[i])
    ensures n < |s| ==> !IsWhitespace(s[|s| - 1 - n])
    decreases |s|
  {
    if |s| > 0 && IsWhitespace(s[|s| - 1]) then 1 + TrailingSpace(s[..|s| - 1]) else 0
  }

  /** `s.trimStart()`. */
  function TrimStart(s: string): string
  {
    s[LeadingSpace(s)..]
  }

  /** `s.trimEnd()`. */
  function TrimEnd(s: string): string
  {
    s[..|s| - TrailingSpace(s)]
  }

  /** `s.trim()`. */
  function Trim(s: string): string
  {
    TrimEnd(TrimStart(s))
  }

  /** Where the text `trim` keeps begins. Trim's lemmas are stated through
      this name rather than through `LeadingSpace` directly, so that the
      solver meets the quantified postconditions of `LeadingSpace` only where
      a proof unfolds this function. */
  function TrimOffset(s: string): (i: nat)
    ensures i <= |s|
  {
    LeadingSpace(s)
  }

  /** The text `trim` keeps, as a slice of `s` between the leading and the
      trailing whitespace. */
  lemma TrimIsSlice(s: string)
    ensures TrimOffset(s) + |Trim(s)| <= |s|
    ensures Trim(s) == s[TrimOffset(s)..TrimOffset(s) + |Trim(s)|]
    ensures s[TrimOffset(s) + |Trim(s)|..] == TrimStart(s)[|Trim(s)|..]
  {
    var i := LeadingSpace(s);
    var a := s[i..];
    var r := a[..|a| - TrailingSpace(a)];
    assert r == s[i..i + |r|];
    assert s[i + |r|..] == a[|r|..];
  }

  /** What trim keeps is a contiguous piece of `s` with whitespace only on
      either side of it, and it neither starts nor ends with whitespace. */
  lemma TrimIsCore(s: string)
    ensures TrimOffset(s) + |Trim(s)| <= |s|
    ensures Trim(s) == s[TrimOffset(s)..TrimOffset(s) + |Trim(s)|]
    ensures AllWhitespace(s[..TrimOffset(s)])
    ensures AllWhitespace(s[TrimOffset(s) + |Trim(s)|..])
    ensures Trim(s) == [] || (!IsWhitespace(Trim(s)[0]) && !IsWhitespace(Trim(s)[|Trim(s)| - 1]))
  {
    TrimIsSlice(s);
    var i := LeadingSpace(s);
    var a := TrimStart(s);
    var r := Trim(s);
    assert AllWhitespace(s[..i]);
    assert AllWhitespace(a[|r|..]);
    if r != [] {
      assert r[0] == a[0] == s[i];
      assert r[|r| - 1] == a[|a| - 1 - TrailingSpace(a)];
    }
  }

  /** Trimmed text is empty exactly when the text is whitespace only. */
  lemma TrimEmptyIff(s: string)
    ensures Trim(s) == [] <==> AllWhitespace(s)
  {
    var a := TrimStart(s);
    if Trim(s) == [] {
      assert TrailingSpace(a) == |a|;
    }
  }

  /** Trimming twice is trimming once. */
  lemma TrimIdempotent(s: string)
    ensures Trim(Trim(s)) == Trim(s)
  {
    var r := Trim(s);
    TrimIsCore(s);
    if r != [] {
      assert LeadingSpace(r) == 0;
      assert TrimStart(r) == r;
      assert TrailingSpace(r) == 0;
    }
  }

  // ----- decimal rendering -----

  predicate IsDigit(c: char)
  {
    '0' <= c <= '9'
  }

  function DigitChar(d: nat): (c: char)
    requires d < 10
    ensures IsDigit(c)
  {
    ['0', '1', '2', '3', '4', '5', '6', '7', '8', '9'][d]
  }

  function DigitValue(c: char): nat
    requires IsDigit(c)
  {
    (c - '0') as nat
  }

  /** The decimal digits of `n`, most significant first, without leading zeros. */
  function NatToString(n: nat): (s: string)
    ensures |s| > 0 && forall i :: 0 <= i < |s| ==> IsDigit(s[i])
    ensures |s| > 1 ==> s[0] != '0'
  {
    if n < 10 then [DigitChar(n)] else NatToString(n / 10) + [DigitChar(n % 10)]
  }

  /** `${n}` for an integer `n`: a minus sign for negatives. */
  function IntToString(n: int): (s: string)
    ensures |s| > 0
    ensures s[0] == '-' <==> n < 0
  {
    if n < 0 then "-" + NatToString(-n) else NatToString(n)
  }

  /** Reads a string of decimal digits. */
  function ParseNat(s: string): nat
    requires forall i :: 0 <= i < |s| ==> IsDigit(s[i])
  {
    if |s| == 0 then 0 else ParseNat(s[..|s| - 1]) * 10 + DigitValue(s[|s| - 1])
  }

  /** Reads an optional minus sign followed by decimal digits. */
  function ParseInt(s: string): int
    requires |s| > 0
    requires forall i :: (if s[0] == '-' then 1 else 0) <= i < |s| ==> IsDigit(s[i])
  {
    if s[0] == '-' then -(ParseNat(s[1..]) as int) else ParseNat(s)
  }

  lemma {:induction false} NatRoundTrip(n: nat)
    ensures ParseNat(NatToString(n)) == n
  {
    var s := NatToString(n);
    if n < 10 {
      assert s[..|s| - 1] == [];
      assert DigitValue(DigitChar(n)) == n;
    } else {
      NatRoundTrip(n / 10);
      assert s[..|s| - 1] == NatToString(n / 10);
      assert DigitValue(DigitChar(n % 10)) == n % 10;
    }
  }

  /** A minus sign in front of a digit string negates what it reads. */
  lemma ParseSigned(d: string)
    requires |d| > 0 && forall i :: 0 <= i < |d| ==> IsDigit(d[i])
    ensures ParseInt(d) == ParseNat(d)
    ensures ParseInt("-" + d) == -(ParseNat(d) as int)
  {
    assert ("-" + d)[1..] == d;
  }

  /** Parsing undoes rendering, so distinct integers render differently. */
  lemma IntRoundTrip(n: int)
    ensures ParseInt(IntToString(n)) == n
  {
    if n < 0 {
      ParseSigned(NatToString(-n));
      NatRoundTrip(-n);
    } else {
      ParseSigned(NatToString(n));
      NatRoundTrip(n);
    }
  }

  lemma IntToStringInjective(m: int, n: int)
    ensures IntToString(m) == IntToString(n) ==> m == n
  {
    IntRoundTrip(m);
    IntRoundTrip(n);
  }
}
