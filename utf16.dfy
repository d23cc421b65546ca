/** String length as JavaScript reports it, in UTF-16 code units, and the
    cut a length-limited text field applies to its input. */
module Utf16 {

  /** The code units a character takes in UTF-16: two for a character
      beyond the Basic Multilingual Plane (a surrogate pair), one otherwise. */
  function Units(c: char): (n: nat)
    ensures n == 1 || n == 2
    ensures n == 2 <==> c as int > 0xFFFF
  {
    if c as int > 0xFFFF then 2 else 1
  }

  /** The length a JavaScript string reports: its UTF-16 code units. */
  function Utf16Length(s: string): (n: nat)
    ensures |s| <= n <= 2 * |s|
    ensures n == 0 <==> s == []
  {
    if s == [] then 0 else Utf16Length(s[..|s| - 1]) + Units(s[|s| - 1])
  }

  /** The code units of a concatenation add up. */
  lemma {:induction false} Utf16Concat(a: string, b: string)
    ensures Utf16Length(a + b) == Utf16Length(a) + Utf16Length(b)
    decreases |b|
  {
    if b != [] {
      assert (a + b)[..|a + b| - 1] == a + b[..|b| - 1];
      Utf16Concat(a, b[..|b| - 1]);
    } else {
      assert a + b == a;
    }
  }

  /** A prefix never takes more code units than the whole. */
  lemma {:induction false} Utf16PrefixMonotone(s: string, k: nat)
    requires k <= |s|
    ensures Utf16Length(s[..k]) <= Utf16Length(s)
  {
    if k < |s| {
      assert s[..|s| - 1][..k] == s[..k];
      Utf16PrefixMonotone(s[..|s| - 1], k);
    } else {
      assert s[..k] == s;
    }
  }

  /** A text made only of characters beyond the Basic Multilingual Plane
      takes two code units per character. */
  lemma {:induction false} AstralLength(s: string)
    requires forall i :: 0 <= i < |s| ==> s[i] as int > 0xFFFF
    ensures Utf16Length(s) == 2 * |s|
  {
    if s != [] {
      AstralLength(s[..|s| - 1]);
    }
  }

  /** Dropping the last character keeps every shorter prefix. */
  lemma InitKeepsPrefixes(t: string, k: nat)
    requires k < |t|
    ensures t[..|t| - 1][..k] == t[..k]
    ensures t[..k + 1] == (if k + 1 == |t| then t else t[..|t| - 1][..k + 1])
  {
  }

  /** The longest prefix of `t` that fits in `limit` code units: a character
      that would cross the limit is dropped whole, never split. */
  function CutToLimit(t: string, limit: nat): (r: string)
    ensures r <= t
    ensures Utf16Length(r) <= limit
    ensures Utf16Length(t) <= limit ==> r == t
    ensures |r| < |t| ==> Utf16Length(t[..|r| + 1]) > limit
    decreases |t|
  {
    if Utf16Length(t) <= limit then t
    else
      var r := CutToLimit(t[..|t| - 1], limit);
      InitKeepsPrefixes(t, |r|);
      r
  }

  /** No longer prefix of `t` fits: the cut keeps as much as the limit
      allows. */
  lemma CutIsLongest(t: string, limit: nat, k: nat)
    requires |CutToLimit(t, limit)| < k <= |t|
    ensures Utf16Length(t[..k]) > limit
  {
    var r := CutToLimit(t, limit);
    assert t[..k][..|r| + 1] == t[..|r| + 1];
    Utf16PrefixMonotone(t[..k], |r| + 1);
  }
}
