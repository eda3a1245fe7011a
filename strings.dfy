/**
 * The three `String` operations the app relies on: `contains` (substring
 * search), `lowercased()` and `trimmingCharacters(in: .whitespacesAndNewlines)`.
 * A Swift string is modelled as a sequence of Unicode scalar values.
 */
module Strings {

  /** `s.contains(k)`: k occurs in s as a contiguous run. */
  predicate Contains(s: string, k: string)
    ensures Contains(s, k) ==> |k| <= |s|
  {
    exists i :: 0 <= i <= |s| - |k| && s[i..][..|k|] == k
  }

  /** An occurrence of an occurrence is an occurrence. */
  lemma ContainsTransitive(s: string, k: string, k': string)
    requires Contains(s, k) && Contains(k, k')
    ensures Contains(s, k')
  {
    var i :| 0 <= i <= |s| - |k| && s[i..][..|k|] == k;
    var j :| 0 <= j <= |k| - |k'| && k[j..][..|k'|] == k';
    forall m | 0 <= m < |k'| ensures s[i + j..][..|k'|][m] == k'[m] {
      assert k'[m] == k[j + m];
      assert k[j + m] == s[i..][..|k|][j + m];
    }
    assert s[i + j..][..|k'|] == k';
  }

  /** Every character of an occurring keyword is a character of the text. */
  lemma ContainsHasChar(s: string, k: string, j: int)
    requires Contains(s, k) && 0 <= j < |k|
    ensures k[j] in s
  {
    var i :| 0 <= i <= |s| - |k| && s[i..][..|k|] == k;
    assert s[i + j] == k[j];
  }

  /** A keyword with a character the text lacks does not occur in it. */
  lemma MissingChar(s: string, k: string, j: int)
    requires 0 <= j < |k| && k[j] !in s
    ensures !Contains(s, k)
  {
    if Contains(s, k) {
      ContainsHasChar(s, k, j);
    }
  }

  /** Occurrences in a text no longer than the keyword, and of a one-character keyword. */
  lemma ContainsShort(s: string, k: string)
    ensures |k| > |s| ==> !Contains(s, k)
    ensures |k| == |s| ==> (Contains(s, k) <==> s == k)
    ensures |k| == 1 ==> (Contains(s, k) <==> k[0] in s)
  {
    if |k| == |s| {
      assert s[0..][..|k|] == s;
    }
    if |k| == 1 {
      if k[0] in s {
        var i :| 0 <= i < |s| && s[i] == k[0];
        assert s[i..][..1] == k;
      }
    }
  }

  /**
   * A keyword that does not contain the character c cannot straddle an
   * occurrence of c, so it occurs on one side or the other.
   */
  lemma NotContainsAcross(a: string, c: char, b: string, k: string)
    requires c !in k && !Contains(a, k) && !Contains(b, k)
    ensures !Contains(a + [c] + b, k)
  {
    var s := a + [c] + b;
    forall i | 0 <= i <= |s| - |k|
      ensures s[i..][..|k|] != k
    {
      if i + |k| <= |a| {
        assert s[i..][..|k|] == a[i..][..|k|];
      } else if i > |a| {
        assert s[i..][..|k|] == b[i - |a| - 1..][..|k|];
      } else {
        assert s[i..][..|k|][|a| - i] == c;
      }
    }
  }

  // ---------------------------------------------------------------- case

  /** Lower-casing of one character (the ASCII letters A-Z). */
  function LowerChar(c: char): char {
    if 'A' <= c <= 'Z' then (c as int + 32) as char else c
  }

  predicate IsUpperAscii(c: char) {
    'A' <= c <= 'Z'
  }

  /**
   * `s.lowercased()`: same length, no upper-case letter left, every other
   * character kept, and each position lowers to what the input's lowers to.
   */
  function Lower(s: string): (r: string)
    ensures |r| == |s|
    ensures forall i :: 0 <= i < |r| ==> !IsUpperAscii(r[i])
    ensures forall i :: 0 <= i < |s| && !IsUpperAscii(s[i]) ==> r[i] == s[i]
    ensures forall i :: 0 <= i < |s| ==> LowerChar(r[i]) == LowerChar(s[i])
  {
    seq(|s|, i requires 0 <= i < |s| => LowerChar(s[i]))
  }

  /** Lower-casing works character by character, so it distributes over concatenation. */
  lemma LowerConcat(a: string, b: string)
    ensures Lower(a + b) == Lower(a) + Lower(b)
  {
    assert forall i :: 0 <= i < |a + b| ==> Lower(a + b)[i] == (Lower(a) + Lower(b))[i];
  }

  /** Lower-casing a lower-cased string changes nothing. */
  lemma LowerIdempotent(s: string)
    ensures Lower(Lower(s)) == Lower(s)
  {
  }

  // ---------------------------------------------------------- whitespace

  /**
   * Membership in `CharacterSet.whitespacesAndNewlines`, taken as its
   * documented definition: general category Zs, tab, U+000A to U+000D,
   * U+0085, U+2028 and U+2029.
   */
  predicate IsWhitespace(c: char) {
    || ('\t' <= c <= '\r')
    || c == ' '
    || c == '\U{0085}'
    || c == '\U{00A0}'
    || c == '\U{1680}'
    || ('\U{2000}' <= c <= '\U{200A}')
    || c == '\U{2028}'
    || c == '\U{2029}'
    || c == '\U{202F}'
    || c == '\U{205F}'
    || c == '\U{3000}'
  }

  predicate AllWhitespace(s: string) {
    forall i :: 0 <= i < |s| ==> IsWhitespace(s[i])
  }

  /** Neither the first nor the last character is whitespace. */
  predicate IsTrimmed(s: string) {
    s == [] || (!IsWhitespace(s[0]) && !IsWhitespace(s[|s| - 1]))
  }

  /** Drops the leading whitespace: the result is the suffix of s that starts at its first non-whitespace character. */
  function TrimLeading(s: string): (r: string)
    ensures |r| <= |s| && r == s[|s| - |r|..]
    ensures AllWhitespace(s[..|s| - |r|])
    ensures r == [] || !IsWhitespace(r[0])
  {
    if |s| > 0 && IsWhitespace(s[0]) then
      var r := TrimLeading(s[1..]);
      assert s[..|s| - |r|] == [s[0]] + s[1..][..|s[1..]| - |r|];
      r
    else s
  }

  /** Drops the trailing whitespace: the result is the prefix of s that ends at its last non-whitespace character. */
  function TrimTrailing(s: string): (r: string)
    ensures |r| <= |s| && r == s[..|r|]
    ensures AllWhitespace(s[|r|..])
    ensures r == [] || !IsWhitespace(r[|r| - 1])
  {
    if |s| > 0 && IsWhitespace(s[|s| - 1]) then
      var p := s[..|s| - 1];
      var r := TrimTrailing(p);
      assert p[..|r|] == s[..|r|];
      assert s[|r|..] == p[|r|..] + [s[|s| - 1]];
      r
    else s
  }

  /**
   * `s.trimmingCharacters(in: .whitespacesAndNewlines)`: the result is a
   * contiguous part of s, everything cut off on either side is whitespace,
   * and the result itself has no surrounding whitespace.
   */
  function Trim(s: string): (r: string)
    ensures IsTrimmed(r)
    ensures exists i :: 0 <= i && i + |r| <= |s| && r == s[i..i + |r|]
                        && AllWhitespace(s[..i]) && AllWhitespace(s[i + |r|..])
  {
    var t := TrimLeading(s);
    var r := TrimTrailing(t);
    TrimParts(s, t, r);
    var i := |s| - |t|;
    assert 0 <= i && i + |r| <= |s| && r == s[i..i + |r|];
    r
  }

  /** Trailing trimming of a suffix, read back in terms of the whole string. */
  lemma TrimParts(s: string, t: string, r: string)
    requires |t| <= |s| && t == s[|s| - |t|..] && AllWhitespace(s[..|s| - |t|])
    requires t == [] || !IsWhitespace(t[0])
    requires |r| <= |t| && r == t[..|r|] && AllWhitespace(t[|r|..])
    requires r == [] || !IsWhitespace(r[|r| - 1])
    ensures IsTrimmed(r)
    ensures var i := |s| - |t|;
      r == s[i..i + |r|] && AllWhitespace(s[..i]) && AllWhitespace(s[i + |r|..])
  {
    var i := |s| - |t|;
    if r != [] {
      assert r[0] == t[0];
    }
    forall m | 0 <= m < |r| ensures s[i..i + |r|][m] == r[m] {
      assert r[m] == t[m];
      assert t[m] == s[i + m];
    }
    assert s[i + |r|..] == t[|r|..];
  }

  /** A string with no surrounding whitespace passes through `Trim` unchanged. */
  lemma TrimTrimmed(s: string)
    requires IsTrimmed(s)
    ensures Trim(s) == s
  {
    var r := Trim(s);
    var i :| 0 <= i && i + |r| <= |s| && r == s[i..i + |r|]
             && AllWhitespace(s[..i]) && AllWhitespace(s[i + |r|..]);
  }

  /** Trimming twice is trimming once. */
  lemma TrimIdempotent(s: string)
    ensures Trim(Trim(s)) == Trim(s)
  {
    TrimTrimmed(Trim(s));
  }
}
