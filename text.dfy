/**
 * The two string operations the classifier is built from: lower-casing
 * (`String.prototype.toLowerCase`, restricted to ASCII letters) and substring
 * containment (`String.prototype.includes`, and `RegExp.prototype.test` for a
 * pattern made only of literal characters).
 */
module Text {

  predicate IsAsciiUpper(c: char) {
    'A' <= c <= 'Z'
  }

  /** Lower-cases one character; only the ASCII letters A-Z change. */
  function LowerChar(c: char): (r: char)
    ensures IsAsciiUpper(c) ==> r as int == c as int + 32
    ensures !IsAsciiUpper(c) ==> r == c
    ensures !IsAsciiUpper(r)
  {
    if IsAsciiUpper(c) then (c as int + 32) as char else c
  }

  /**
   * Upper-cases one character; only the ASCII letters a-z change. The handler
   * never upper-cases: this and `Upper` exist only to state that the
   * User-Agent flag is unchanged by upper-casing.
   */
  function UpperChar(c: char): (r: char)
    ensures LowerChar(r) == LowerChar(c)
  {
    if 'a' <= c <= 'z' then (c as int - 32) as char else c
  }

  /** `s.toLowerCase()` on ASCII: every character lower-cased, in place. */
  function Lower(s: string): (r: string)
    ensures |r| == |s|
    ensures forall i :: 0 <= i < |s| ==> r[i] == LowerChar(s[i])
  {
    seq(|s|, i requires 0 <= i < |s| => LowerChar(s[i]))
  }

  /** `s.toUpperCase()` on ASCII; used only to state a property of the classifier. */
  function Upper(s: string): (r: string)
    ensures |r| == |s|
    ensures forall i :: 0 <= i < |s| ==> r[i] == UpperChar(s[i])
  {
    seq(|s|, i requires 0 <= i < |s| => UpperChar(s[i]))
  }

  /** Two strings are equal once letter case is ignored. */
  predicate SameIgnoringCase(a: string, b: string) {
    |a| == |b| && forall i :: 0 <= i < |a| ==> LowerChar(a[i]) == LowerChar(b[i])
  }

  /** `s.includes(p)`: `p` occurs in `s` at some position (the empty string occurs everywhere). */
  predicate Contains(s: string, p: string) {
    exists i :: 0 <= i <= |s| && p <= s[i..]
  }

  lemma {:induction false} LowerConcat(a: string, b: string)
    ensures Lower(a + b) == Lower(a) + Lower(b)
  {
  }

  /** Lower-casing forgets exactly the letter case. */
  lemma {:induction false} LowerEqualIffSameIgnoringCase(a: string, b: string)
    ensures Lower(a) == Lower(b) <==> SameIgnoringCase(a, b)
  {
  }

  lemma {:induction false} UpperSameIgnoringCase(s: string)
    ensures SameIgnoringCase(Upper(s), s)
  {
  }

  /** An occurrence survives any text put before or after the string. */
  lemma {:induction false} ContainsInExtension(s: string, p: string, pre: string, post: string)
    requires Contains(s, p)
    ensures Contains(pre + s + post, p)
  {
    var i :| 0 <= i <= |s| && p <= s[i..];
    var t := pre + s + post;
    var j := |pre| + i;
    forall k | 0 <= k < |p| ensures p[k] == t[j..][k] {
      assert p[k] == s[i..][k] == s[i + k];
      assert t[j + k] == s[i + k];
    }
    assert j <= |t| && p <= t[j..];
  }

  /** Nothing longer than a string occurs in it. */
  lemma {:induction false} ContainsNoLonger(s: string, p: string)
    requires Contains(s, p)
    ensures |p| <= |s|
  {
  }

  /** An occurrence at a known position. */
  lemma {:induction false} ContainsAt(s: string, p: string, i: nat)
    requires i + |p| <= |s| && s[i..i + |p|] == p
    ensures Contains(s, p)
  {
    assert p <= s[i..];
  }

  /** A non-empty string whose first character never appears does not occur. */
  lemma {:induction false} MissingFirstCharNotContained(s: string, p: string)
    requires p != [] && forall i :: 0 <= i < |s| ==> s[i] != p[0]
    ensures !Contains(s, p)
  {
    forall i | 0 <= i <= |s| ensures !(p <= s[i..]) {
      if i < |s| {
        assert s[i..][0] == s[i];
      }
    }
  }
}
