/**
 * The two string builtins the chat core relies on: `String.prototype.trim`
 * and `String.prototype.includes`.
 */
module JsText {

  /**
   * The characters `trim` strips: ECMAScript WhiteSpace (tab, vertical tab,
   * form feed, the byte order mark and every space separator) and
   * LineTerminator (line feed, carriage return, U+2028, U+2029).
   */
  const WHITESPACE: set<char> := {
    '\t', '\U{000B}', '\U{000C}', ' ', '\U{00A0}', '\U{FEFF}', '\U{1680}',
    '\U{2000}', '\U{2001}', '\U{2002}', '\U{2003}', '\U{2004}', '\U{2005}',
    '\U{2006}', '\U{2007}', '\U{2008}', '\U{2009}', '\U{200A}',
    '\U{202F}', '\U{205F}', '\U{3000}',
    '\n', '\r', '\U{2028}', '\U{2029}'
  }

  /** Membership in `WHITESPACE`, written as ranges so that the verifier need not unfold the set. */
  predicate IsWhitespace(c: char) {
    || ('\t' <= c <= '\r') || c == ' ' || c == '\U{00A0}' || c == '\U{1680}'
    || ('\U{2000}' <= c <= '\U{200A}') || ('\U{2028}' <= c <= '\U{2029}')
    || c == '\U{202F}' || c == '\U{205F}' || c == '\U{3000}' || c == '\U{FEFF}'
  }

  /** The ranges describe exactly the listed characters. */
  lemma SameWhitespace(c: char)
    ensures IsWhitespace(c) <==> c in WHITESPACE
  {
  }

  /** Every character of `s` at an index in `[lo, hi)` is whitespace. */
  predicate WhitespaceBetween(s: string, lo: int, hi: int)
    requires 0 <= lo <= hi <= |s|
  {
    forall i :: lo <= i < hi ==> IsWhitespace(s[i])
  }

  predicate AllWhitespace(s: string) {
    WhitespaceBetween(s, 0, |s|)
  }

  /** `r` is a slice of `s` with nothing but whitespace on either side of it. */
  ghost predicate SliceAmidWhitespace(s: string, r: string) {
    exists a :: 0 <= a <= |s| - |r| && r == s[a..a + |r|]
                && WhitespaceBetween(s, 0, a) && WhitespaceBetween(s, a + |r|, |s|)
  }

  /**
   * `s.trim()`: a contiguous slice of `s` that neither starts nor ends with
   * whitespace, everything cut away being whitespace; it is empty exactly
   * when `s` is all whitespace. Whitespace is cut one character at a time,
   * first from the front, then from the back.
   */
  function Trim(s: string): (r: string)
    ensures SliceAmidWhitespace(s, r)
    ensures r == [] || (!IsWhitespace(r[0]) && !IsWhitespace(r[|r| - 1]))
    ensures r == [] <==> AllWhitespace(s)
    decreases |s|
  {
    if s == [] then
      assert s == s[0..0] && WhitespaceBetween(s, 0, 0);
      s
    else if IsWhitespace(s[0]) then
      var r := Trim(s[1..]);
      CutFront(s, r);
      r
    else if IsWhitespace(s[|s| - 1]) then
      var r := Trim(s[..|s| - 1]);
      CutBack(s, r);
      r
    else
      assert s == s[0..0 + |s|] && WhitespaceBetween(s, 0, 0) && WhitespaceBetween(s, |s|, |s|);
      s
  }

  /** Trimming after cutting one leading whitespace character trims `s`. */
  lemma CutFront(s: string, r: string)
    requires s != [] && IsWhitespace(s[0])
    requires SliceAmidWhitespace(s[1..], r)
    requires r == [] <==> AllWhitespace(s[1..])
    ensures SliceAmidWhitespace(s, r)
    ensures r == [] <==> AllWhitespace(s)
  {
    var t := s[1..];
    var a :| 0 <= a <= |t| - |r| && r == t[a..a + |r|]
              && WhitespaceBetween(t, 0, a) && WhitespaceBetween(t, a + |r|, |t|);
    assert r == s[a + 1..a + 1 + |r|];
    assert WhitespaceBetween(s, 0, a + 1) by {
      forall i | 0 <= i < a + 1 ensures IsWhitespace(s[i]) {
        if i > 0 { assert s[i] == t[i - 1]; }
      }
    }
    assert WhitespaceBetween(s, a + 1 + |r|, |s|) by {
      forall i | a + 1 + |r| <= i < |s| ensures IsWhitespace(s[i]) {
        assert s[i] == t[i - 1];
      }
    }
    if AllWhitespace(t) {
      forall i | 0 <= i < |s| ensures IsWhitespace(s[i]) {
        if i > 0 { assert s[i] == t[i - 1]; }
      }
    }
    if AllWhitespace(s) {
      forall i | 0 <= i < |t| ensures IsWhitespace(t[i]) {
        assert t[i] == s[i + 1];
      }
    }
  }

  /** Trimming after cutting one trailing whitespace character trims `s`. */
  lemma CutBack(s: string, r: string)
    requires s != [] && IsWhitespace(s[|s| - 1])
    requires SliceAmidWhitespace(s[..|s| - 1], r)
    requires r == [] <==> AllWhitespace(s[..|s| - 1])
    ensures SliceAmidWhitespace(s, r)
    ensures r == [] <==> AllWhitespace(s)
  {
    var t := s[..|s| - 1];
    var a :| 0 <= a <= |t| - |r| && r == t[a..a + |r|]
              && WhitespaceBetween(t, 0, a) && WhitespaceBetween(t, a + |r|, |t|);
    assert r == s[a..a + |r|];
    assert WhitespaceBetween(s, 0, a) by {
      forall i | 0 <= i < a ensures IsWhitespace(s[i]) {
        assert s[i] == t[i];
      }
    }
    assert WhitespaceBetween(s, a + |r|, |s|) by {
      forall i | a + |r| <= i < |s| ensures IsWhitespace(s[i]) {
        if i < |t| { assert s[i] == t[i]; }
      }
    }
    if AllWhitespace(t) {
      forall i | 0 <= i < |s| ensures IsWhitespace(s[i]) {
        if i < |t| { assert s[i] == t[i]; }
      }
    }
    if AllWhitespace(s) {
      forall i | 0 <= i < |t| ensures IsWhitespace(t[i]) {
        assert t[i] == s[i];
      }
    }
  }

  /** Trimming twice changes nothing more. */
  lemma {:induction false} TrimIdempotent(s: string)
    ensures Trim(Trim(s)) == Trim(s)
  {
    var r := Trim(s);
    if r != [] {
      assert !IsWhitespace(r[0]) && !IsWhitespace(r[|r| - 1]);
    }
  }

  /** `t` occurs in `s` starting at position `i`. */
  predicate OccursAt(s: string, t: string, i: nat) {
    i + |t| <= |s| && s[i..i + |t|] == t
  }

  /** `s.includes(t)`: `t` occurs in `s` at some position. */
  predicate Includes(s: string, t: string)
    ensures Includes(s, t) ==> |t| <= |s|
    ensures t <= s ==> Includes(s, t)
    ensures Includes(s, t) <==> exists i: nat :: OccursAt(s, t, i)
  {
    if exists i | 0 <= i <= |s| :: t <= s[i..] then
      var i :| 0 <= i <= |s| && t <= s[i..];
      assert OccursAt(s, t, i);
      true
    else
      assert s[0..] == s;
      assert forall i: nat :: !OccursAt(s, t, i) by {
        forall i: nat | i <= |s| ensures !OccursAt(s, t, i) {
          assert !(t <= s[i..]);
        }
      }
      false
  }
}
