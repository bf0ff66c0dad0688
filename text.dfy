/** The string operations the note search uses: String.prototype.toLowerCase,
    restricted to ASCII letters, and String.prototype.includes. */
module Text {

  predicate IsUpper(c: char) { 'A' <= c <= 'Z' }

  predicate IsLowerLetter(c: char) { 'a' <= c <= 'z' }

  /** ASCII case folding of one character; every other character is left alone. */
  function LowerChar(c: char): (r: char)
    ensures !IsUpper(r)
    ensures IsUpper(c) ==> IsLowerLetter(r) && r as int == c as int + 32
    ensures !IsUpper(c) ==> r == c
  {
    if IsUpper(c) then (c as int + 32) as char else c
  }

  /** The inverse direction, used to state that a query's letter case does not matter. */
  function UpperChar(c: char): (r: char)
    ensures !IsLowerLetter(r)
    ensures LowerChar(r) == LowerChar(c)
  {
    if IsLowerLetter(c) then (c as int - 32) as char else c
  }

  /** toLowerCase, ASCII only. */
  function Lower(s: string): (r: string)
    ensures |r| == |s|
    ensures forall i :: 0 <= i < |s| ==> r[i] == LowerChar(s[i])
  {
    seq(|s|, i requires 0 <= i < |s| => LowerChar(s[i]))
  }

  /** toUpperCase, ASCII only. */
  function Upper(s: string): (r: string)
    ensures |r| == |s|
    ensures forall i :: 0 <= i < |s| ==> r[i] == UpperChar(s[i])
  {
    seq(|s|, i requires 0 <= i < |s| => UpperChar(s[i]))
  }

  /** `a` and `b` spell the same text, up to the case of ASCII letters. */
  predicate SameUpToCase(a: string, b: string)
  {
    |a| == |b| && forall i :: 0 <= i < |a| ==> LowerChar(a[i]) == LowerChar(b[i])
  }

  lemma SameUpToCaseLower(a: string, b: string)
    ensures SameUpToCase(a, b) <==> Lower(a) == Lower(b)
  {
    if Lower(a) == Lower(b) {
      assert |a| == |b|;
      forall i | 0 <= i < |a| ensures LowerChar(a[i]) == LowerChar(b[i]) {
        assert Lower(a)[i] == Lower(b)[i];
      }
    }
  }

  lemma UpperSameUpToCase(s: string)
    ensures SameUpToCase(s, Upper(s))
  {
  }

  lemma LowerIdempotent(s: string)
    ensures Lower(Lower(s)) == Lower(s)
  {
  }

  lemma {:induction false} LowerConcat(a: string, b: string)
    ensures Lower(a + b) == Lower(a) + Lower(b)
  {
    var l, r := Lower(a + b), Lower(a) + Lower(b);
    assert |l| == |r|;
    forall i | 0 <= i < |l| ensures l[i] == r[i] {
      if i < |a| {
        assert (a + b)[i] == a[i];
      } else {
        assert (a + b)[i] == b[i - |a|];
      }
    }
  }

  /** A character that is not a lower-case letter appears in Lower(s) only where it appears in s. */
  lemma LowerKeepsNonLetters(s: string, c: char)
    requires !IsLowerLetter(c) && c in Lower(s)
    ensures c in s
  {
    var i :| 0 <= i < |s| && Lower(s)[i] == c;
    assert s[i] == c;
  }

  /** `c` occurs at no position of `s`. */
  predicate Lacks(s: string, c: char)
  {
    forall i :: 0 <= i < |s| ==> s[i] != c
  }

  lemma LacksConcat(a: string, b: string, c: char)
    requires Lacks(a, c) && Lacks(b, c)
    ensures Lacks(a + b, c)
  {
    forall i | 0 <= i < |a + b| ensures (a + b)[i] != c {
      if i < |a| {
        assert (a + b)[i] == a[i];
      } else {
        assert (a + b)[i] == b[i - |a|];
      }
    }
  }

  predicate IsPrefix(t: string, s: string)
  {
    |t| <= |s| && s[..|t|] == t
  }

  /** String.prototype.includes: `t` occurs in `s` at some position. */
  predicate IsSubstring(t: string, s: string)
    ensures IsSubstring(t, s) ==> |t| <= |s|
  {
    exists i :: 0 <= i <= |s| && IsPrefix(t, s[i..])
  }

  /** The empty string occurs in every string, so an empty query matches every note. */
  lemma EmptyIsSubstring(s: string)
    ensures IsSubstring("", s)
  {
    assert IsPrefix("", s[0..]);
  }

  /** Every character of an occurring string is a character of the string it occurs in. */
  lemma SubstringChars(t: string, s: string, c: char)
    requires IsSubstring(t, s) && c in t
    ensures c in s
  {
    var i :| 0 <= i <= |s| && IsPrefix(t, s[i..]);
    var k :| 0 <= k < |t| && t[k] == c;
    assert s[i + k] == s[i..][..|t|][k];
  }

  lemma SubstringInRight(t: string, a: string, b: string)
    requires IsSubstring(t, b)
    ensures IsSubstring(t, a + b)
  {
    var i :| 0 <= i <= |b| && IsPrefix(t, b[i..]);
    assert (a + b)[|a| + i..] == b[i..];
  }
}
