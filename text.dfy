/**
 * The two string operations the admin gate and the title check use:
 * `toLowerCase` (restricted to ASCII letters) and `trim`, which strips
 * ECMAScript white space and line terminators from both ends.
 */
module Text {

  /** ECMAScript WhiteSpace and LineTerminator code points, the set `trim` strips. */
  predicate IsWhitespace(c: char): (b: bool)
    ensures '!' <= c <= '~' ==> !b  // no visible ASCII character is ever stripped
  {
    || c == '\t' || c == '\n' || c == '\U{000B}' || c == '\U{000C}' || c == '\r'
    || c == ' ' || c == '\U{00A0}' || c == '\U{1680}'
    || ('\U{2000}' <= c <= '\U{200A}')
    || c == '\U{2028}' || c == '\U{2029}' || c == '\U{202F}' || c == '\U{205F}'
    || c == '\U{3000}' || c == '\U{FEFF}'
  }

  predicate AllWhitespace(s: string)
  {
    forall i :: 0 <= i < |s| ==> IsWhitespace(s[i])
  }

  function LowerChar(c: char): char
  {
    if 'A' <= c <= 'Z' then (c as int + 32) as char else c
  }

  /** `s.toLowerCase()` on ASCII letters; every other character is kept. */
  function Lower(s: string): (r: string)
    ensures |r| == |s|
    ensures forall i :: 0 <= i < |r| ==> !('A' <= r[i] <= 'Z')
  {
    seq(|s|, i requires 0 <= i < |s| => LowerChar(s[i]))
  }

  /** `s.trimStart()`: the longest suffix that does not start with white space. */
  function TrimStart(s: string): (r: string)
    ensures |r| <= |s| && r == s[|s| - |r|..]
    ensures AllWhitespace(s[..|s| - |r|])
    ensures r == [] || !IsWhitespace(r[0])
  {
    if s != [] && IsWhitespace(s[0]) then TrimStart(s[1..]) else s
  }

  /** `s.trimEnd()`: the longest prefix that does not end with white space. */
  function TrimEnd(s: string): (r: string)
    ensures |r| <= |s| && r == s[..|r|]
    ensures AllWhitespace(s[|r|..])
    ensures r == [] || !IsWhitespace(r[|r| - 1])
  {
    if s != [] && IsWhitespace(s[|s| - 1]) then TrimEnd(s[..|s| - 1]) else s
  }

  /** `s.trim()`. */
  function Trim(s: string): (r: string)
    ensures |r| <= |s|
    ensures r == [] || (!IsWhitespace(r[0]) && !IsWhitespace(r[|r| - 1]))
  {
    TrimEnd(TrimStart(s))
  }

  /** A trimmed string is an infix of its input with only white space cut off either side. */
  lemma TrimBounds(s: string) returns (i: nat, j: nat)
    ensures i <= j <= |s| && Trim(s) == s[i..j]
    ensures AllWhitespace(s[..i]) && AllWhitespace(s[j..])
  {
    var m := TrimStart(s);
    i := |s| - |m|;
    assert m == s[i..];
    var r := TrimEnd(m);
    assert r == Trim(s);
    j := i + |r|;
    assert r == m[..|r|] == s[i..j];
    assert m[|r|..] == s[j..];
  }

  lemma {:induction false} TrimStartPadded(p: string, m: string)
    requires AllWhitespace(p)
    requires m == [] || !IsWhitespace(m[0])
    ensures TrimStart(p + m) == m
  {
    if p == [] {
      assert p + m == m;
    } else {
      assert (p + m)[1..] == p[1..] + m;
      TrimStartPadded(p[1..], m);
    }
  }

  lemma {:induction false} TrimEndPadded(m: string, q: string)
    requires AllWhitespace(q)
    requires m == [] || !IsWhitespace(m[|m| - 1])
    ensures TrimEnd(m + q) == m
  {
    if q == [] {
      assert m + q == m;
    } else {
      var q' := q[..|q| - 1];
      assert (m + q)[..|m + q| - 1] == m + q';
      TrimEndPadded(m, q');
    }
  }

  /** Conversely, trimming a padded string gives back exactly what was padded. */
  lemma {:induction false} TrimPadded(p: string, w: string, q: string)
    requires AllWhitespace(p) && AllWhitespace(q)
    requires w == [] || (!IsWhitespace(w[0]) && !IsWhitespace(w[|w| - 1]))
    ensures Trim(p + w + q) == w
  {
    assert p + w + q == p + (w + q);
    if w == [] {
      assert AllWhitespace(p + q) by {
        forall k | 0 <= k < |p + q| ensures IsWhitespace((p + q)[k]) {
          if k >= |p| { assert (p + q)[k] == q[k - |p|]; }
        }
      }
      assert p + w + q == (p + q) + [];
      TrimStartPadded(p + q, []);
    } else {
      TrimStartPadded(p, w + q);
      TrimEndPadded(w, q);
    }
  }

  /** `!s.trim()` holds exactly when `s` is empty or white space only. */
  lemma {:induction false} TrimEmptyIff(s: string)
    ensures Trim(s) == [] <==> AllWhitespace(s)
  {
    var i, j := TrimBounds(s);
    if Trim(s) == [] {
      assert s == s[..i] + s[j..];
      forall k | 0 <= k < |s| ensures IsWhitespace(s[k]) {
        if k < i { assert s[k] == s[..i][k]; } else { assert s[k] == s[j..][k - j]; }
      }
    } else {
      assert s[i] == Trim(s)[0];
    }
  }

  /** Lowering changes exactly the upper-case ASCII letters. */
  lemma LowerCharChanges(c: char)
    ensures LowerChar(c) != c <==> 'A' <= c <= 'Z'
  {
  }

  /** Lowering never turns a character into white space or out of it. */
  lemma LowerCharWhitespace(c: char)
    ensures IsWhitespace(LowerChar(c)) == IsWhitespace(c)
  {
  }

  lemma LowerWhitespace(s: string)
    ensures AllWhitespace(Lower(s)) <==> AllWhitespace(s)
  {
    forall k | 0 <= k < |s| ensures IsWhitespace(Lower(s)[k]) == IsWhitespace(s[k]) {
      LowerCharWhitespace(s[k]);
    }
  }

  /** Lowering works character by character, so it commutes with slicing and concatenation. */
  lemma LowerSlice(s: string, i: nat, j: nat)
    requires i <= j <= |s|
    ensures Lower(s)[i..j] == Lower(s[i..j])
  {
  }

  lemma LowerAppend(a: string, b: string)
    ensures Lower(a + b) == Lower(a) + Lower(b)
  {
  }
}
