/**
 * The string operations of Python's `str` that the pipeline relies on:
 * `strip()` with no argument and `lower()`.
 */
module Text {

  /** The characters for which Python's `str.isspace()` holds. */
  const WHITESPACE: set<char> := {
    '\t', '\n', '\U{0B}', '\U{0C}', '\r', '\U{1C}', '\U{1D}', '\U{1E}', '\U{1F}', ' ',
    '\U{85}', '\U{A0}', '\U{1680}',
    '\U{2000}', '\U{2001}', '\U{2002}', '\U{2003}', '\U{2004}', '\U{2005}',
    '\U{2006}', '\U{2007}', '\U{2008}', '\U{2009}', '\U{200A}',
    '\U{2028}', '\U{2029}', '\U{202F}', '\U{205F}', '\U{3000}'
  }

  predicate IsSpace(c: char)
  {
    c in WHITESPACE
  }

  predicate AllSpace(s: string)
  {
    forall i | 0 <= i < |s| :: IsSpace(s[i])
  }

  /** Neither the first nor the last character is whitespace. */
  predicate Trimmed(s: string)
  {
    s == [] || (!IsSpace(s[0]) && !IsSpace(s[|s| - 1]))
  }

  /** The number of whitespace characters at the start of `s`. */
  function LeadingSpace(s: string): (n: nat)
    ensures n <= |s|
    ensures forall i | 0 <= i < n :: IsSpace(s[i])
    ensures n < |s| ==> !IsSpace(s[n])
  {
    if s == [] || !IsSpace(s[0]) then 0 else 1 + LeadingSpace(s[1..])
  }

  /** The number of whitespace characters at the end of `s`. */
  function TrailingSpace(s: string): (n: nat)
    ensures n <= |s|
    ensures forall i | |s| - n <= i < |s| :: IsSpace(s[i])
    ensures n < |s| ==> !IsSpace(s[|s| - 1 - n])
  {
    if s == [] || !IsSpace(s[|s| - 1]) then 0 else 1 + TrailingSpace(s[..|s| - 1])
  }

  /**
   * Python's `str.strip()`: `s` with its leading and trailing whitespace removed.
   * The result is a slice of `s`, and everything cut off on either side is whitespace.
   */
  function Strip(s: string): (r: string)
    ensures Trimmed(r)
    ensures LeadingSpace(s) + |r| <= |s|
    ensures r == s[LeadingSpace(s)..LeadingSpace(s) + |r|]
    ensures forall i | LeadingSpace(s) + |r| <= i < |s| :: IsSpace(s[i])
  {
    var a := LeadingSpace(s);
    var t := s[a..];
    var n := TrailingSpace(t);
    var r := t[..|t| - n];
    assert r != [] ==> r[0] == s[a] && r[|r| - 1] == t[|t| - 1 - n];
    assert forall i | a + |r| <= i < |s| :: s[i] == t[i - a];
    r
  }

  /** Whitespace around a trimmed core is exactly what `Strip` removes. */
  lemma {:induction false} StripUnique(p: string, m: string, q: string)
    requires AllSpace(p) && AllSpace(q) && Trimmed(m)
    ensures Strip(p + m + q) == m
  {
    var s := p + m + q;
    var a := LeadingSpace(s);
    if m == [] {
      assert s == p + q;
      assert AllSpace(s);
      assert a == |s|;
    } else {
      assert s[|p|] == m[0];
      assert a == |p|;
      var t := s[a..];
      assert t == m + q;
      var n := TrailingSpace(t);
      assert t[|t| - 1 - |q|] == m[|m| - 1];
      assert n == |q|;
      assert t[..|t| - n] == m;
    }
  }

  /**
   * Stripping a string that is already stripped changes nothing: the stripped form is a
   * normal form, so text that went through `strip` once, as the prepared timestamp and the
   * writer's desired format do, is its own strip.
   */
  lemma StripIdempotent(s: string)
    ensures Strip(Strip(s)) == Strip(s)
  {
    var r := Strip(s);
    assert r == [] + r + [];
    StripUnique([], r, []);
  }

  /** A string is its leading whitespace, its stripped core and its trailing whitespace. */
  lemma StripSplits(s: string) returns (p: string, q: string)
    ensures s == p + Strip(s) + q && AllSpace(p) && AllSpace(q)
  {
    var a := LeadingSpace(s);
    var r := Strip(s);
    p, q := s[..a], s[a + |r|..];
    assert forall i | 0 <= i < |p| :: p[i] == s[i];
    assert forall i | 0 <= i < |q| :: q[i] == s[a + |r| + i];
    assert s == s[..a] + s[a..a + |r|] + s[a + |r|..];
  }

  lemma AllSpaceConcat(x: string, y: string)
    requires AllSpace(x) && AllSpace(y)
    ensures AllSpace(x + y)
  {
    forall i | 0 <= i < |x + y| ensures IsSpace((x + y)[i]) {
      if i >= |x| { assert (x + y)[i] == y[i - |x|]; }
    }
  }

  /** Whitespace added around a string disappears under `Strip`. */
  lemma StripAbsorbs(p: string, s: string, q: string)
    requires AllSpace(p) && AllSpace(q)
    ensures Strip(p + s + q) == Strip(s)
  {
    var r := Strip(s);
    var p0, q0 := StripSplits(s);
    AllSpaceConcat(p, p0);
    AllSpaceConcat(q0, q);
    var big := p + s + q;
    assert big == (p + p0) + r + (q0 + q) by {
      assert s == p0 + r + q0;
    }
    StripUniqueAt(big, p + p0, r, q0 + q);
  }

  lemma StripUniqueAt(s: string, p: string, m: string, q: string)
    requires s == p + m + q
    requires AllSpace(p) && AllSpace(q) && Trimmed(m)
    ensures Strip(s) == m
  {
    StripUnique(p, m, q);
  }

  /** Appending text that starts and ends with non-space only lets `Strip` cut the front. */
  lemma StripAppend(t: string, u: string)
    requires u != [] && !IsSpace(u[0]) && !IsSpace(u[|u| - 1])
    ensures Strip(t + u) == t[LeadingSpace(t)..] + u
  {
    var a := LeadingSpace(t);
    var m := t[a..] + u;
    assert Trimmed(m) by {
      if a < |t| { assert m[0] == t[a]; }
    }
    assert t + u == t[..a] + m + [];
    StripUnique(t[..a], m, []);
  }

  /** ASCII case mapping of `str.lower()`. */
  function LowerChar(c: char): char
  {
    if 'A' <= c <= 'Z' then (c as int + 32) as char else c
  }

  /** Python's `str.lower()`, restricted to the ASCII letters. */
  function Lower(s: string): string
  {
    seq(|s|, i requires 0 <= i < |s| => LowerChar(s[i]))
  }

  lemma LowerConcat(x: string, y: string)
    ensures Lower(x + y) == Lower(x) + Lower(y)
  {
  }

  /** Whitespace lies below the ASCII letters or above them. */
  lemma SpaceOutsideLetters(c: char)
    requires IsSpace(c)
    ensures c <= ' ' || '\U{85}' <= c
  {
  }

  /** Lower-casing never turns whitespace into non-whitespace or back. */
  lemma LowerKeepsSpace(s: string)
    ensures AllSpace(s) ==> AllSpace(Lower(s))
    ensures Trimmed(s) ==> Trimmed(Lower(s))
  {
    forall c: char | 'A' <= c <= 'Z' ensures !IsSpace(c) && !IsSpace(LowerChar(c)) {
      if IsSpace(c) { SpaceOutsideLetters(c); }
      if IsSpace(LowerChar(c)) { SpaceOutsideLetters(LowerChar(c)); }
    }
  }

  /** Lower-casing and stripping commute, so `lower().strip()` equals `strip().lower()`. */
  lemma StripLowerCommute(s: string)
    ensures Strip(Lower(s)) == Lower(Strip(s))
  {
    var r := Strip(s);
    var p, q := StripSplits(s);
    LowerConcat(p, r);
    LowerConcat(p + r, q);
    LowerKeepsSpace(p);
    LowerKeepsSpace(q);
    LowerKeepsSpace(r);
    StripUnique(Lower(p), Lower(r), Lower(q));
  }
}
