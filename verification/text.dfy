/**
 * ECMAScript `String.prototype.trim`, the only string operation the chat
 * handlers use: every validation in them is `!s.trim()`, true exactly when
 * the trimmed string is empty.
 */
module Text {

  /** WhiteSpace and LineTerminator code points, the characters `trim` removes at both ends. */
  predicate IsTrimmable(c: char) {
    || c == '\t' || c == '\n' || c == '\U{000B}' || c == '\U{000C}' || c == '\r'
    || c == ' ' || c == '\U{00A0}' || c == '\U{1680}'
    || ('\U{2000}' <= c <= '\U{200A}')
    || c == '\U{2028}' || c == '\U{2029}' || c == '\U{202F}' || c == '\U{205F}'
    || c == '\U{3000}' || c == '\U{FEFF}'
  }

  /** A string made of trimmable characters only: by `Trim`'s contract, exactly the strings `trim` empties. */
  predicate Blank(s: string) {
    forall i :: 0 <= i < |s| ==> IsTrimmable(s[i])
  }

  /** Number of trimmable characters at the front of `s`. */
  function LeadingCount(s: string): (n: nat)
    ensures n <= |s|
    ensures Blank(s[..n])
    ensures n < |s| ==> !IsTrimmable(s[n])
  {
    if s == [] || !IsTrimmable(s[0]) then 0
    else
      var m := LeadingCount(s[1..]);
      assert s[..m + 1] == [s[0]] + s[1..][..m];
      m + 1
  }

  /** Index where the run of trimmable characters at the end of `s` begins. */
  function TrailingStart(s: string): (n: nat)
    ensures n <= |s|
    ensures Blank(s[n..])
    ensures 0 < n ==> !IsTrimmable(s[n - 1])
  {
    if s == [] || !IsTrimmable(s[|s| - 1]) then |s|
    else
      var m := TrailingStart(s[..|s| - 1]);
      assert s[m..] == s[..|s| - 1][m..] + [s[|s| - 1]];
      m
  }

  /**
   * `s.trim()`: `s` without its leading and trailing trimmable characters.
   * The result is empty exactly when `s` is blank; otherwise it is the infix of `s`
   * that starts and ends with a non-trimmable character and has only trimmable
   * characters outside it.
   */
  function Trim(s: string): (r: string)
    ensures r == [] <==> Blank(s)
    ensures r != [] ==> !IsTrimmable(r[0]) && !IsTrimmable(r[|r| - 1])
    ensures LeadingCount(s) + |r| <= |s|
    ensures r == s[LeadingCount(s)..LeadingCount(s) + |r|]
    ensures Blank(s[LeadingCount(s) + |r|..])
  {
    var lo := LeadingCount(s);
    if lo == |s| then
      assert s[..lo] == s;
      []
    else
      var hi := TrailingStart(s);
      assert !Blank(s) by { assert !IsTrimmable(s[lo]); }
      s[lo..hi]
  }

  /** The unique-decomposition view of `trim`: padding a core that has non-trimmable ends with blank text on both sides is undone by `Trim`. */
  lemma {:induction false} TrimOfPadded(p: string, core: string, q: string)
    requires Blank(p) && Blank(q)
    requires core != [] && !IsTrimmable(core[0]) && !IsTrimmable(core[|core| - 1])
    ensures Trim(p + core + q) == core
  {
    var s := p + core + q;
    LeadingOfPadded(p, core + q);
    assert p + core + q == p + (core + q);
    var lo := LeadingCount(s);
    assert lo == |p|;
    var r := Trim(s);
    assert r != [] by { assert !IsTrimmable(s[|p|]); }
    assert r == s[|p|..|p| + |core|];
    assert s[|p|..|p| + |core|] == core;
  }

  /** Leading blank text is exactly what `LeadingCount` skips when the rest starts non-blank. */
  lemma {:induction false} LeadingOfPadded(p: string, rest: string)
    requires Blank(p)
    requires rest != [] && !IsTrimmable(rest[0])
    ensures LeadingCount(p + rest) == |p|
  {
    if p != [] {
      assert (p + rest)[1..] == p[1..] + rest;
      LeadingOfPadded(p[1..], rest);
    } else {
      assert p + rest == rest;
    }
  }

  /** Trimming is idempotent. */
  lemma TrimIdempotent(s: string)
    ensures Trim(Trim(s)) == Trim(s)
  {
    var r := Trim(s);
    if r != [] {
      assert [] + r + [] == r;
      TrimOfPadded([], r, []);
    }
  }
}
