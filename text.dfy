/** `String.prototype.trim`. */
module Text {

  /**
   * The characters `trim` strips: ECMAScript WhiteSpace (tab, vertical tab,
   * form feed, space, no-break space, the byte order mark and the Unicode
   * space separators) and LineTerminator (line feed, carriage return, line
   * and paragraph separators).
   */
  predicate IsWhiteSpace(c: char)
  {
    || '\t' <= c <= '\r'
    || c == ' '
    || c == '\U{00A0}'
    || c == '\U{1680}'
    || '\U{2000}' <= c <= '\U{200A}'
    || c == '\U{2028}' || c == '\U{2029}'
    || c == '\U{202F}' || c == '\U{205F}'
    || c == '\U{3000}'
    || c == '\U{FEFF}'
  }

  predicate AllWhiteSpace(s: string)
  {
    forall k :: 0 <= k < |s| ==> IsWhiteSpace(s[k])
  }

  /** How many white-space characters `s` starts with. */
  function LeadingSpaces(s: string): (n: nat)
    ensures n <= |s|
    ensures forall k :: 0 <= k < n ==> IsWhiteSpace(s[k])
    ensures n < |s| ==> !IsWhiteSpace(s[n])
  {
    if s != [] && IsWhiteSpace(s[0]) then
      var n := 1 + LeadingSpaces(s[1..]);
      assert forall k :: 1 <= k < n ==> s[k] == s[1..][k - 1];
      n
    else 0
  }

  /** Where the trailing white space of `s[lo..]` begins. */
  function TrailingStart(s: string, lo: nat): (m: nat)
    requires lo <= |s|
    ensures lo <= m <= |s|
    ensures forall k :: m <= k < |s| ==> IsWhiteSpace(s[k])
    ensures m > lo ==> !IsWhiteSpace(s[m - 1])
    decreases |s| - lo
  {
    if lo < |s| && IsWhiteSpace(s[|s| - 1]) then
      var m := TrailingStart(s[..|s| - 1], lo);
      assert forall k :: m <= k < |s| - 1 ==> s[k] == s[..|s| - 1][k];
      m
    else |s|
  }

  /**
   * `trim`: the slice of `s` left after stripping white space from both
   * ends; it is empty exactly when `s` is all white space.
   */
  function Trim(s: string): (r: string)
    ensures exists lo, hi :: 0 <= lo <= hi <= |s| && r == s[lo..hi]
                             && (forall k :: 0 <= k < lo ==> IsWhiteSpace(s[k]))
                             && (forall k :: hi <= k < |s| ==> IsWhiteSpace(s[k]))
    ensures r != [] ==> !IsWhiteSpace(r[0]) && !IsWhiteSpace(r[|r| - 1])
    ensures r == [] <==> AllWhiteSpace(s)
  {
    var lo := LeadingSpaces(s);
    var hi := TrailingStart(s, lo);
    var r := s[lo..hi];
    if hi > lo then
      assert r[0] == s[lo] && r[|r| - 1] == s[hi - 1];
      assert !IsWhiteSpace(s[lo]);
      assert r != [] && !AllWhiteSpace(s);
      r
    else
      assert r == [];
      assert AllWhiteSpace(s);
      r
  }

  /** Trimming twice changes nothing more. */
  lemma {:induction false} TrimIdempotent(s: string)
    ensures Trim(Trim(s)) == Trim(s)
  {
    var r := Trim(s);
    var lo := LeadingSpaces(r);
    var hi := TrailingStart(r, lo);
    assert lo == 0;
    assert hi == |r|;
  }
}
