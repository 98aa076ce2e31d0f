/** `String.prototype.trim`: removal of leading and trailing white space and
    line terminators, as ECMAScript defines them. */
module Text {

  /** ECMAScript's WhiteSpace and LineTerminator code points: tab, vertical
      tab, form feed, space, no-break space, the byte-order mark, the space
      separators (category Zs) and the four line terminators. */
  const WhiteSpace: set<char> := {
    '\t', '\U{000B}', '\U{000C}', ' ', '\U{00A0}', '\U{FEFF}',
    '\U{1680}', '\U{2000}', '\U{2001}', '\U{2002}', '\U{2003}', '\U{2004}',
    '\U{2005}', '\U{2006}', '\U{2007}', '\U{2008}', '\U{2009}', '\U{200A}',
    '\U{202F}', '\U{205F}', '\U{3000}',
    '\n', '\r', '\U{2028}', '\U{2029}'
  }

  predicate IsWhiteSpace(c: char)
  {
    c in WhiteSpace
  }

  /** Every character of `s` from index `lo` up to (not including) `hi`
      is white space. */
  predicate WhiteSpaceBetween(s: string, lo: int, hi: int)
    requires 0 <= lo <= hi <= |s|
  {
    forall k :: lo <= k < hi ==> IsWhiteSpace(s[k])
  }

  predicate AllWhiteSpace(s: string)
  {
    WhiteSpaceBetween(s, 0, |s|)
  }

  /** Drops the white space at the front: what remains is a suffix of `s`,
      everything dropped is white space, and what remains does not start
      with white space. */
  function TrimStart(s: string): (r: string)
    ensures |r| <= |s| && r == s[|s| - |r|..]
    ensures WhiteSpaceBetween(s, 0, |s| - |r|)
    ensures r != [] ==> !IsWhiteSpace(r[0])
  {
    if s != [] && IsWhiteSpace(s[0]) then
      var r := TrimStart(s[1..]);
      assert forall k :: 1 <= k < |s| ==> s[k] == s[1..][k - 1];
      r
    else
      s
  }

  /** Drops the white space at the back: what remains is a prefix of `s`,
      everything dropped is white space, and what remains does not end with
      white space. */
  function TrimEnd(s: string): (r: string)
    ensures |r| <= |s| && r == s[..|r|]
    ensures WhiteSpaceBetween(s, |r|, |s|)
    ensures r != [] ==> !IsWhiteSpace(r[|r| - 1])
  {
    if s != [] && IsWhiteSpace(s[|s| - 1]) then
      var r := TrimEnd(s[..|s| - 1]);
      assert forall k :: 0 <= k < |s| - 1 ==> s[k] == s[..|s| - 1][k];
      r
    else
      s
  }

  /** `s.trim()`: the slice of `s` left after dropping white space at both
      ends. */
  function Trim(s: string): (r: string)
    ensures exists i, j ::
      && 0 <= i <= j <= |s| && r == s[i..j]
      && WhiteSpaceBetween(s, 0, i) && WhiteSpaceBetween(s, j, |s|)
    ensures r != [] ==> !IsWhiteSpace(r[0]) && !IsWhiteSpace(r[|r| - 1])
  {
    var front := TrimStart(s);
    var r := TrimEnd(front);
    var i := |s| - |front|;
    var j := i + |r|;
    assert r == s[i..j];
    assert WhiteSpaceBetween(s, j, |s|) by {
      forall k | j <= k < |s| ensures IsWhiteSpace(s[k]) {
        assert s[k] == front[k - i];
      }
    }
    assert WhiteSpaceBetween(s, 0, i);
    r
  }

  /** Trimming yields the empty string exactly when the input is all white
      space. */
  lemma TrimEmpty(s: string)
    ensures Trim(s) == [] <==> AllWhiteSpace(s)
  {
    var r := Trim(s);
    var i, j :|
      && 0 <= i <= j <= |s| && r == s[i..j]
      && WhiteSpaceBetween(s, 0, i) && WhiteSpaceBetween(s, j, |s|);
    if r != [] {
      assert r[0] == s[i];
    }
  }

  /** Trimming a trimmed string changes nothing. */
  lemma TrimIdempotent(s: string)
    ensures Trim(Trim(s)) == Trim(s)
  {
    var r := Trim(s);
    var r2 := Trim(r);
    var i, j :|
      && 0 <= i <= j <= |r| && r2 == r[i..j]
      && WhiteSpaceBetween(r, 0, i) && WhiteSpaceBetween(r, j, |r|);
  }
}
