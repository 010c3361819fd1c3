/** The two JavaScript string operations the board relies on:
    `String.prototype.trim` and `s.slice(0, n)`. A Dafny `char` is one
    Unicode scalar value, while a JavaScript string is a sequence of UTF-16
    code units; the two agree on every character of the Basic Multilingual
    Plane, and lone surrogates are not representable here. */
module JsStrings {

  /** The characters `trim` removes. */
  predicate IsWhiteSpace(c: char)
  {
    c in WhiteSpace
  }

  /** ECMAScript's WhiteSpace (tab, vertical tab, form feed, space, no-break
      space, byte order mark, the Unicode space separators) and LineTerminator
      (line feed, carriage return, line and paragraph separators). */
  const WhiteSpace: set<char> := {
    '\t', '\U{B}', '\U{C}', ' ', '\U{A0}', '\U{FEFF}',
    '\U{1680}', '\U{2000}', '\U{2001}', '\U{2002}', '\U{2003}', '\U{2004}',
    '\U{2005}', '\U{2006}', '\U{2007}', '\U{2008}', '\U{2009}', '\U{200A}',
    '\U{202F}', '\U{205F}', '\U{3000}',
    '\n', '\r', '\U{2028}', '\U{2029}'
  }

  /** Every character of `s` is white space. */
  predicate AllWhiteSpace(s: string)
  {
    forall i :: 0 <= i < |s| ==> IsWhiteSpace(s[i])
  }

  /** `s.trimStart()`: the suffix left after dropping leading white space. */
  function TrimStart(s: string): (r: string)
    ensures |r| <= |s| && r == s[|s| - |r|..]
    ensures AllWhiteSpace(s[..|s| - |r|])
    ensures r == [] || !IsWhiteSpace(r[0])
  {
    if |s| > 0 && IsWhiteSpace(s[0]) then
      var r := TrimStart(s[1..]);
      assert s[..|s| - |r|] == [s[0]] + s[1..][..|s| - 1 - |r|];
      r
    else s
  }

  /** `s.trimEnd()`: the prefix left after dropping trailing white space. */
  function TrimEnd(s: string): (r: string)
    ensures |r| <= |s| && r == s[..|r|]
    ensures AllWhiteSpace(s[|r|..])
    ensures r == [] || !IsWhiteSpace(r[|r| - 1])
  {
    if |s| > 0 && IsWhiteSpace(s[|s| - 1]) then
      var r := TrimEnd(s[..|s| - 1]);
      assert s[|r|..] == s[..|s| - 1][|r|..] + [s[|s| - 1]];
      WhiteSpaceJoin(s[..|s| - 1][|r|..], [s[|s| - 1]]);
      r
    else s
  }

  /** `r` is the slice of `s` that starts at `k`, with only white space
      before and after it. */
  predicate SliceBetweenWhiteSpace(s: string, r: string, k: nat)
  {
    k + |r| <= |s| && r == s[k..k + |r|]
    && AllWhiteSpace(s[..k]) && AllWhiteSpace(s[k + |r|..])
  }

  /** `s.trim()`: `s` without its leading and trailing white space. Nothing
      is left exactly when `s` is all white space; what is left is a slice of
      `s` (`TrimIsSlice`) that neither starts nor ends with white space
      (`TrimEnds`). */
  function Trim(s: string): (r: string)
    ensures r == [] <==> AllWhiteSpace(s)
  {
    TrimEmpty(s);
    TrimEnd(TrimStart(s))
  }

  /** The piece `Trim` keeps is the slice of `s` that starts after the
      leading white space and is followed by white space only. */
  lemma TrimIsSlice(s: string)
    ensures SliceBetweenWhiteSpace(s, Trim(s), |s| - |TrimStart(s)|)
  {
    var front := TrimStart(s);
    var r := TrimEnd(front);
    var k := |s| - |front|;
    assert Trim(s) == r;
    assert front == s[k..];
    assert r == s[k..k + |r|] by {
      assert r == front[..|r|];
    }
    assert AllWhiteSpace(s[k + |r|..]) by {
      assert front[|r|..] == s[k + |r|..];
    }
  }


  /** `s` neither starts nor ends with white space. */
  predicate NoOuterWhiteSpace(s: string)
  {
    s == [] || (!IsWhiteSpace(s[0]) && !IsWhiteSpace(s[|s| - 1]))
  }

  /** The piece `Trim` keeps neither starts nor ends with white space. */
  lemma TrimEnds(s: string)
    ensures NoOuterWhiteSpace(Trim(s))
  {
    var front := TrimStart(s);
    var r := TrimEnd(front);
    if r != [] {
      assert r[0] == front[0];
    }
  }

  /** The composition `Trim` is built from leaves nothing exactly when `s`
      is all white space. */
  lemma TrimEmpty(s: string)
    ensures TrimEnd(TrimStart(s)) == [] <==> AllWhiteSpace(s)
  {
    var front := TrimStart(s);
    var k := |s| - |front|;
    assert front == s[k..];
    if TrimEnd(front) == [] {
      assert s[..k] + s[k..] == s;
      WhiteSpaceJoin(s[..k], front);
    }
  }

  lemma WhiteSpaceJoin(a: string, b: string)
    requires AllWhiteSpace(a) && AllWhiteSpace(b)
    ensures AllWhiteSpace(a + b)
  {
  }

  /** `s.slice(0, n)`: the first `n` characters, or all of `s` when it is shorter. */
  function Prefix(s: string, n: nat): (r: string)
    ensures |r| == if |s| <= n then |s| else n
    ensures r == s[..|r|]
  {
    if |s| <= n then s else s[..n]
  }
}
