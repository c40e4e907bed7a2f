/**
 `String.prototype.trim` as both the server's message check and the page's
 send guard use it: strip ECMAScript white space and line terminators from
 both ends (sections 12.2 and 12.3 and 22.1.3.32 of ECMA-262).
 */
module JsText {

  /** WhiteSpace or LineTerminator code points of ECMA-262. */
  predicate IsJsSpace(c: char)
  {
    || c == '\U{0009}' || c == '\U{000B}' || c == '\U{000C}' || c == '\U{0020}'
    || c == '\U{00A0}' || c == '\U{FEFF}'
    || c == '\U{1680}' || ('\U{2000}' <= c <= '\U{200A}') || c == '\U{202F}'
    || c == '\U{205F}' || c == '\U{3000}'
    || c == '\U{000A}' || c == '\U{000D}' || c == '\U{2028}' || c == '\U{2029}'
  }

  /** Nothing but white space: what `!s.trim()` tests. */
  predicate IsBlank(s: string)
  {
    forall i :: 0 <= i < |s| ==> IsJsSpace(s[i])
  }

  /** Drops leading white space. */
  function TrimStart(s: string): (r: string)
    ensures |r| <= |s| && r == s[|s| - |r|..]
    ensures forall i :: 0 <= i < |s| - |r| ==> IsJsSpace(s[i])
    ensures r == [] || !IsJsSpace(r[0])
  {
    if s == [] || !IsJsSpace(s[0]) then s
    else
      var t := TrimStart(s[1..]);
      assert s[1..][|s| - 1 - |t|..] == s[|s| - |t|..];
      assert forall i :: 1 <= i < |s| - |t| ==> s[i] == s[1..][i - 1];
      t
  }

  /** Drops trailing white space. */
  function TrimEnd(s: string): (r: string)
    ensures |r| <= |s| && r == s[..|r|]
    ensures forall i :: |r| <= i < |s| ==> IsJsSpace(s[i])
    ensures r == [] || !IsJsSpace(r[|r| - 1])
  {
    if s == [] || !IsJsSpace(s[|s| - 1]) then s
    else
      var t := TrimEnd(s[..|s| - 1]);
      assert s[..|s| - 1][..|t|] == s[..|t|];
      assert forall i :: |t| <= i < |s| - 1 ==> s[i] == s[..|s| - 1][i];
      t
  }

  /** `s.trim()`: the middle of `s` between white-space runs at both ends. */
  function Trim(s: string): (r: string)
    ensures |r| <= |s|
    ensures r == [] || (!IsJsSpace(r[0]) && !IsJsSpace(r[|r| - 1]))
  {
    TrimEnd(TrimStart(s))
  }

  /** The trimmed text is the piece of the input between a leading and a
      trailing run of white space. */
  lemma TrimIsInfix(s: string)
    ensures var i := |s| - |TrimStart(s)|;
            var j := i + |Trim(s)|;
            && j <= |s|
            && Trim(s) == s[i..j]
            && (forall k :: 0 <= k < i ==> IsJsSpace(s[k]))
            && (forall k :: j <= k < |s| ==> IsJsSpace(s[k]))
  {
    var u := TrimStart(s);
    var i := |s| - |u|;
    var m := |Trim(s)|;
    assert Trim(s) == u[..m];
    assert u[..m] == s[i..i + m];
    BlankTailShifts(s, i, m);
  }

  /** White space at the end of a suffix of `s` is white space at the end of `s`. */
  lemma BlankTailShifts(s: string, i: nat, m: nat)
    requires i + m <= |s|
    requires forall k :: m <= k < |s| - i ==> IsJsSpace(s[i..][k])
    ensures forall k :: i + m <= k < |s| ==> IsJsSpace(s[k])
  {
    forall k | i + m <= k < |s|
      ensures IsJsSpace(s[k])
    {
      assert s[k] == s[i..][k - i];
    }
  }

  lemma TrimStartEmptyIffBlank(s: string)
    ensures TrimStart(s) == [] <==> IsBlank(s)
  {
    var r := TrimStart(s);
    assert r != [] ==> r[0] == s[|s| - |r|];
  }

  lemma TrimEndEmptyIffBlank(s: string)
    ensures TrimEnd(s) == [] <==> IsBlank(s)
  {
    var r := TrimEnd(s);
    assert r != [] ==> r[|r| - 1] == s[|r| - 1];
  }

  /** `!s.trim()` holds exactly for blank strings. */
  lemma TrimEmptyIffBlank(s: string)
    ensures Trim(s) == [] <==> IsBlank(s)
  {
    TrimStartEmptyIffBlank(s);
    TrimEndEmptyIffBlank(TrimStart(s));
  }
}
