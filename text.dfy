/**
 * The two string operations the screens apply to user input and server text:
 * `trimmingCharacters(in: .whitespaces)` and `lowercased()`.
 */
module Text {

  /** `CharacterSet.whitespaces`: the tab and the Unicode space separators (category Zs). */
  predicate IsWhitespace(c: char) {
    || c == ' ' || c == '\t' || c == '\U{00A0}' || c == '\U{1680}'
    || ('\U{2000}' <= c <= '\U{200A}')
    || c == '\U{202F}' || c == '\U{205F}' || c == '\U{3000}'
  }

  predicate Blank(s: string) {
    forall i :: 0 <= i < |s| ==> IsWhitespace(s[i])
  }

  /** `s` without its leading whitespace. */
  function TrimStart(s: string): (r: string)
    ensures |r| <= |s| && r == s[|s| - |r|..]
    ensures r == [] || !IsWhitespace(r[0])
  {
    if s != [] && IsWhitespace(s[0]) then TrimStart(s[1..]) else s
  }

  /** `s` without its trailing whitespace. */
  function TrimEnd(s: string): (r: string)
    ensures |r| <= |s| && r == s[..|r|]
    ensures r == [] || !IsWhitespace(r[|r| - 1])
  {
    if s != [] && IsWhitespace(s[|s| - 1]) then TrimEnd(s[..|s| - 1]) else s
  }

  /** Everything `TrimStart` drops is whitespace. */
  lemma {:induction false} TrimStartDropsBlank(s: string)
    ensures forall j :: 0 <= j < |s| - |TrimStart(s)| ==> IsWhitespace(s[j])
  {
    if s != [] && IsWhitespace(s[0]) {
      TrimStartDropsBlank(s[1..]);
      assert forall j :: 1 <= j < |s| - |TrimStart(s)| ==> s[j] == s[1..][j - 1];
    }
  }

  /** Everything `TrimEnd` drops is whitespace. */
  lemma {:induction false} TrimEndDropsBlank(s: string)
    ensures forall j :: |TrimEnd(s)| <= j < |s| ==> IsWhitespace(s[j])
  {
    if s != [] && IsWhitespace(s[|s| - 1]) {
      TrimEndDropsBlank(s[..|s| - 1]);
    }
  }

  /** `trimmingCharacters(in: .whitespaces)`: the longest stretch of `s` that neither starts nor ends with whitespace. */
  function Trim(s: string): (r: string)
    ensures |r| <= |s|
    ensures r == [] || (!IsWhitespace(r[0]) && !IsWhitespace(r[|r| - 1]))
  {
    var t := TrimStart(s);
    var r := TrimEnd(t);
    assert r != [] ==> r[0] == t[0];
    r
  }

  /** Trimming removes whitespace at the two ends and nothing else: what is left is a contiguous part of `s`. */
  lemma TrimRemovesOnlyWhitespace(s: string)
    ensures var k := |s| - |TrimStart(s)|; var r := Trim(s);
      && k + |r| <= |s|
      && (forall j :: 0 <= j < k ==> IsWhitespace(s[j]))
      && (forall j :: 0 <= j < |r| ==> r[j] == s[k + j])
      && (forall j :: k + |r| <= j < |s| ==> IsWhitespace(s[j]))
  {
    TrimStartDropsBlank(s);
    TrimKeepsMiddle(s);
    TrimDropsTrailing(s);
  }

  lemma TrimKeepsMiddle(s: string)
    ensures var k := |s| - |TrimStart(s)|; var r := Trim(s);
      k + |r| <= |s| && forall j :: 0 <= j < |r| ==> r[j] == s[k + j]
  {
    var t := TrimStart(s);
    assert Trim(s) == TrimEnd(t);
  }

  lemma TrimDropsTrailing(s: string)
    ensures var k := |s| - |TrimStart(s)|; var r := Trim(s);
      forall j :: k + |r| <= j < |s| ==> IsWhitespace(s[j])
  {
    var t := TrimStart(s);
    var k := |s| - |t|;
    var r := TrimEnd(t);
    TrimEndDropsBlank(t);
    assert Trim(s) == r;
    forall j | k + |r| <= j < |s|
      ensures IsWhitespace(s[j])
    {
      assert s[j] == t[j - k];
    }
  }

  /** A string trims to nothing exactly when every character in it is whitespace. */
  lemma TrimEmptyIffBlank(s: string)
    ensures Trim(s) == [] <==> Blank(s)
  {
    if Blank(s) {
      BlankTrimStart(s);
    } else {
      TrimRemovesOnlyWhitespace(s);
    }
  }

  lemma {:induction false} BlankTrimStart(s: string)
    requires Blank(s)
    ensures TrimStart(s) == []
  {
    if s != [] {
      BlankTrimStart(s[1..]);
    }
  }

  /** Trimming a trimmed string changes nothing. */
  lemma TrimIdempotent(s: string)
    ensures Trim(Trim(s)) == Trim(s)
  {
    var r := Trim(s);
    NoEdgeWhitespace(r);
  }

  lemma NoEdgeWhitespace(r: string)
    requires r == [] || (!IsWhitespace(r[0]) && !IsWhitespace(r[|r| - 1]))
    ensures Trim(r) == r
  {
    assert TrimStart(r) == r;
  }

  /** The ASCII part of `lowercased()`. */
  function LowerChar(c: char): (l: char)
    ensures 'A' <= c <= 'Z' ==> l as int == c as int + 32
    ensures !('A' <= c <= 'Z') ==> l == c
  {
    if 'A' <= c <= 'Z' then (c as int + 32) as char else c
  }

  function Lower(s: string): (r: string)
    ensures |r| == |s| && forall i :: 0 <= i < |s| ==> r[i] == LowerChar(s[i])
  {
    seq(|s|, i requires 0 <= i < |s| => LowerChar(s[i]))
  }

  /** Lowercasing twice is lowercasing once. */
  lemma LowerIdempotent(s: string)
    ensures Lower(Lower(s)) == Lower(s)
  {
    var l := Lower(s);
    assert forall i :: 0 <= i < |s| ==> Lower(l)[i] == l[i];
  }
}
