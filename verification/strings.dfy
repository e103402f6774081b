/** The few operations of Go's `strings` package that the model relies on. */
module Strings {
  import opened Wrappers

  /** `p` is a prefix of `s` (strings.HasPrefix). */
  predicate HasPrefix(s: string, p: string) {
    |p| <= |s| && s[..|p|] == p
  }

  /** strings.CutPrefix: what follows `p` in `s`, when `s` starts with `p`. */
  function CutPrefix(s: string, p: string): (r: Option<string>)
    ensures r.Some? <==> HasPrefix(s, p)
    ensures r.Some? ==> p + r.value == s
  {
    if HasPrefix(s, p) then
      assert s == s[..|p|] + s[|p|..];
      Some(s[|p|..])
    else None
  }

  /** `sep` occurs in `s` starting at position `i`. */
  predicate OccursAt(s: string, sep: string, i: int) {
    0 <= i && i + |sep| <= |s| && s[i..i + |sep|] == sep
  }

  /** The first position at or after `i` where `sep` occurs in `s` (strings.Index from `i`). */
  function IndexFrom(s: string, sep: string, i: nat): (r: Option<nat>)
    decreases |s| - i
    ensures r.Some? ==> i <= r.value && OccursAt(s, sep, r.value)
    ensures r.Some? ==> forall j :: i <= j < r.value ==> !OccursAt(s, sep, j)
    ensures r.None? ==> forall j :: i <= j ==> !OccursAt(s, sep, j)
  {
    if i + |sep| > |s| then None
    else if s[i..i + |sep|] == sep then Some(i)
    else IndexFrom(s, sep, i + 1)
  }

  /** strings.Cut: the text before and after the FIRST occurrence of `sep`. */
  function Cut(s: string, sep: string): (r: Option<(string, string)>)
    ensures r.None? <==> forall j :: !OccursAt(s, sep, j)
    ensures r.Some? ==> r.value.0 + sep + r.value.1 == s
    ensures r.Some? ==> forall j :: 0 <= j < |r.value.0| ==> !OccursAt(s, sep, j)
  {
    match IndexFrom(s, sep, 0)
    case None => None
    case Some(k) =>
      assert s == s[..k] + s[k..k + |sep|] + s[k + |sep|..];
      Some((s[..k], s[k + |sep|..]))
  }

  /** Go's unicode.IsSpace: the ASCII and Latin-1 spaces plus Unicode's White_Space characters. */
  predicate IsSpace(c: char) {
    || c == ' ' || c == '\t' || c == '\n' || c == '\U{000B}' || c == '\U{000C}' || c == '\r'
    || c == '\U{0085}' || c == '\U{00A0}' || c == '\U{1680}'
    || ('\U{2000}' <= c <= '\U{200A}')
    || c == '\U{2028}' || c == '\U{2029}' || c == '\U{202F}' || c == '\U{205F}' || c == '\U{3000}'
  }

  /** Every character of `s` is white space (vacuously true of ""). */
  predicate AllSpace(s: string) {
    forall i :: 0 <= i < |s| ==> IsSpace(s[i])
  }

  function TrimLeft(s: string): string {
    if |s| > 0 && IsSpace(s[0]) then TrimLeft(s[1..]) else s
  }

  function TrimRight(s: string): string {
    if |s| > 0 && IsSpace(s[|s| - 1]) then TrimRight(s[..|s| - 1]) else s
  }

  /** strings.TrimSpace: `s` without leading and trailing white space. */
  function TrimSpace(s: string): string {
    TrimRight(TrimLeft(s))
  }

  lemma {:induction false} TrimLeftEmpty(s: string)
    ensures TrimLeft(s) == "" <==> AllSpace(s)
    ensures TrimLeft(s) != "" ==> !IsSpace(TrimLeft(s)[0])
    decreases |s|
  {
    if |s| > 0 && IsSpace(s[0]) {
      TrimLeftEmpty(s[1..]);
      if AllSpace(s[1..]) {
        assert forall i :: 0 < i < |s| ==> s[i] == s[1..][i - 1];
      }
    }
  }

  /** Trimming leaves nothing exactly when the text is all white space. */
  lemma TrimSpaceEmpty(s: string)
    ensures TrimSpace(s) == "" <==> AllSpace(s)
  {
    TrimLeftEmpty(s);
    var t := TrimLeft(s);
    if t != "" {
      assert !IsSpace(t[0]);
      assert TrimRight(t) != "" by {
        TrimRightKeepsFirst(t);
      }
    }
  }

  lemma {:induction false} TrimRightKeepsFirst(t: string)
    requires |t| > 0 && !IsSpace(t[0])
    ensures |TrimRight(t)| > 0 && TrimRight(t)[0] == t[0]
    decreases |t|
  {
    if IsSpace(t[|t| - 1]) {
      TrimRightKeepsFirst(t[..|t| - 1]);
    }
  }
}
