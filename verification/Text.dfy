/** JavaScript string helpers the sidecar relies on. */
module Text {

  /** The characters `String.prototype.trim` removes. */
  predicate IsWhitespace(c: char) {
    || '\U{9}' <= c <= '\U{D}'
    || c == ' '
    || c == '\U{A0}'
    || c == '\U{1680}'
    || '\U{2000}' <= c <= '\U{200A}'
    || c == '\U{2028}' || c == '\U{2029}'
    || c == '\U{202F}'
    || c == '\U{205F}'
    || c == '\U{3000}'
    || c == '\U{FEFF}'
  }

  /** The same characters one by one: ECMAScript's white space and line terminators. */
  lemma WhitespaceIs(c: char)
    ensures IsWhitespace(c)
            <==> c in "\t\n\U{B}\U{C}\r \U{A0}\U{1680}\U{2000}\U{2001}\U{2002}\U{2003}\U{2004}\U{2005}\U{2006}"
                      + "\U{2007}\U{2008}\U{2009}\U{200A}\U{2028}\U{2029}\U{202F}\U{205F}\U{3000}\U{FEFF}"
  {
  }

  predicate IsBlank(s: string) {
    forall i :: 0 <= i < |s| ==> IsWhitespace(s[i])
  }

  /** The first position from `i` on that does not hold whitespace. */
  function SkipSpace(s: string, i: nat): (r: nat)
    requires i <= |s|
    ensures i <= r <= |s| && (forall j :: i <= j < r ==> IsWhitespace(s[j]))
    ensures r < |s| ==> !IsWhitespace(s[r])
    decreases |s| - i
  {
    if i < |s| && IsWhitespace(s[i]) then SkipSpace(s, i + 1) else i
  }

  /** The end of the text before the whitespace that precedes `n`. */
  function BackOverSpace(s: string, start: nat, n: nat): (r: nat)
    requires start <= n <= |s|
    ensures start <= r <= n && (start < r ==> !IsWhitespace(s[r - 1]))
    ensures forall j :: r <= j < n ==> IsWhitespace(s[j])
  {
    if start < n && IsWhitespace(s[n - 1]) then BackOverSpace(s, start, n - 1) else n
  }

  function Trim(s: string): string {
    var start := SkipSpace(s, 0);
    s[start..BackOverSpace(s, start, |s|)]
  }

  /** Trimming takes exactly the whitespace at both ends. */
  lemma TrimTakesTheEnds(s: string) returns (before: string, after: string)
    ensures s == before + Trim(s) + after && IsBlank(before) && IsBlank(after)
    ensures Trim(s) != "" ==> !IsWhitespace(Trim(s)[0]) && !IsWhitespace(Trim(s)[|Trim(s)| - 1])
  {
    hide IsWhitespace, SkipSpace, BackOverSpace;
    var start := SkipSpace(s, 0);
    var end := BackOverSpace(s, start, |s|);
    before, after := s[..start], s[end..];
  }

  lemma TrimsToNothing(s: string)
    ensures Trim(s) == "" <==> IsBlank(s)
  {
    hide IsWhitespace;
    var start := SkipSpace(s, 0);
    var end := BackOverSpace(s, start, |s|);
    assert |Trim(s)| == end - start;
  }

  lemma BlankConcat(a: string, b: string)
    ensures IsBlank(a + b) <==> IsBlank(a) && IsBlank(b)
  {
    if IsBlank(a + b) {
      assert forall i :: 0 <= i < |a| ==> a[i] == (a + b)[i];
      assert forall i :: 0 <= i < |b| ==> b[i] == (a + b)[|a| + i];
    }
  }
}
