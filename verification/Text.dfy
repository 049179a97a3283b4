/** The string operations of JavaScript that the engine uses. */
module Text {

  /** White space and line terminators as `String.prototype.trim` understands them. */
  predicate IsWhitespace(ch: char) {
    || '\U{9}' <= ch <= '\U{D}'
    || ch == ' '
    || ch == '\U{A0}'
    || ch == '\U{1680}'
    || '\U{2000}' <= ch <= '\U{200A}'
    || ch == '\U{2028}'
    || ch == '\U{2029}'
    || ch == '\U{202F}'
    || ch == '\U{205F}'
    || ch == '\U{3000}'
    || ch == '\U{FEFF}'
  }

  function TrimStart(s: string): string {
    if s != "" && IsWhitespace(s[0]) then TrimStart(s[1..]) else s
  }

  function TrimEnd(s: string): string {
    if s != "" && IsWhitespace(s[|s| - 1]) then TrimEnd(s[..|s| - 1]) else s
  }

  function Trim(s: string): string {
    TrimEnd(TrimStart(s))
  }

  ghost predicate AllWhitespace(s: string) {
    forall i :: 0 <= i < |s| ==> IsWhitespace(s[i])
  }

  lemma {:induction false} TrimStartIsExact(s: string) returns (front: string)
    ensures s == front + TrimStart(s) && AllWhitespace(front)
    ensures TrimStart(s) != "" ==> !IsWhitespace(TrimStart(s)[0])
  {
    if s != "" && IsWhitespace(s[0]) {
      front := TrimStartIsExact(s[1..]);
      front := s[..1] + front;
    } else {
      front := "";
    }
  }

  lemma {:induction false} TrimEndIsExact(s: string) returns (back: string)
    ensures s == TrimEnd(s) + back && AllWhitespace(back)
    ensures TrimEnd(s) != "" ==> TrimEnd(s)[0] == s[0] && !IsWhitespace(TrimEnd(s)[|TrimEnd(s)| - 1])
  {
    if s != "" && IsWhitespace(s[|s| - 1]) {
      back := TrimEndIsExact(s[..|s| - 1]);
      back := back + s[|s| - 1..];
    } else {
      back := "";
    }
  }

  /** Trimming removes white space only, and all of it at both ends. */
  lemma TrimIsExact(s: string) returns (front: string, back: string)
    ensures s == front + Trim(s) + back
    ensures AllWhitespace(front) && AllWhitespace(back)
    ensures Trim(s) != "" ==> !IsWhitespace(Trim(s)[0]) && !IsWhitespace(Trim(s)[|Trim(s)| - 1])
  {
    front := TrimStartIsExact(s);
    back := TrimEndIsExact(TrimStart(s));
  }

  /** `haystack.includes(needle)` */
  ghost predicate Includes(haystack: string, needle: string) {
    exists i :: OccursAt(haystack, needle, i)
  }

  predicate OccursAt(haystack: string, needle: string, i: int) {
    0 <= i && i + |needle| <= |haystack| && haystack[i..i + |needle|] == needle
  }
}
