/**
 * The JavaScript string operations the components use: `toLowerCase`, `includes`,
 * `replace(/\s+/g, "")` and `trim`. Case mapping is modelled for ASCII letters only.
 */
module JsText {
  import Seqs

  /** `\s` in a JavaScript regular expression: the WhiteSpace and LineTerminator code points. */
  predicate IsWhitespace(c: char)
  {
    || c == ' ' || c == '\t' || c == '\n' || c == '\r' || c == '\U{B}' || c == '\U{C}'
    || c == '\U{A0}' || c == '\U{1680}' || ('\U{2000}' <= c <= '\U{200A}')
    || c == '\U{2028}' || c == '\U{2029}' || c == '\U{202F}' || c == '\U{205F}'
    || c == '\U{3000}' || c == '\U{FEFF}'
  }

  function LowerChar(c: char): char
  {
    if 'A' <= c <= 'Z' then (c as int + 32) as char else c
  }

  predicate IsLower(s: string)
  {
    forall i :: 0 <= i < |s| ==> LowerChar(s[i]) == s[i]
  }

  /** `s.toLowerCase()` on ASCII letters; every other character is kept. */
  function ToLower(s: string): (r: string)
    ensures |r| == |s|
    ensures forall i :: 0 <= i < |s| ==> r[i] == LowerChar(s[i])
    ensures IsLower(r)
  {
    seq(|s|, i requires 0 <= i < |s| => LowerChar(s[i]))
  }

  /** Lower-casing twice is lower-casing once. */
  lemma ToLowerIdempotent(s: string)
    ensures ToLower(ToLower(s)) == ToLower(s)
  {
  }

  predicate NotWhitespace(c: char)
  {
    !IsWhitespace(c)
  }

  /** `s.replace(/\s+/g, "")`: removing every run of whitespace removes every whitespace character. */
  function RemoveWhitespace(s: string): (r: string)
  {
    Seqs.Filter(s, NotWhitespace)
  }

  /** Lower-casing changes no character's whitespace status. */
  lemma LowerKeepsWhitespace(c: char)
    ensures NotWhitespace(LowerChar(c)) <==> NotWhitespace(c)
  {
    if 'A' <= c <= 'Z' {
      assert 'a' <= LowerChar(c) <= 'z';
    }
  }

  /** Lower-casing keeps the number of characters that are not whitespace. */
  lemma {:induction false} LowerKeepsNonWhitespaceCount(s: string)
    ensures |Seqs.Filter(ToLower(s), NotWhitespace)| == |Seqs.Filter(s, NotWhitespace)|
  {
    if s != [] {
      LowerKeepsNonWhitespaceCount(s[1..]);
      assert ToLower(s)[1..] == ToLower(s[1..]);
      LowerKeepsWhitespace(s[0]);
    }
  }

  /** `t` occurs in `s` starting at position `i`. */
  predicate OccursAt(s: string, t: string, i: int)
  {
    0 <= i <= |s| - |t| && s[i..i + |t|] == t
  }

  /** `s.includes(t)`, computed by trying each start position from the left. */
  function Includes(s: string, t: string): (b: bool)
    ensures b <==> exists i :: OccursAt(s, t, i)
    decreases |s|
  {
    if |t| > |s| then false
    else if s[..|t|] == t then assert OccursAt(s, t, 0); true
    else
      var rest := Includes(s[1..], t);
      assert rest <==> exists i :: OccursAt(s, t, i) by {
        forall i | OccursAt(s[1..], t, i)
          ensures OccursAt(s, t, i + 1)
        {
          assert s[i + 1..i + 1 + |t|] == s[1..][i..i + |t|];
        }
        forall i | OccursAt(s, t, i)
          ensures i >= 1 && OccursAt(s[1..], t, i - 1)
        {
          assert s[0..|t|] == s[..|t|];
          assert i >= 1;
          forall j | 0 <= j < |t|
            ensures s[1..][i - 1..i - 1 + |t|][j] == t[j]
          {
            assert s[1..][i - 1..i - 1 + |t|][j] == s[i + j] == s[i..i + |t|][j];
          }
        }
      }
      rest
  }

  /** Leading whitespace removed (`trimStart`). */
  function TrimStart(s: string): (r: string)
    ensures |r| <= |s| && r == s[|s| - |r|..]
    ensures r == [] || NotWhitespace(r[0])
  {
    if s != [] && IsWhitespace(s[0]) then TrimStart(s[1..]) else s
  }

  /** Trailing whitespace removed (`trimEnd`). */
  function TrimEnd(s: string): (r: string)
    ensures |r| <= |s| && r == s[..|r|]
    ensures r == [] || NotWhitespace(r[|r| - 1])
  {
    if s != [] && IsWhitespace(s[|s| - 1]) then TrimEnd(s[..|s| - 1]) else s
  }

  /** `s.trim()`. */
  function Trim(s: string): string
  {
    TrimEnd(TrimStart(s))
  }

  /** Text that neither starts nor ends with whitespace is its own trim. */
  lemma TrimNoop(s: string)
    requires s == [] || (NotWhitespace(s[0]) && NotWhitespace(s[|s| - 1]))
    ensures Trim(s) == s
  {
  }
}
