/**
 * The JavaScript string primitives the validators, filters and formatters rely on:
 * `\d` digits, `length` in UTF-16 code units, `String.prototype.trim`, ASCII `toLowerCase` and the first-match
 * form of `String.prototype.replace`.
 */
module Strings {

  /** `\d` in a JavaScript regular expression: an ASCII decimal digit. */
  predicate IsDigit(c: char) {
    '0' <= c <= '9'
  }

  predicate AllDigits(s: string) {
    forall i :: 0 <= i < |s| ==> IsDigit(s[i])
  }

  /** `[a-zA-Z0-9]` */
  predicate IsAsciiAlphanumeric(c: char) {
    IsDigit(c) || 'a' <= c <= 'z' || 'A' <= c <= 'Z'
  }

  /** The code points `trim` removes: WhiteSpace and LineTerminator of ECMA-262. */
  predicate IsWhitespace(c: char) {
    || c == ' ' || c == '\t' || c == '\n' || c == '\r'
    || c == '\U{000B}' || c == '\U{000C}' || c == '\U{00A0}' || c == '\U{1680}'
    || ('\U{2000}' <= c <= '\U{200A}')
    || c == '\U{2028}' || c == '\U{2029}' || c == '\U{202F}' || c == '\U{205F}'
    || c == '\U{3000}' || c == '\U{FEFF}'
  }

  predicate IsBlank(s: string) {
    forall i :: 0 <= i < |s| ==> IsWhitespace(s[i])
  }

  /** `s.trimStart()`: a suffix of `s`; what it drops is whitespace, what it keeps does not start with any. */
  function TrimStart(s: string): (r: string)
    ensures |r| <= |s| && r == s[|s| - |r|..]
    ensures r != [] ==> !IsWhitespace(r[0])
    ensures IsBlank(s[..|s| - |r|])
  {
    if s != [] && IsWhitespace(s[0]) then
      var r := TrimStart(s[1..]);
      assert forall i :: 1 <= i < |s| - |r| ==> s[1..][..|s| - 1 - |r|][i - 1] == s[i];
      r
    else s
  }

  /** `s.trimEnd()`: a prefix of `s`; what it drops is whitespace, what it keeps does not end with any. */
  function TrimEnd(s: string): (r: string)
    ensures |r| <= |s| && r == s[..|r|]
    ensures r != [] ==> !IsWhitespace(r[|r| - 1])
    ensures IsBlank(s[|r|..])
  {
    if s != [] && IsWhitespace(s[|s| - 1]) then TrimEnd(s[..|s| - 1]) else s
  }

  /** `s.trim()` */
  function Trim(s: string): string {
    TrimEnd(TrimStart(s))
  }

  /** `s.trim().length === 0` holds exactly for the strings made only of whitespace (the empty one included). */
  lemma TrimEmptyIffBlank(s: string)
    ensures Trim(s) == [] <==> IsBlank(s)
  {
    var t := TrimStart(s);
    if Trim(s) == [] {
      // what TrimEnd dropped is all of t, and t cannot start with whitespace, so t is empty
      assert t[|TrimEnd(t)|..] == t;
      assert t == [];
      assert s[..|s|] == s;
    } else {
      // t starts with the non-whitespace character s[|s| - |t|]
      assert t != [] && t[0] == s[|s| - |t|];
    }
  }

  /** A text that neither starts nor ends with whitespace is left alone by both trims. */
  lemma BareText(s: string)
    requires s != [] && !IsWhitespace(s[0]) && !IsWhitespace(s[|s| - 1])
    ensures TrimStart(s) == s && TrimEnd(s) == s && Trim(s) == s
  {
  }

  function LowerChar(c: char): char {
    if 'A' <= c <= 'Z' then (c as int + 32) as char else c
  }

  /** `s.toLowerCase()` on ASCII letters; every other character is kept. */
  function ToLower(s: string): (r: string)
    ensures |r| == |s|
    ensures forall i :: 0 <= i < |s| ==> r[i] == LowerChar(s[i])
  {
    seq(|s|, i requires 0 <= i < |s| => LowerChar(s[i]))
  }

  /** The index of the first `c` in `s`, or `|s|` when there is none. */
  function IndexOf(s: string, c: char): (k: nat)
    ensures k <= |s|
    ensures k < |s| ==> s[k] == c
    ensures forall i :: 0 <= i < k ==> s[i] != c
  {
    if s == [] then 0
    else if s[0] == c then 0
    else 1 + IndexOf(s[1..], c)
  }

  /** `s.replace(from, to)` with a one-character string pattern: only the first occurrence is replaced. */
  function ReplaceFirst(s: string, from: char, to: char): (r: string)
    ensures |r| == |s|
    ensures IndexOf(s, from) < |s| ==> r == s[IndexOf(s, from) := to]
    ensures IndexOf(s, from) == |s| ==> r == s
  {
    var k := IndexOf(s, from);
    if k < |s| then s[..k] + [to] + s[k + 1..] else s
  }

  /** How many UTF-16 code units `c` takes: a character above U+FFFF is a surrogate pair. */
  function Utf16Units(c: char): nat {
    if c as int >= 0x1_0000 then 2 else 1
  }

  /** `s.length`: JavaScript counts UTF-16 code units, not characters. */
  function Utf16Length(s: string): (n: nat)
    ensures |s| <= n <= 2 * |s|
    ensures n == 0 <==> |s| == 0
  {
    if |s| == 0 then 0 else Utf16Units(s[0]) + Utf16Length(s[1..])
  }

  /** Text made only of characters up to U+FFFF has one code unit per character. */
  lemma {:induction false} Utf16LengthOfBmp(s: string)
    requires forall i :: 0 <= i < |s| ==> s[i] as int < 0x1_0000
    ensures Utf16Length(s) == |s|
  {
    if |s| > 0 {
      assert forall i :: 0 <= i < |s[1..]| ==> s[1..][i] == s[i + 1];
      Utf16LengthOfBmp(s[1..]);
    }
  }

  /** Empty, or neither starting nor ending with whitespace. */
  predicate HasBareEdges(s: string) {
    s == [] || (!IsWhitespace(s[0]) && !IsWhitespace(s[|s| - 1]))
  }

  /** What `trim` returns neither starts nor ends with whitespace, and is empty exactly for blank text. */
  lemma TrimHasBareEdges(s: string)
    ensures HasBareEdges(Trim(s))
    ensures Trim(s) == [] <==> IsBlank(s)
  {
    TrimEmptyIffBlank(s);
    var t := TrimStart(s);
    var r := TrimEnd(t);
    if r != [] {
      assert r[0] == t[0];
    }
  }
}
