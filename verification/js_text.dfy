/** The JavaScript string primitives the calculation engine relies on:
    `toLowerCase`, `trim`, `split(" ")[0]`, `startsWith` and `includes`.
    Case mapping is modelled for ASCII letters only. */
module JsText {

  predicate IsUpper(c: char) {
    'A' <= c <= 'Z'
  }

  function LowerChar(c: char): char {
    if IsUpper(c) then (c as int - 'A' as int + 'a' as int) as char else c
  }

  /** `s.toLowerCase()`. */
  function ToLower(s: string): (r: string)
    ensures |r| == |s|
    ensures forall i | 0 <= i < |r| :: !IsUpper(r[i])
    ensures forall i | 0 <= i < |s| ::
      r[i] == if IsUpper(s[i]) then (s[i] as int - 'A' as int + 'a' as int) as char else s[i]
  {
    seq(|s|, i requires 0 <= i < |s| => LowerChar(s[i]))
  }

  /** The characters JavaScript's `trim` and `parseFloat` skip: the
      WhiteSpace and LineTerminator productions of ECMAScript. */
  predicate IsSpace(c: char) {
    || c == ' ' || c == '\t' || c == '\n' || c == '\r'
    || c == '\U{000B}' || c == '\U{000C}' || c == '\U{00A0}' || c == '\U{1680}'
    || ('\U{2000}' <= c <= '\U{200A}')
    || c == '\U{2028}' || c == '\U{2029}' || c == '\U{202F}' || c == '\U{205F}'
    || c == '\U{3000}' || c == '\U{FEFF}'
  }

  /** `s.trimStart()`: the suffix left after dropping leading white space. */
  function TrimStart(s: string): (r: string)
    ensures |r| <= |s| && r == s[|s| - |r|..]
    ensures |r| > 0 ==> !IsSpace(r[0])
    ensures forall i | 0 <= i < |s| - |r| :: IsSpace(s[i])
  {
    if |s| > 0 && IsSpace(s[0]) then TrimStart(s[1..]) else s
  }

  /** `s.trimEnd()`: the prefix left after dropping trailing white space. */
  function TrimEnd(s: string): (r: string)
    ensures r <= s
    ensures |r| > 0 ==> !IsSpace(r[|r| - 1])
    ensures forall i | |r| <= i < |s| :: IsSpace(s[i])
  {
    if |s| > 0 && IsSpace(s[|s| - 1]) then TrimEnd(s[..|s| - 1]) else s
  }

  /** `s.trim()`. */
  function Trim(s: string): string {
    TrimEnd(TrimStart(s))
  }

  /** `s.split(" ")[0]`: everything before the first space character. */
  function FirstToken(s: string): (r: string)
    ensures r <= s
    ensures ' ' !in r
    ensures |r| < |s| ==> s[|r|] == ' '
  {
    if |s| == 0 || s[0] == ' ' then "" else [s[0]] + FirstToken(s[1..])
  }

  /** `unit.toLowerCase().split(" ")[0]`: the leading token by which the
      engine compares units, so that "mcg" and "mcg DFE" agree. */
  function UnitToken(unit: string): string {
    FirstToken(ToLower(unit))
  }

  /** Two units agree when their leading tokens are equal. */
  predicate SameUnitToken(a: string, b: string) {
    UnitToken(a) == UnitToken(b)
  }

  /** `s.startsWith(prefix)`. */
  predicate StartsWith(s: string, prefix: string) {
    prefix <= s
  }

  /** `s.includes(sub)`. */
  predicate Contains(s: string, sub: string) {
    sub <= s || (|s| > 0 && Contains(s[1..], sub))
  }

  /** A unit written as one lower-case word is its own token. */
  lemma UnitTokenOfWord(s: string)
    requires ' ' !in s
    requires forall i | 0 <= i < |s| :: !IsUpper(s[i])
    ensures UnitToken(s) == s
  {
    assert ToLower(s) == s;
  }

  /** The token of a unit that does not start with a space is never empty. */
  lemma UnitTokenNonEmpty(s: string)
    requires |s| > 0 && s[0] != ' '
    ensures |UnitToken(s)| > 0
  {
    assert ToLower(s)[0] == LowerChar(s[0]);
  }
}
