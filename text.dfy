/** String helpers shared by the model: joining, prefixes, trimming, decimal rendering. */
module Text {

  /** `parts.join(sep)` in JavaScript, `sep.join(parts)` in Python. */
  function Join(parts: seq<string>, sep: string): (r: string)
    ensures |parts| == 0 ==> r == ""
    ensures |parts| == 1 ==> r == parts[0]
  {
    if |parts| == 0 then ""
    else if |parts| == 1 then parts[0]
    else parts[0] + sep + Join(parts[1..], sep)
  }

  /** `"'" + s + "'"`, the quoting used in validation messages. */
  function Quote(s: string): string {
    "'" + s + "'"
  }

  predicate StartsWith(s: string, prefix: string) {
    |prefix| <= |s| && s[..|prefix|] == prefix
  }

  predicate EndsWith(s: string, suffix: string) {
    |suffix| <= |s| && s[|s| - |suffix|..] == suffix
  }

  /** True when `needle` occurs in `s` at some position (`s.includes(needle)`, Python's `needle in s`). */
  predicate Contains(s: string, needle: string) {
    exists i :: 0 <= i <= |s| - |needle| && OccursAt(s, needle, i)
  }

  predicate OccursAt(s: string, needle: string, i: nat)
    requires i + |needle| <= |s|
  {
    s[i..i + |needle|] == needle
  }

  /** The characters matched by the regular expression class `[\x00-\x1f\x7f]`. */
  predicate IsControl(c: char) {
    c <= '\U{1F}' || c == '\U{7F}'
  }

  predicate HasControlChar(s: string) {
    exists i :: 0 <= i < |s| && IsControl(s[i])
  }

  /** The characters JavaScript's `String.prototype.trim` removes (WhiteSpace and LineTerminator). */
  predicate IsJsSpace(c: char) {
    c == '\t' || c == '\n' || c == '\U{0B}' || c == '\U{0C}' || c == '\r' || c == ' '
    || c == '\U{A0}' || c == '\U{1680}' || ('\U{2000}' <= c <= '\U{200A}')
    || c == '\U{2028}' || c == '\U{2029}' || c == '\U{202F}' || c == '\U{205F}'
    || c == '\U{3000}' || c == '\U{FEFF}'
  }

  /** The characters Python's `str.strip()` removes (those for which `str.isspace()` holds). */
  predicate IsPySpace(c: char) {
    c == '\t' || c == '\n' || c == '\U{0B}' || c == '\U{0C}' || c == '\r'
    || ('\U{1C}' <= c <= '\U{1F}') || c == ' ' || c == '\U{85}' || c == '\U{A0}'
    || c == '\U{1680}' || ('\U{2000}' <= c <= '\U{200A}') || c == '\U{2028}'
    || c == '\U{2029}' || c == '\U{202F}' || c == '\U{205F}' || c == '\U{3000}'
  }

  /** `s` with its leading characters satisfying `space` removed. */
  function TrimStart(s: string, space: char -> bool): (r: string)
    ensures |r| <= |s| && r == s[|s| - |r|..]
    ensures forall i :: 0 <= i < |s| - |r| ==> space(s[i])
    ensures r == [] || !space(r[0])
  {
    if s == [] || !space(s[0]) then s
    else
      var r := TrimStart(s[1..], space);
      assert s[1..][|s| - 1 - |r|..] == s[|s| - |r|..];
      r
  }

  /** `s` with its trailing characters satisfying `space` removed. */
  function TrimEnd(s: string, space: char -> bool): (r: string)
    ensures |r| <= |s| && r == s[..|r|]
    ensures forall i :: |r| <= i < |s| ==> space(s[i])
    ensures r == [] || !space(r[|r| - 1])
  {
    if s == [] || !space(s[|s| - 1]) then s
    else
      var r := TrimEnd(s[..|s| - 1], space);
      assert s[..|s| - 1][..|r|] == s[..|r|];
      r
  }

  /** `s.trim()` in JavaScript, `s.strip()` in Python, depending on `space`. */
  function Trim(s: string, space: char -> bool): string {
    TrimEnd(TrimStart(s, space), space)
  }

  /** A string trims to nothing exactly when every character of it is a space. */
  lemma {:induction false} TrimEmptyIff(s: string, space: char -> bool)
    ensures Trim(s, space) == [] <==> forall i :: 0 <= i < |s| ==> space(s[i])
  {
    var t := TrimStart(s, space);
    if Trim(s, space) == [] {
      forall i | 0 <= i < |s| ensures space(s[i]) {
        if i >= |s| - |t| {
          assert s[i] == t[i - (|s| - |t|)];
        }
      }
    } else {
      var r := Trim(s, space);
      assert r[|r| - 1] == t[|r| - 1] == s[|s| - |t| + |r| - 1];
    }
  }

  /** The first line of `s`: everything before the first `'\n'` (`s.split("\n")[0]`). */
  function FirstLine(s: string): (r: string)
    ensures |r| <= |s| && r == s[..|r|]
    ensures '\n' !in r
    ensures |r| < |s| ==> s[|r|] == '\n'
  {
    if s == [] || s[0] == '\n' then ""
    else [s[0]] + FirstLine(s[1..])
  }

  function DigitChar(d: nat): char
    requires d < 10
  {
    "0123456789"[d]
  }

  /** The decimal rendering of `n` (`String(n)` / `str(n)`), most significant digit first. */
  function NatToString(n: nat): (r: string)
    ensures |r| >= 1
    ensures forall i :: 0 <= i < |r| ==> '0' <= r[i] <= '9'
    decreases n
  {
    if n < 10 then [DigitChar(n)] else NatToString(n / 10) + [DigitChar(n % 10)]
  }

  /** The decimal rendering of an integer, with a leading `-` for negatives. */
  function IntToString(n: int): string {
    if n < 0 then "-" + NatToString(-n) else NatToString(n)
  }

  /**
   * Node's `path.join(dir, name)`: zero-length segments are dropped, the rest joined with one
   * `/`, and nothing at all joins to `"."` (normalisation is not modelled).
   */
  function PathJoin(dir: string, name: string): (r: string)
    ensures dir != "" && name != "" ==> r == dir + "/" + name
    ensures dir == "" ==> r == (if name == "" then "." else name)
    ensures name == "" ==> r == (if dir == "" then "." else dir)
  {
    if dir == "" && name == "" then "."
    else if dir == "" then name
    else if name == "" then dir
    else dir + "/" + name
  }
}
