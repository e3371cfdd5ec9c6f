/** Character classes and string searches used by the regular expressions and `includes` tests of the extension. */
module Text {

  /** `t` occurs in `s` starting at index `j`. */
  predicate OccursAt(s: string, t: string, j: int)
  {
    0 <= j && j + |t| <= |s| && s[j..j + |t|] == t
  }

  /** `s.startsWith(p)`, compared character by character (the anchored regexes `/^\/watch/`, `/^\/channel\//`). */
  function StartsWith(s: string, p: string): (r: bool)
    ensures r <==> p <= s
  {
    if p == [] then true
    else if s == [] || s[0] != p[0] then false
    else StartsWith(s[1..], p[1..])
  }

  /** `s.includes(t)` restricted to positions `i` and later. */
  function ContainsFrom(s: string, t: string, i: nat): (r: bool)
    ensures r <==> exists j :: i <= j && OccursAt(s, t, j)
    decreases |s| - i
  {
    if i + |t| > |s| then false
    else if s[i..i + |t|] == t then assert OccursAt(s, t, i); true
    else ContainsFrom(s, t, i + 1)
  }

  /** `s.includes(t)`: some position of `s` starts a copy of `t`. */
  function Contains(s: string, t: string): (r: bool)
    ensures r <==> exists j :: OccursAt(s, t, j)
  {
    ContainsFrom(s, t, 0)
  }

  /** The character class `[\w-]` of a JavaScript regex without the `u` flag: ASCII letters, digits, `_` and `-`. */
  predicate IsIdChar(c: char)
  {
    ('A' <= c <= 'Z') || ('a' <= c <= 'z') || ('0' <= c <= '9') || c == '_' || c == '-'
  }

  /** The longest prefix of `s` made of `[\w-]` characters: what the greedy `[\w-]+` consumes. */
  function IdRun(s: string): (r: string)
    ensures r <= s
    ensures forall k :: 0 <= k < |r| ==> IsIdChar(r[k])
    ensures |r| < |s| ==> !IsIdChar(s[|r|])
  {
    if s != [] && IsIdChar(s[0]) then [s[0]] + IdRun(s[1..]) else []
  }

  /** The decimal digit for `d`. */
  function Digit(d: nat): (c: char)
    requires d < 10
    ensures '0' <= c <= '9'
  {
    "0123456789"[d]
  }

  /** The number a string of decimal digits spells, most significant digit first. */
  function DigitsValue(s: string): nat
    requires forall k :: 0 <= k < |s| ==> '0' <= s[k] <= '9'
  {
    if s == [] then 0 else DigitsValue(s[..|s| - 1]) * 10 + ((s[|s| - 1] as int) - ('0' as int))
  }

  /** A number as a template literal prints it: its decimal digits, without leading zeros. */
  function DecimalString(n: nat): (r: string)
    ensures r != [] && forall k :: 0 <= k < |r| ==> '0' <= r[k] <= '9'
    ensures |r| > 1 ==> r[0] != '0'
    ensures DigitsValue(r) == n
  {
    if n < 10 then [Digit(n)] else DecimalString(n / 10) + [Digit(n % 10)]
  }
}
