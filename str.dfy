/** The two string helpers of Laravel's `Str` that the descriptors and the sort parser rely on. */
module Str {

  predicate IsSeparator(c: char)
  {
    c == '_' || c == '-' || c == ' '
  }

  predicate IsUpper(c: char)
  {
    'A' <= c <= 'Z'
  }

  function ToUpper(c: char): char
  {
    if 'a' <= c <= 'z' then (c as int - 32) as char else c
  }

  function ToLower(c: char): char
  {
    if IsUpper(c) then (c as int + 32) as char else c
  }

  function LowerAll(s: string): string
  {
    seq(|s|, i requires 0 <= i < |s| => ToLower(s[i]))
  }

  /** The words of `s`: separators end a word and, when `splitCaps` holds, so does the start of an upper-case letter. */
  function Words(s: string, splitCaps: bool, current: string): seq<string>
    decreases |s|
  {
    if s == [] then
      (if current == [] then [] else [current])
    else if IsSeparator(s[0]) then
      (if current == [] then [] else [current]) + Words(s[1..], splitCaps, [])
    else if splitCaps && IsUpper(s[0]) && current != [] then
      [current] + Words(s[1..], splitCaps, [s[0]])
    else
      Words(s[1..], splitCaps, current + [s[0]])
  }

  function Title(w: string): string
  {
    if w == [] then [] else [ToUpper(w[0])] + LowerAll(w[1..])
  }

  function JoinTitled(ws: seq<string>): string
  {
    if ws == [] then []
    else if |ws| == 1 then Title(ws[0])
    else Title(ws[0]) + " " + JoinTitled(ws[1..])
  }

  /**
   * `Str::headline`: "user_name" and "userName" both become "User Name".
   * ASCII letters only; a name that contains a space is not split at its capitals.
   */
  function Headline(s: string): string
  {
    JoinTitled(Words(s, ' ' !in s, []))
  }

  /** `Str::startsWith($s, $prefix)`: an empty prefix never matches. */
  predicate StartsWith(s: string, prefix: string)
  {
    prefix != [] && prefix <= s
  }
}
