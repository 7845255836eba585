/** Character classes of the HTTP parser in its strict build. A byte is a `char`
    below 256; no definition needs that bound, so every result also holds without it. */
module Bytes {

  const CR := '\r'
  const LF := '\n'
  const ULLONG_MAX: nat := 0xFFFF_FFFF_FFFF_FFFF

  datatype Option<+T> = None | Some(value: T)

  /** The C expression `c | 0x20` on one byte. */
  function Lower(c: char): char {
    if c < ' ' || '@' <= c < '`' || '\U{80}' <= c < '\U{A0}' || '\U{C0}' <= c < '\U{E0}'
    then (c as int + 32) as char
    else c
  }

  predicate IsAlpha(c: char) { 'a' <= c <= 'z' || 'A' <= c <= 'Z' }

  predicate IsNum(c: char) { '0' <= c <= '9' }

  predicate IsAlphaNum(c: char) { IsAlpha(c) || IsNum(c) }

  predicate IsHex(c: char) { IsNum(c) || 'a' <= c <= 'f' || 'A' <= c <= 'F' }

  predicate IsMark(c: char) {
    c == '-' || c == '_' || c == '.' || c == '!' || c == '~' || c == '*' || c == '\'' || c == '(' || c == ')'
  }

  predicate IsUserinfoChar(c: char) {
    IsAlphaNum(c) || IsMark(c) || c == '%' || c == ';' || c == ':' || c == '&' || c == '=' || c == '+'
    || c == '$' || c == ','
  }

  predicate IsHostChar(c: char) { IsAlphaNum(c) || c == '.' || c == '-' }

  predicate IsUrlChar(c: char) { '!' <= c <= '~' && c != '#' && c != '?' }

  /** A visible character, a tab, a line end, or any byte above 127. */
  predicate IsHeaderChar(c: char) { c == CR || c == LF || c == '\t' || (' ' <= c && c != '\U{7F}') }

  predicate IsToken(c: char) {
    IsAlphaNum(c) || c == '!' || c == '#' || c == '$' || c == '%' || c == '&' || c == '\'' || c == '*'
    || c == '+' || c == '-' || c == '.' || c == '^' || c == '_' || c == '`' || c == '|' || c == '~'
  }

  /** The lower-case image of a letter; every other character is itself. */
  function Fold(c: char): char {
    if 'A' <= c <= 'Z' then (c as int + 32) as char else c
  }

  /** The token table: the lower-cased token character. */
  function Token(c: char): char
    requires IsToken(c)
  {
    Fold(c)
  }

  function Digit(c: char): nat
    requires IsNum(c)
  {
    c as int - '0' as int
  }

  function Unhex(c: char): nat
    requires IsHex(c)
  {
    if IsNum(c) then c as int - '0' as int
    else if 'a' <= c then c as int - 'a' as int + 10
    else c as int - 'A' as int + 10
  }

  function FoldAll(s: string): (r: string)
    ensures |r| == |s|
  {
    seq(|s|, i requires 0 <= i < |s| => Fold(s[i]))
  }
}
