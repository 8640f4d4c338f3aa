/** Small shared vocabulary: an Option type, the character predicates the
    MML front end relies on, and C-style reads of a NUL-terminated string. */
module Base {

  datatype Option<T> = None | Some(value: T)

  /** The C string terminator, also what VskScanner::peek returns at the end. */
  const NUL: char := '\0'

  /** vsk_isblank: space or horizontal tab. */
  predicate IsBlank(c: char) { c == ' ' || c == '\t' }

  /** vsk_isdigit: an ASCII decimal digit. */
  predicate IsDigit(c: char) { '0' <= c <= '9' }

  /** vsk_isupper: an ASCII upper-case letter. */
  predicate IsUpper(c: char) { 'A' <= c <= 'Z' }

  /** vsk_toupper / CharUpperA on one character: ASCII letters only. */
  function ToUpper(c: char): (u: char)
    ensures IsUpper(u) <==> IsUpper(c) || 'a' <= c <= 'z'
    ensures !('a' <= c <= 'z') ==> u == c
  {
    if 'a' <= c <= 'z' then (c as int - 32) as char else c
  }

  /** CharUpperA on a whole string. */
  function UpperString(s: string): (u: string)
    ensures |u| == |s|
    ensures forall j :: 0 <= j < |s| ==> u[j] == ToUpper(s[j])
  {
    if s == [] then [] else [ToUpper(s[0])] + UpperString(s[1..])
  }

  /** `*pch` for a pointer `pch = str.c_str() + i`: the terminator past the end. */
  function At(s: string, i: nat): char
  {
    if i < |s| then s[i] else NUL
  }

  /** Decimal value of a digit character. */
  function DigitValue(c: char): nat
    requires IsDigit(c)
  {
    c as int - '0' as int
  }

  /** The digit character of a number below ten. */
  function DigitChar(d: nat): (c: char)
    requires d < 10
    ensures IsDigit(c) && DigitValue(c) == d
  {
    ('0' as int + d) as char
  }

  /** Conversion of an int to uint8_t (keeps the low 8 bits). */
  function U8(x: int): (r: int)
    ensures 0 <= r < 256
  {
    x % 256
  }

  /** `x & (2^k - 1)` for a non-negative mask width, on two's complement ints. */
  function LowBits(x: int, k: nat): (r: int)
    ensures 0 <= r < Pow2(k)
  {
    x % Pow2(k)
  }

  function Pow2(k: nat): (p: nat)
    ensures p >= 1
  {
    if k == 0 then 1 else 2 * Pow2(k - 1)
  }

  /** Conversion of a non-negative real to an unsigned integer (truncation). */
  function Trunc(r: real): (n: nat)
    requires r >= 0.0
    ensures n as real <= r < n as real + 1.0
  {
    r.Floor
  }

  function Max(a: int, b: int): int { if a < b then b else a }
  function Min(a: int, b: int): int { if a < b then a else b }
}
