/**
  The C integer types of the AVR target (8-bit `char`, 16-bit `int`,
  32-bit `long`) and the character arithmetic the firmware performs on them.
*/
module Avr {

  type uint8 = x: int | 0 <= x < 0x100
  type uint32 = x: int | 0 <= x < 0x1_0000_0000
  type int16 = x: int | -0x8000 <= x < 0x8000
  type int32 = x: int | -0x8000_0000 <= x < 0x8000_0000

  const Nul: char := '\0'

  predicate IsDigitChar(c: char) {
    '0' <= c <= '9'
  }

  /** `v + 48` (that is `v + '0'`) stored into a `char`, for the small values the firmware formats. */
  function DigitChar(v: nat): (c: char)
    requires v < 0x100 - 48
    ensures v <= 9 <==> IsDigitChar(c)
    ensures c as int - '0' as int == v
  {
    (v + 48) as char
  }

  /**
    `c - '0'` stored into a `uint8`: the `int` difference is truncated to
    eight bits, so a character below '0' wraps around.
  */
  function CharValue(c: char): (v: uint8)
    ensures IsDigitChar(c) ==> v <= 9 && DigitChar(v) == c
  {
    (c as int - 48) % 0x100
  }

  /** The number a string of decimal digits denotes, most significant digit first. */
  function DecimalValue(s: string): nat
    decreases |s|
  {
    if s == [] then 0 else 10 * DecimalValue(s[..|s| - 1]) + CharValue(s[|s| - 1])
  }
}
