/**
  Register map of the MCP7940 real-time clock and the BCD decoding that both
  driver generations (MCP7940M and MCP7940N) apply to its timekeeping
  registers. The chip stores every field as packed BCD: the tens digit in the
  upper bits, the ones digit in the low nibble, with control or status bits
  sharing some of the bytes.
*/
module Bcd {
  import opened Avr

  const OscillatorEnable: bv8 := 0x80

  const SecondsRegister := 0x00
  const MinutesRegister := 0x01
  const HoursRegister := 0x02
  const WeekdayRegister := 0x03
  const DateDayRegister := 0x04
  const MonthRegister := 0x05
  const YearRegister := 0x06

  const January: bv8 := 0x01
  const February: bv8 := 0x02
  const March: bv8 := 0x03
  const April: bv8 := 0x04
  const May: bv8 := 0x05
  const June: bv8 := 0x06
  const July: bv8 := 0x07
  const August: bv8 := 0x08
  const September: bv8 := 0x09
  const October: bv8 := 0x10
  const November: bv8 := 0x11
  const December: bv8 := 0x12

  /** The register file of the chip, standing in for the I2C transfers. */
  type Registers = map<int, bv8>

  /** The timekeeping registers the drivers read and write are all present. */
  predicate HasTimekeeping(regs: Registers) {
    forall a :: SecondsRegister <= a <= YearRegister ==> a in regs
  }

  const DayNames: seq<string> :=
    ["Monday", "Tuesday", "Wednesday", "Thursday", "Friday", "Saturday", "Sunday"]

  const MonthNames: seq<string> :=
    ["January", "February", "March", "April", "May", "June", "July",
     "August", "September", "October", "November", "December"]

  /** The BCD byte with tens digit `tens` and ones digit `ones`: `(tens << 4) | ones`. */
  function Pack(tens: nat, ones: nat): bv8
    requires tens < 16 && ones < 16
  {
    ((tens as bv8) << 4) | (ones as bv8)
  }

  /** `(b & 0x70) >> 4`: tens of seconds or minutes; bit 7 (oscillator start, or unused) is dropped. */
  function SevenBitTens(b: bv8): (d: uint8)
    ensures d <= 7
  {
    ((b & 0x70) >> 4) as int
  }

  /** `(b & 0x30) >> 4`: tens of the hour in 24-hour format. */
  function HourTens(b: bv8): (d: uint8)
    ensures d <= 3
  {
    ((b & 0x30) >> 4) as int
  }

  /** `b & 0x0F`: the ones digit. */
  function Ones(b: bv8): (d: uint8)
    ensures d <= 15
  {
    (b & 0x0F) as int
  }

  /**
    The six digits `RTC_update_current_time` caches from the seconds,
    minutes and hours registers, in the order seconds tens, seconds ones,
    minutes tens, minutes ones, hours tens, hours ones.
  */
  function DecodeTime(sec: bv8, min: bv8, hour: bv8): (t: seq<uint8>)
    ensures TimeDigitsInRange(t)
  {
    [SevenBitTens(sec), Ones(sec), SevenBitTens(min), Ones(min), HourTens(hour), Ones(hour)]
  }

  /** The bounds the masks put on the cached digits. */
  predicate TimeDigitsInRange(t: seq<uint8>) {
    && |t| == 6
    && t[0] <= 7 && t[2] <= 7 && t[4] <= 3
    && t[1] <= 15 && t[3] <= 15 && t[5] <= 15
  }

  /** `(((b & 0xF0) >> 4) * 10) + (b & 0x0F)`: both nibbles read as decimal digits. */
  function BcdToDecimal(b: bv8): (v: uint8)
    ensures v <= 165
    ensures v == 10 * (((b & 0xF0) >> 4) as int) + Ones(b)
  {
    (((b & 0xF0) >> 4) as int) * 10 + Ones(b)
  }

  /** Day of the month: tens in bits 4-5, ones in the low nibble. */
  function DayInt(b: bv8): (v: uint8)
    ensures v <= 45
    ensures v == 10 * HourTens(b) + Ones(b)
  {
    (((b & 0x30) >> 4) as int) * 10 + ((b & 0x0F) as int)
  }

  /** Month: the byte is masked with 0x1F, bit 4 is the tens digit. */
  function MonthInt(b: bv8): (v: uint8)
    ensures v <= 25
  {
    var m := b & 0x1F;
    (((m & 0x10) >> 4) as int) * 10 + ((m & 0x0F) as int)
  }

  /** Year: both nibbles, as `BcdToDecimal`. */
  function YearInt(b: bv8): (v: uint8)
    ensures v <= 165
  {
    BcdToDecimal(b)
  }

  /** `RTC_get_month_name_string`: a switch on the UNMASKED month register. */
  function MonthName(b: bv8): (s: string)
    ensures s != "" <==> IsBcdMonth(b)
    ensures IsBcdMonth(b) ==> 1 <= MonthInt(b) <= 12 && s == MonthNames[MonthInt(b) - 1]
  {
    if b == January then "January"
    else if b == February then "February"
    else if b == March then "March"
    else if b == April then "April"
    else if b == May then "May"
    else if b == June then "June"
    else if b == July then "July"
    else if b == August then "August"
    else if b == September then "September"
    else if b == October then "October"
    else if b == November then "November"
    else if b == December then "December"
    else ""
  }

  /** Bytes whose bits 5-7 are clear and whose digits are a month 1-12. */
  predicate IsBcdMonth(b: bv8) {
    b in {January, February, March, April, May, June, July, August,
          September, October, November, December}
  }

  // ---------------------------------------------------------------------
  // Properties of the decoders
  // ---------------------------------------------------------------------

  /** Setting bit 7 of the seconds byte (the oscillator-enable bit) never changes a cached digit. */
  lemma DecodeIgnoresOscillatorBit(sec: bv8, min: bv8, hour: bv8)
    ensures DecodeTime(sec | OscillatorEnable, min, hour) == DecodeTime(sec, min, hour)
  {
  }

  /**
    Writing BCD time bytes (seconds with the oscillator bit OR-ed in, as
    `RTC_set_time` does) and decoding them gives back the digits, provided
    they fit the fields the masks keep.
  */
  lemma DecodePackedTime(h1: nat, h0: nat, m1: nat, m0: nat, s1: nat, s0: nat)
    requires h1 <= 3 && m1 <= 7 && s1 <= 7
    requires h0 <= 15 && m0 <= 15 && s0 <= 15
    ensures DecodeTime(Pack(s1, s0) | OscillatorEnable, Pack(m1, m0), Pack(h1, h0))
         == [s1, s0, m1, m0, h1, h0]
  {
  }

  /** For a byte whose nibbles are decimal digits, the decimal value re-emits them as `/10` and `%10`. */
  lemma BcdToDecimalDigits(tens: nat, ones: nat)
    requires tens <= 9 && ones <= 9
    ensures BcdToDecimal(Pack(tens, ones)) / 10 == tens
    ensures BcdToDecimal(Pack(tens, ones)) % 10 == ones
  {
    var b := Pack(tens, ones);
    assert ((b & 0xF0) >> 4) as int == tens && Ones(b) == ones;
    assert BcdToDecimal(b) == 10 * tens + ones;
  }

  /** The day decoder ignores bits 6 and 7; the month decoder ignores bits 5-7. */
  lemma DecodersIgnoreStatusBits(b: bv8)
    ensures DayInt(b) == DayInt(b & 0x3F)
    ensures MonthInt(b) == MonthInt(b & 0x1F)
  {
  }

  /**
    The month-name switch yields a name exactly for the twelve BCD month
    values, and then the name of the month `MonthInt` decodes.
  */
  lemma MonthNameMatchesMonthInt(b: bv8)
    ensures MonthName(b) != "" <==> IsBcdMonth(b)
    ensures IsBcdMonth(b) ==> 1 <= MonthInt(b) <= 12 && MonthName(b) == MonthNames[MonthInt(b) - 1]
  {
  }

  /**
    Because the switch compares the unmasked byte, any byte with one of
    bits 5-7 set has no name, although `MonthInt` masks those bits away.
  */
  lemma MonthNameRejectsUpperBits(b: bv8)
    requires b & 0xE0 != 0
    ensures MonthName(b) == ""
    ensures MonthInt(b) == MonthInt(b & 0x1F)
  {
  }
}
