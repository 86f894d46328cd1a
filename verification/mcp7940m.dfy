/**
  The earlier MCP7940M driver: a six-digit time cache, per-digit getters,
  two-character hour, minute and second strings, and date strings formatted
  with `snprintf("%d")` into three-byte buffers. Register reads and writes
  become lookups in and updates of the register map.
*/
module Mcp7940m {
  import opened Avr
  import opened Bcd
  import Mcp7940n

  /** The characters `"%d"` prints for a non-negative number. */
  function DecimalString(n: nat): (s: string)
    ensures 1 <= |s|
    ensures forall i :: 0 <= i < |s| ==> IsDigitChar(s[i])
    decreases n
  {
    if n < 10 then [DigitChar(n)] else DecimalString(n / 10) + [DigitChar(n % 10)]
  }

  /** `"%d"` is read back as the number printed, and prints no leading zero. */
  lemma {:induction false} DecimalStringRoundTrip(n: nat)
    ensures DecimalValue(DecimalString(n)) == n
    ensures n > 0 ==> DecimalString(n)[0] != '0'
    decreases n
  {
    var s := DecimalString(n);
    if n >= 10 {
      DecimalStringRoundTrip(n / 10);
      assert s[..|s| - 1] == DecimalString(n / 10);
      assert CharValue(s[|s| - 1]) == n % 10;
    } else {
      assert s[..|s| - 1] == [];
    }
  }

  /** One digit below 10, two below 100, three up to 255. */
  lemma {:induction false} DecimalStringLength(n: nat)
    ensures n < 10 <==> |DecimalString(n)| == 1
    ensures n < 100 ==> |DecimalString(n)| <= 2
    ensures 100 <= n < 1000 ==> |DecimalString(n)| == 3
  {
    if n >= 10 {
      DecimalStringLength(n / 10);
    }
  }

  /**
    The C string `snprintf(buf, size, "%d", n)` leaves in `buf`: the
    decimal rendering cut to at most `size - 1` characters.
  */
  function Snprintf(n: nat, size: nat): (s: string)
    requires size >= 1
    ensures |s| == if |DecimalString(n)| <= size - 1 then |DecimalString(n)| else size - 1
    ensures s == DecimalString(n)[..|s|]
  {
    var d := DecimalString(n);
    if |d| <= size - 1 then d else d[..size - 1]
  }

  /**
    The hour, minute and second strings: the first character of each of
    two `snprintf` calls into two-byte buffers, then a NUL.
  */
  function FieldString(tens: uint8, ones: uint8): (s: string)
    ensures |s| == 3 && s[2] == Nul
  {
    [Snprintf(tens, 2)[0], Snprintf(ones, 2)[0], Nul]
  }

  /**
    For decimal digits the field string is the two digit characters; a
    cached ones digit of 10-15 (a register nibble that is not BCD) shows
    as '1'.
  */
  lemma FieldStringDigits(tens: uint8, ones: uint8)
    ensures tens <= 9 && ones <= 9 ==> FieldString(tens, ones) == [DigitChar(tens), DigitChar(ones), Nul]
    ensures 10 <= ones <= 15 ==> FieldString(tens, ones)[1] == '1'
  {
    if 10 <= ones <= 15 {
      assert DecimalString(ones) == DecimalString(ones / 10) + [DigitChar(ones % 10)];
      assert ones / 10 == 1;
    }
  }

  /**
    Both driver generations show the same time: the MCP7940M's hour, minute
    and second strings are the three groups of the MCP7940N's time string.
  */
  lemma FieldStringsMatchTimeString(t: seq<uint8>)
    requires TimeDigitsInRange(t) && t[1] <= 9 && t[3] <= 9 && t[5] <= 9
    ensures FieldString(t[4], t[5])[..2] == Mcp7940n.TimeString(t)[0..2]
    ensures FieldString(t[2], t[3])[..2] == Mcp7940n.TimeString(t)[3..5]
    ensures FieldString(t[0], t[1])[..2] == Mcp7940n.TimeString(t)[6..8]
  {
    FieldStringDigits(t[4], t[5]);
    FieldStringDigits(t[2], t[3]);
    FieldStringDigits(t[0], t[1]);
  }

  /** `RTC_get_weekday_string`: the day name for 1-7, the empty string otherwise. */
  function WeekdayString(b: bv8): (s: string)
    ensures s == "" <==> Mcp7940n.WeekdayInt(b) == 0
    ensures Mcp7940n.WeekdayInt(b) != 0 ==> s == DayNames[Mcp7940n.WeekdayInt(b) - 1]
  {
    var dayInt := Mcp7940n.WeekdayInt(b);
    if dayInt == 1 then "Monday"
    else if dayInt == 2 then "Tuesday"
    else if dayInt == 3 then "Wednesday"
    else if dayInt == 4 then "Thursday"
    else if dayInt == 5 then "Friday"
    else if dayInt == 6 then "Saturday"
    else if dayInt == 7 then "Sunday"
    else ""
  }

  /** `RTC_get_date_day_string`: the decoded day in decimal, one or two digits, no zero padding. */
  function DateDayString(b: bv8): (s: string)
    ensures 1 <= |s| <= 2 && (forall i :: 0 <= i < |s| ==> IsDigitChar(s[i]))
    ensures DayInt(b) < 10 <==> |s| == 1
  {
    DecimalStringLength(DayInt(b));
    Snprintf(DayInt(b), 3)
  }

  /** `RTC_get_month_num_string`: the decoded month in decimal, one or two digits, no zero padding. */
  function MonthNumString(b: bv8): (s: string)
    ensures 1 <= |s| <= 2 && (forall i :: 0 <= i < |s| ==> IsDigitChar(s[i]))
    ensures MonthInt(b) < 10 <==> |s| == 1
  {
    DecimalStringLength(MonthInt(b));
    Snprintf(MonthInt(b), 3)
  }

  /** `RTC_get_year_string`: the decoded year in decimal, cut to two characters when it exceeds 99. */
  function YearString(b: bv8): (s: string)
    ensures 1 <= |s| <= 2 && (forall i :: 0 <= i < |s| ==> IsDigitChar(s[i]))
    ensures YearInt(b) < 10 <==> |s| == 1
  {
    DecimalStringLength(YearInt(b));
    Snprintf(YearInt(b), 3)
  }

  /**
    The day and month strings are the decoded value in decimal, with no
    zero padding, and read back as that value.
  */
  lemma DayAndMonthStringsReadBack(b: bv8)
    ensures DecimalValue(DateDayString(b)) == DayInt(b) && |DateDayString(b)| <= 2
    ensures DecimalValue(MonthNumString(b)) == MonthInt(b) && |MonthNumString(b)| <= 2
    ensures DayInt(b) < 10 ==> |DateDayString(b)| == 1
  {
    DecimalStringLength(DayInt(b));
    DecimalStringLength(MonthInt(b));
    DecimalStringRoundTrip(DayInt(b));
    DecimalStringRoundTrip(MonthInt(b));
  }

  /**
    The year string reads back as the year when both nibbles are decimal
    digits; a year register whose decoded value exceeds 99 is cut to its
    first two digits.
  */
  lemma YearStringReadBack(b: bv8)
    ensures YearInt(b) <= 99 ==> DecimalValue(YearString(b)) == YearInt(b)
    ensures YearInt(b) > 99 ==> |YearString(b)| == 2 && YearString(b) == DecimalString(YearInt(b))[..2]
  {
    DecimalStringLength(YearInt(b));
    DecimalStringRoundTrip(YearInt(b));
  }

  /** Examples: the 5th prints as "5", not "05"; a year register of 0xFF decodes to 165 and prints "16". */
  lemma UnpaddedAndTruncatedExamples()
    ensures DateDayString(0x05) == "5"
    ensures YearString(0xFF) == "16"
  {
    assert DayInt(0x05) == 5;
    assert YearInt(0xFF) == 165;
    assert DecimalString(165) == DecimalString(16) + ['5'];
    assert DecimalString(16) == DecimalString(1) + ['6'];
  }

  class Rtc {
    /** The chip's registers; each register read or write is a lookup or update. */
    var regs: Registers
    /** `RTC_TIME`: seconds tens, seconds ones, minutes tens, minutes ones, hours tens, hours ones. */
    const rtcTime: array<uint8>

    ghost predicate Valid()
      reads this, rtcTime
    {
      rtcTime.Length == 6 && HasTimekeeping(regs) && TimeDigitsInRange(rtcTime[..])
    }

    /** `RTC_init`: the oscillator-enable byte goes into the seconds register; `RTC_TIME` is a zeroed static. */
    constructor (chip: Registers)
      requires HasTimekeeping(chip)
      ensures Valid() && fresh(rtcTime)
      ensures regs == chip[SecondsRegister := OscillatorEnable]
      ensures rtcTime[..] == [0, 0, 0, 0, 0, 0]
    {
      regs := chip[SecondsRegister := OscillatorEnable];
      rtcTime := new uint8[6](_ => 0);
      new;
      assert rtcTime[..] == [0, 0, 0, 0, 0, 0];
    }

    /** `RTC_set_time`: BCD hour, minute, second; the seconds byte gets the oscillator bit. */
    method SetTime(hour: bv8, min: bv8, sec: bv8)
      requires Valid()
      modifies this`regs
      ensures Valid()
      ensures regs == old(regs)[SecondsRegister := sec | OscillatorEnable]
                               [MinutesRegister := min][HoursRegister := hour]
    {
      regs := regs[SecondsRegister := sec | OscillatorEnable];
      regs := regs[MinutesRegister := min];
      regs := regs[HoursRegister := hour];
    }

    /** `RTC_update_current_time`: reads seconds, minutes, hours and caches their six digits. */
    method UpdateCurrentTime()
      requires Valid()
      modifies rtcTime
      ensures Valid()
      ensures rtcTime[..] == DecodeTime(regs[SecondsRegister], regs[MinutesRegister], regs[HoursRegister])
    {
      var raw0, raw1, raw2 := regs[SecondsRegister], regs[MinutesRegister], regs[HoursRegister];
      rtcTime[0] := SevenBitTens(raw0);
      rtcTime[1] := Ones(raw0);
      rtcTime[2] := SevenBitTens(raw1);
      rtcTime[3] := Ones(raw1);
      rtcTime[4] := HourTens(raw2);
      rtcTime[5] := Ones(raw2);
      assert rtcTime[..] == DecodeTime(raw0, raw1, raw2);
    }

    /**
      The six `RTC_get_time_*_int` getters in one: the cached digits, hour
      tens, hour ones, minute tens, minute ones, second tens, second ones.
    */
    method GetTimeDigits() returns (hourTens: uint8, hourOnes: uint8, minTens: uint8, minOnes: uint8,
                                    secTens: uint8, secOnes: uint8)
      requires Valid()
      ensures hourTens <= 3 && minTens <= 7 && secTens <= 7
      ensures hourOnes <= 15 && minOnes <= 15 && secOnes <= 15
      ensures [secTens, secOnes, minTens, minOnes, hourTens, hourOnes] == rtcTime[..]
    {
      hourTens := rtcTime[4];
      hourOnes := rtcTime[5];
      minTens := rtcTime[2];
      minOnes := rtcTime[3];
      secTens := rtcTime[0];
      secOnes := rtcTime[1];
    }

    /**
      `RTC_get_time_hour_string`, `RTC_get_time_min_string` and
      `RTC_get_time_sec_string`, as the three strings they return.
    */
    method GetTimeStrings() returns (hour: string, min: string, sec: string)
      requires Valid()
      ensures hour == FieldString(rtcTime[4], rtcTime[5])
      ensures min == FieldString(rtcTime[2], rtcTime[3])
      ensures sec == FieldString(rtcTime[0], rtcTime[1])
    {
      var tempTens := Snprintf(rtcTime[4], 2);
      var tempOnes := Snprintf(rtcTime[5], 2);
      hour := [tempTens[0], tempOnes[0], Nul];
      tempTens := Snprintf(rtcTime[2], 2);
      tempOnes := Snprintf(rtcTime[3], 2);
      min := [tempTens[0], tempOnes[0], Nul];
      tempTens := Snprintf(rtcTime[0], 2);
      tempOnes := Snprintf(rtcTime[1], 2);
      sec := [tempTens[0], tempOnes[0], Nul];
    }

    /** `RTC_set_weekday`: only 1-7 are written. */
    method SetWeekday(day: bv8)
      requires Valid()
      modifies this`regs
      ensures Valid()
      ensures regs == if 1 <= day as int <= 7 then old(regs)[WeekdayRegister := day] else old(regs)
    {
      if day <= 0 || day > 7 {
        return;
      }
      regs := regs[WeekdayRegister := day];
    }

    /** `RTC_get_weekday_int` and `RTC_get_weekday_string`. */
    method GetWeekday() returns (dayInt: uint8, dayString: string)
      requires Valid()
      ensures dayInt <= 7 && dayInt == Mcp7940n.WeekdayInt(regs[WeekdayRegister])
      ensures dayString == WeekdayString(regs[WeekdayRegister])
      ensures 1 <= dayInt ==> dayString == DayNames[dayInt - 1]
    {
      dayInt := (regs[WeekdayRegister] & 0x07) as int;
      dayString := WeekdayString(regs[WeekdayRegister]);
    }

    /** `RTC_set_date_day`: the BCD day of the month, written as given. */
    method SetDateDay(dateDay: bv8)
      requires Valid()
      modifies this`regs
      ensures Valid()
      ensures regs == old(regs)[DateDayRegister := dateDay]
    {
      regs := regs[DateDayRegister := dateDay];
    }

    /** `RTC_set_month`: the BCD month, written as given. */
    method SetMonth(month: bv8)
      requires Valid()
      modifies this`regs
      ensures Valid()
      ensures regs == old(regs)[MonthRegister := month]
    {
      regs := regs[MonthRegister := month];
    }

    /** `RTC_set_year`: the BCD year, written as given. */
    method SetYear(year: bv8)
      requires Valid()
      modifies this`regs
      ensures Valid()
      ensures regs == old(regs)[YearRegister := year]
    {
      regs := regs[YearRegister := year];
    }

    /** `RTC_get_date_day_string`. */
    method GetDateDayString() returns (dayString: string)
      requires Valid()
      ensures dayString == DateDayString(regs[DateDayRegister])
    {
      var dateDayHex := regs[DateDayRegister];
      var dateDayDec := (((dateDayHex & 0x30) >> 4) as int) * 10 + (dateDayHex & 0x0F) as int;
      assert dateDayDec == DayInt(dateDayHex);
      dayString := Snprintf(dateDayDec, 3);
    }

    /** `RTC_get_month_int`, `RTC_get_month_num_string` and `RTC_get_month_name_string`. */
    method GetMonth() returns (monthInt: uint8, monthNumString: string, monthName: string)
      requires Valid()
      ensures monthInt == MonthInt(regs[MonthRegister]) && monthInt <= 25
      ensures monthNumString == MonthNumString(regs[MonthRegister])
      ensures monthName == MonthName(regs[MonthRegister])
    {
      var monthHex := regs[MonthRegister] & 0x1F;
      monthInt := (((monthHex & 0x10) >> 4) as int) * 10 + (monthHex & 0x0F) as int;
      assert monthInt == MonthInt(regs[MonthRegister]);
      monthNumString := Snprintf(monthInt, 3);
      monthName := MonthName(regs[MonthRegister]);
    }

    /** `RTC_get_year_int` and `RTC_get_year_string`. */
    method GetYear() returns (yearInt: uint8, yearString: string)
      requires Valid()
      ensures yearInt == YearInt(regs[YearRegister]) && yearInt <= 165
      ensures yearString == YearString(regs[YearRegister])
    {
      var yearHex := regs[YearRegister];
      yearInt := (((yearHex & 0xF0) >> 4) as int) * 10 + (yearHex & 0x0F) as int;
      assert yearInt == YearInt(yearHex);
      yearString := Snprintf(yearInt, 3);
    }
  }
}
