/**
  The newer MCP7940N driver: a cache of the six time digits, the alarm time
  kept in RAM with an enable flag and an Active/Inactive latch, and the
  string builders the clock face and the settings editor use. The chip's
  registers are a map from address to byte.
*/
module Mcp7940n {
  import opened Avr
  import opened Bcd

  const AlarmDisabled: bv8 := 0x00
  const AlarmEnabled: bv8 := 0x01
  const AlarmInactive: bv8 := 0x00
  const AlarmActive: bv8 := 0x01

  /** `dayStrings` of `RTC_get_weekday_string`: entry 0 is the error text. */
  const WeekdayStrings: seq<string> :=
    ["Error", "Monday", "Tuesday", "Wednesday", "Thursday", "Friday", "Saturday", "Sunday"]

  // ---------------------------------------------------------------------
  // Values computed from the cached time digits
  // ---------------------------------------------------------------------

  /** `RTC_get_time_seconds_int`: the cached seconds digits as a number (no `uint8` truncation occurs). */
  function SecondsInt(t: seq<uint8>): (v: uint8)
    requires TimeDigitsInRange(t)
    ensures v <= 85
    ensures t[1] <= 9 ==> v / 10 == t[0] && v % 10 == t[1]
  {
    t[0] * 10 + t[1]
  }

  /** `RTC_get_time_minutes_int`. */
  function MinutesInt(t: seq<uint8>): (v: uint8)
    requires TimeDigitsInRange(t)
    ensures v <= 85
    ensures t[3] <= 9 ==> v / 10 == t[2] && v % 10 == t[3]
  {
    t[2] * 10 + t[3]
  }

  /** `RTC_get_time_hours_int`. */
  function HoursInt(t: seq<uint8>): (v: uint8)
    requires TimeDigitsInRange(t)
    ensures v <= 45
    ensures t[5] <= 9 ==> v / 10 == t[4] && v % 10 == t[5]
  {
    t[4] * 10 + t[5]
  }

  /** `RTC_get_time_string`: "HH:MM:SS" and a NUL, each digit the cached digit plus 48. */
  function TimeString(t: seq<uint8>): (s: string)
    requires TimeDigitsInRange(t)
    ensures |s| == 9 && s[2] == ':' && s[5] == ':' && s[8] == Nul
    ensures t[1] <= 9 && t[3] <= 9 && t[5] <= 9 ==> ShowsTime(s, HoursInt(t), MinutesInt(t), SecondsInt(t))
  {
    [DigitChar(t[4]), DigitChar(t[5]), ':', DigitChar(t[2]), DigitChar(t[3]), ':',
     DigitChar(t[0]), DigitChar(t[1]), Nul]
  }

  /** Decimal digits at 0-1, 3-4 and 6-7, read back as numbers, are the hours, minutes and seconds. */
  predicate ShowsTime(s: string, hours: int, minutes: int, seconds: int) {
    && |s| == 9 && s[2] == ':' && s[5] == ':' && s[8] == Nul
    && IsDigitChar(s[0]) && IsDigitChar(s[1]) && IsDigitChar(s[3])
    && IsDigitChar(s[4]) && IsDigitChar(s[6]) && IsDigitChar(s[7])
    && 10 * CharValue(s[0]) + CharValue(s[1]) == hours
    && 10 * CharValue(s[3]) + CharValue(s[4]) == minutes
    && 10 * CharValue(s[6]) + CharValue(s[7]) == seconds
  }

  /** Whenever the cached digits are decimal, the time string shows what the three integer getters return. */
  lemma TimeStringShowsIntGetters(t: seq<uint8>)
    requires TimeDigitsInRange(t)
    requires t[1] <= 9 && t[3] <= 9 && t[5] <= 9
    ensures ShowsTime(TimeString(t), HoursInt(t), MinutesInt(t), SecondsInt(t))
  {
    var s := TimeString(t);
    assert CharValue(s[0]) == t[4] && CharValue(s[1]) == t[5];
    assert CharValue(s[3]) == t[2] && CharValue(s[4]) == t[3];
    assert CharValue(s[6]) == t[0] && CharValue(s[7]) == t[1];
  }

  // ---------------------------------------------------------------------
  // Alarm time, alarm string and the alarm latch
  // ---------------------------------------------------------------------

  /** What `RTC_set_alarm_time` stores: seconds, minutes, hours, each BCD byte read as a decimal number. */
  function AlarmFromBcd(hours: bv8, minutes: bv8, seconds: bv8): (a: seq<uint8>)
    ensures |a| == 3 && a[0] <= 165 && a[1] <= 165 && a[2] <= 165
  {
    [BcdToDecimal(seconds), BcdToDecimal(minutes), BcdToDecimal(hours)]
  }

  predicate AlarmInRange(a: seq<uint8>) {
    |a| == 3 && a[0] <= 165 && a[1] <= 165 && a[2] <= 165
  }

  /** `RTC_get_alarm_time_string`: "HH:MM:SS" and a NUL, each field emitted as `/10` and `%10`. */
  function AlarmString(a: seq<uint8>): (s: string)
    requires AlarmInRange(a)
    ensures |s| == 9 && s[2] == ':' && s[5] == ':' && s[8] == Nul
    ensures a[0] <= 99 && a[1] <= 99 && a[2] <= 99 ==> ShowsTime(s, a[2], a[1], a[0])
  {
    [DigitChar(a[2] / 10), DigitChar(a[2] % 10), ':', DigitChar(a[1] / 10), DigitChar(a[1] % 10), ':',
     DigitChar(a[0] / 10), DigitChar(a[0] % 10), Nul]
  }

  /**
    Alarm round trip: setting the alarm from BCD bytes whose digits are 0-9
    and reading the alarm string reproduces those digits as "HH:MM:SS".
  */
  lemma AlarmStringRoundTrip(h1: nat, h0: nat, m1: nat, m0: nat, s1: nat, s0: nat)
    requires h1 <= 9 && h0 <= 9 && m1 <= 9 && m0 <= 9 && s1 <= 9 && s0 <= 9
    ensures AlarmString(AlarmFromBcd(Pack(h1, h0), Pack(m1, m0), Pack(s1, s0)))
         == [DigitChar(h1), DigitChar(h0), ':', DigitChar(m1), DigitChar(m0), ':',
             DigitChar(s1), DigitChar(s0), Nul]
  {
    BcdToDecimalDigits(h1, h0);
    BcdToDecimalDigits(m1, m0);
    BcdToDecimalDigits(s1, s0);
  }

  /**
    The comparison in `RTC_check_alarm_match`: hours, minutes and seconds
    all equal the alarm fields. With decimal cached digits, the time matches
    exactly when the time string shows the alarm's hours, minutes and seconds.
  */
  function TimeMatchesAlarm(t: seq<uint8>, a: seq<uint8>): (r: bool)
    requires TimeDigitsInRange(t) && |a| == 3
    ensures r ==> a[0] <= 85 && a[1] <= 85 && a[2] <= 45
    ensures t[1] <= 9 && t[3] <= 9 && t[5] <= 9 ==> (r <==> ShowsTime(TimeString(t), a[2], a[1], a[0]))
  {
    SecondsInt(t) == a[0] && MinutesInt(t) == a[1] && HoursInt(t) == a[2]
  }

  /** The latch step of `RTC_check_alarm_match`. */
  function NextAlarmStatus(enabled: bv8, status: bv8, matches: bool): (r: bv8)
    ensures status == AlarmActive ==> r == AlarmActive
    ensures r != status <==> enabled == AlarmEnabled && status == AlarmInactive && matches
    ensures r != status ==> r == AlarmActive
  {
    if enabled == AlarmEnabled && status == AlarmInactive && matches then AlarmActive else status
  }

  /** A second check against the same time finds the latch as the first one left it. */
  lemma RecheckKeepsStatus(enabled: bv8, status: bv8, matches: bool)
    ensures NextAlarmStatus(enabled, NextAlarmStatus(enabled, status, matches), matches)
         == NextAlarmStatus(enabled, status, matches)
  {
  }

  /** The latch after a run of checks, one per entry of `matches` (whether the time matched at that check). */
  function StatusAfterChecks(enabled: bv8, status: bv8, matches: seq<bool>): bv8
    decreases |matches|
  {
    if matches == [] then status
    else StatusAfterChecks(enabled, NextAlarmStatus(enabled, status, matches[0]), matches[1..])
  }

  /**
    Starting inactive with the alarm enabled, a run of checks ends active
    exactly when at least one check saw a matching time.
  */
  lemma {:induction false} LatchSetByAnyMatch(matches: seq<bool>)
    ensures StatusAfterChecks(AlarmEnabled, AlarmInactive, matches) == AlarmActive
        <==> exists i :: 0 <= i < |matches| && matches[i]
  {
    if matches != [] {
      if matches[0] {
        LatchHolds(AlarmEnabled, matches[1..]);
      } else {
        LatchSetByAnyMatch(matches[1..]);
        assert forall i :: 1 <= i < |matches| ==> matches[i] == matches[1..][i - 1];
      }
    }
  }

  /** Once active, the latch stays active whatever the times seen later. */
  lemma {:induction false} LatchHolds(enabled: bv8, matches: seq<bool>)
    ensures StatusAfterChecks(enabled, AlarmActive, matches) == AlarmActive
  {
    if matches != [] {
      LatchHolds(enabled, matches[1..]);
    }
  }

  /** With the alarm not enabled (any value other than 1), checks never change the latch. */
  lemma {:induction false} DisabledLatchUnchanged(enabled: bv8, status: bv8, matches: seq<bool>)
    requires enabled != AlarmEnabled
    ensures StatusAfterChecks(enabled, status, matches) == status
  {
    if matches != [] {
      DisabledLatchUnchanged(enabled, status, matches[1..]);
    }
  }

  // ---------------------------------------------------------------------
  // Register decoders and the strings built from them
  // ---------------------------------------------------------------------

  /** `RTC_get_weekday_int`: the low three bits of the weekday register. */
  function WeekdayInt(b: bv8): (d: uint8)
    ensures d <= 7
    ensures 1 <= b as int <= 7 ==> d == b as int
  {
    (b & 0x07) as int
  }

  /** `RTC_get_weekday_string`: "Error" for the masked value 0, otherwise the day name. */
  function WeekdayString(b: bv8): (s: string)
    ensures s == "Error" <==> WeekdayInt(b) == 0
    ensures WeekdayInt(b) != 0 ==> s == DayNames[WeekdayInt(b) - 1]
  {
    var dayInt := WeekdayInt(b);
    if 1 <= dayInt <= 7 then WeekdayStrings[dayInt] else WeekdayStrings[0]
  }

  /** The three-character builders for day, month number and year: two digits and a NUL. */
  function TwoDigitString(v: uint8): (s: string)
    ensures |s| == 3 && s[2] == Nul
    ensures v <= 99 ==> IsDigitChar(s[0]) && IsDigitChar(s[1]) && 10 * CharValue(s[0]) + CharValue(s[1]) == v
  {
    if v < 10 then ['0', DigitChar(v), Nul]
    else [DigitChar(v / 10), DigitChar(v % 10), Nul]
  }

  /**
    Both branches of the two-digit builders emit `v / 10` and `v % 10`; for a
    value below 100 the two characters are decimal digits that read back as v.
  */
  lemma TwoDigitStringIsTensAndOnes(v: uint8)
    ensures TwoDigitString(v) == [DigitChar(v / 10), DigitChar(v % 10), Nul]
    ensures v <= 99 ==>
              && IsDigitChar(TwoDigitString(v)[0]) && IsDigitChar(TwoDigitString(v)[1])
              && 10 * CharValue(TwoDigitString(v)[0]) + CharValue(TwoDigitString(v)[1]) == v
  {
    var s := TwoDigitString(v);
    if v < 10 {
      assert v / 10 == 0 && v % 10 == v;
    }
    assert CharValue(s[0]) == v / 10 && CharValue(s[1]) == v % 10;
  }

  /** `RTC_get_date_string`: "DD-MM-YY" and a NUL from the three decoded registers. */
  function DateString(day: uint8, month: uint8, year: uint8): (s: string)
    ensures |s| == 9 && s[2] == '-' && s[5] == '-' && s[8] == Nul
    ensures day <= 99 ==> IsDigitChar(s[0]) && IsDigitChar(s[1]) && 10 * CharValue(s[0]) + CharValue(s[1]) == day
    ensures month <= 99 ==> IsDigitChar(s[3]) && IsDigitChar(s[4]) && 10 * CharValue(s[3]) + CharValue(s[4]) == month
    ensures year <= 99 ==> IsDigitChar(s[6]) && IsDigitChar(s[7]) && 10 * CharValue(s[6]) + CharValue(s[7]) == year
  {
    [DigitChar(day / 10), DigitChar(day % 10), '-', DigitChar(month / 10), DigitChar(month % 10), '-',
     DigitChar(year / 10), DigitChar(year % 10), Nul]
  }

  /** The date string is the three two-digit strings joined by '-'. */
  lemma DateStringJoinsTwoDigitStrings(day: uint8, month: uint8, year: uint8)
    ensures DateString(day, month, year)
         == TwoDigitString(day)[..2] + ['-'] + TwoDigitString(month)[..2] + ['-']
            + TwoDigitString(year)[..2] + [Nul]
  {
    TwoDigitStringIsTensAndOnes(day);
    TwoDigitStringIsTensAndOnes(month);
    TwoDigitStringIsTensAndOnes(year);
  }

  /** A set weekday 1-7 is read back, by the string getter, as its day name. */
  lemma WeekdayRoundTrip(day: bv8)
    requires 1 <= day as int <= 7
    ensures WeekdayString(day) == DayNames[day as int - 1]
  {
  }

  /** Writes `v` as `TwoDigitString` does into a caller's three-character array. */
  method FillTwoDigits(s: array<char>, v: uint8)
    requires s.Length >= 3
    modifies s
    ensures s[..3] == TwoDigitString(v) && s[3..] == old(s[3..])
  {
    if v < 10 {
      s[0] := '0';
      s[1] := DigitChar(v);
      s[2] := Nul;
    } else {
      s[0] := DigitChar(v / 10);
      s[1] := DigitChar(v % 10);
      s[2] := Nul;
    }
  }

  // ---------------------------------------------------------------------
  // The driver state
  // ---------------------------------------------------------------------

  class Rtc {
    /** The chip's registers; each `_read_register`/`_write_register` is a lookup/update. */
    var regs: Registers
    /** `_currentTime`: seconds tens, seconds ones, minutes tens, minutes ones, hours tens, hours ones. */
    const currentTime: array<uint8>
    /** `_alarmTime`: seconds, minutes, hours as decimal numbers. */
    const alarmTime: array<uint8>
    var alarmEnabled: bv8
    var alarmStatus: bv8

    ghost predicate Valid()
      reads this, currentTime, alarmTime
    {
      && currentTime.Length == 6 && alarmTime.Length == 3
      && currentTime != alarmTime
      && HasTimekeeping(regs)
      && TimeDigitsInRange(currentTime[..])
      && AlarmInRange(alarmTime[..])
    }

    /**
      `RTC_init`: writes the oscillator-enable byte into the seconds register,
      disables the alarm and clears the latch. The two arrays are C statics,
      zero before `RTC_init` runs.
    */
    constructor (chip: Registers)
      requires HasTimekeeping(chip)
      ensures Valid() && fresh(currentTime) && fresh(alarmTime)
      ensures regs == chip[SecondsRegister := OscillatorEnable]
      ensures currentTime[..] == [0, 0, 0, 0, 0, 0] && alarmTime[..] == [0, 0, 0]
      ensures alarmEnabled == AlarmDisabled && alarmStatus == AlarmInactive
    {
      regs := chip[SecondsRegister := OscillatorEnable];
      currentTime := new uint8[6](_ => 0);
      alarmTime := new uint8[3](_ => 0);
      alarmEnabled := AlarmDisabled;
      alarmStatus := AlarmInactive;
      new;
      assert currentTime[..] == [0, 0, 0, 0, 0, 0];
      assert alarmTime[..] == [0, 0, 0];
    }

    /** `RTC_set_time`: BCD hour, minute, second; the seconds byte gets the oscillator bit. */
    method SetTime(hour: bv8, min: bv8, sec: bv8)
      requires Valid()
      modifies this`regs
      ensures Valid()
      ensures regs == old(regs)[SecondsRegister := sec | OscillatorEnable]
                               [MinutesRegister := min][HoursRegister := hour]
    {
      regs := regs[SecondsRegister := sec | OscillatorEnable];
      regs := regs[MinutesRegister := min];
      regs := regs[HoursRegister := hour];
    }

    /** `RTC_update_current_time`: re-reads the three time registers into the digit cache. */
    method UpdateCurrentTime()
      requires Valid()
      modifies currentTime
      ensures Valid()
      ensures currentTime[..] == DecodeTime(regs[SecondsRegister], regs[MinutesRegister], regs[HoursRegister])
    {
      var raw0, raw1, raw2 := regs[SecondsRegister], regs[MinutesRegister], regs[HoursRegister];
      currentTime[0] := SevenBitTens(raw0);
      currentTime[1] := Ones(raw0);
      currentTime[2] := SevenBitTens(raw1);
      currentTime[3] := Ones(raw1);
      currentTime[4] := HourTens(raw2);
      currentTime[5] := Ones(raw2);
      assert currentTime[..] == DecodeTime(raw0, raw1, raw2);
    }

    /** `RTC_get_time_string` into a caller's array of at least nine characters. */
    method GetTimeString(s: array<char>)
      requires Valid() && s.Length >= 9
      modifies s
      ensures s[..9] == TimeString(currentTime[..]) && s[9..] == old(s[9..])
    {
      s[0] := DigitChar(currentTime[4]);
      s[1] := DigitChar(currentTime[5]);
      s[2] := ':';
      s[3] := DigitChar(currentTime[2]);
      s[4] := DigitChar(currentTime[3]);
      s[5] := ':';
      s[6] := DigitChar(currentTime[0]);
      s[7] := DigitChar(currentTime[1]);
      s[8] := Nul;
    }

    /** `RTC_set_weekday`: only 1-7 are written; any other day leaves the chip alone. */
    method SetWeekday(day: bv8)
      requires Valid()
      modifies this`regs
      ensures Valid()
      ensures regs == if 1 <= day as int <= 7 then old(regs)[WeekdayRegister := day] else old(regs)
    {
      if day <= 0 || day > 7 {
        return;
      }
      regs := regs[WeekdayRegister := day];
    }

    /** `RTC_set_date_day`: the BCD day of the month, written as given. */
    method SetDateDay(dayDate: bv8)
      requires Valid()
      modifies this`regs
      ensures Valid()
      ensures regs == old(regs)[DateDayRegister := dayDate]
    {
      regs := regs[DateDayRegister := dayDate];
    }

    /** `RTC_set_month`: the BCD month, written as given. */
    method SetMonth(month: bv8)
      requires Valid()
      modifies this`regs
      ensures Valid()
      ensures regs == old(regs)[MonthRegister := month]
    {
      regs := regs[MonthRegister := month];
    }

    /** `RTC_set_year`: the BCD year, written as given. */
    method SetYear(year: bv8)
      requires Valid()
      modifies this`regs
      ensures Valid()
      ensures regs == old(regs)[YearRegister := year]
    {
      regs := regs[YearRegister := year];
    }

    /** `RTC_set_date`: the three setters in sequence. */
    method SetDate(dayDate: bv8, month: bv8, year: bv8)
      requires Valid()
      modifies this`regs
      ensures Valid()
      ensures regs == old(regs)[DateDayRegister := dayDate][MonthRegister := month][YearRegister := year]
    {
      SetDateDay(dayDate);
      SetMonth(month);
      SetYear(year);
    }

    /** `RTC_get_date_day_string`. */
    method GetDateDayString(s: array<char>)
      requires Valid() && s.Length >= 3
      modifies s
      ensures s[..3] == TwoDigitString(DayInt(regs[DateDayRegister])) && s[3..] == old(s[3..])
    {
      FillTwoDigits(s, DayInt(regs[DateDayRegister]));
    }

    /** `RTC_get_month_num_string`. */
    method GetMonthNumString(s: array<char>)
      requires Valid() && s.Length >= 3
      modifies s
      ensures s[..3] == TwoDigitString(MonthInt(regs[MonthRegister])) && s[3..] == old(s[3..])
    {
      FillTwoDigits(s, MonthInt(regs[MonthRegister]));
    }

    /** `RTC_get_year_string`. */
    method GetYearString(s: array<char>)
      requires Valid() && s.Length >= 3
      modifies s
      ensures s[..3] == TwoDigitString(YearInt(regs[YearRegister])) && s[3..] == old(s[3..])
    {
      FillTwoDigits(s, YearInt(regs[YearRegister]));
    }

    /** `RTC_get_date_string` into a caller's array of at least nine characters. */
    method GetDateString(s: array<char>)
      requires Valid() && s.Length >= 9
      modifies s
      ensures s[..9] == DateString(DayInt(regs[DateDayRegister]), MonthInt(regs[MonthRegister]),
                                   YearInt(regs[YearRegister]))
      ensures s[9..] == old(s[9..])
    {
      var dayDate := DayInt(regs[DateDayRegister]);
      var month := MonthInt(regs[MonthRegister]);
      var year := YearInt(regs[YearRegister]);
      s[0] := DigitChar(dayDate / 10);
      s[1] := DigitChar(dayDate % 10);
      s[2] := '-';
      s[3] := DigitChar(month / 10);
      s[4] := DigitChar(month % 10);
      s[5] := '-';
      s[6] := DigitChar(year / 10);
      s[7] := DigitChar(year % 10);
      s[8] := Nul;
    }

    /** `RTC_alarm_enable_disable`: disabling also clears the latch; enabling leaves it as it was. */
    method AlarmEnableDisable(value: bv8)
      requires Valid()
      modifies this`alarmEnabled, this`alarmStatus
      ensures Valid()
      ensures alarmEnabled == value
      ensures alarmStatus == if value == AlarmDisabled then AlarmInactive else old(alarmStatus)
    {
      alarmEnabled := value;
      if value == AlarmDisabled {
        alarmStatus := AlarmInactive;
      }
    }

    /** `RTC_set_alarm_time`: BCD hours, minutes, seconds, stored as decimal numbers. */
    method SetAlarmTime(hours: bv8, minutes: bv8, seconds: bv8)
      requires Valid()
      modifies alarmTime
      ensures Valid()
      ensures alarmTime[..] == AlarmFromBcd(hours, minutes, seconds)
    {
      alarmTime[0] := BcdToDecimal(seconds);
      alarmTime[1] := BcdToDecimal(minutes);
      alarmTime[2] := BcdToDecimal(hours);
      assert alarmTime[..] == AlarmFromBcd(hours, minutes, seconds);
    }

    /**
      `RTC_get_alarm_time_seconds_int`, `..._minutes_int`, `..._hours_int`:
      the stored alarm fields, each a decimal number a BCD byte can encode.
    */
    method GetAlarmTime() returns (seconds: uint8, minutes: uint8, hours: uint8)
      requires Valid()
      ensures [seconds, minutes, hours] == alarmTime[..]
      ensures seconds <= 165 && minutes <= 165 && hours <= 165
    {
      seconds, minutes, hours := alarmTime[0], alarmTime[1], alarmTime[2];
    }

    /** `RTC_get_alarm_time_string` into a caller's array of at least nine characters. */
    method GetAlarmTimeString(s: array<char>)
      requires Valid() && s.Length >= 9
      modifies s
      ensures s[..9] == AlarmString(alarmTime[..]) && s[9..] == old(s[9..])
    {
      s[0] := DigitChar(alarmTime[2] / 10);
      s[1] := DigitChar(alarmTime[2] % 10);
      s[2] := ':';
      s[3] := DigitChar(alarmTime[1] / 10);
      s[4] := DigitChar(alarmTime[1] % 10);
      s[5] := ':';
      s[6] := DigitChar(alarmTime[0] / 10);
      s[7] := DigitChar(alarmTime[0] % 10);
      s[8] := Nul;
    }

    /**
      `RTC_check_alarm_match`: only an enabled, inactive alarm looks at the
      time, and latches active when all three fields match; the latch is
      returned.
    */
    method CheckAlarmMatch() returns (status: bv8)
      requires Valid()
      modifies this`alarmStatus
      ensures Valid()
      ensures alarmStatus == NextAlarmStatus(alarmEnabled, old(alarmStatus),
                                             TimeMatchesAlarm(currentTime[..], alarmTime[..]))
      ensures status == alarmStatus
    {
      if alarmEnabled == AlarmEnabled && alarmStatus == AlarmInactive {
        if SecondsInt(currentTime[..]) == alarmTime[0]
          && MinutesInt(currentTime[..]) == alarmTime[1]
          && HoursInt(currentTime[..]) == alarmTime[2]
        {
          alarmStatus := AlarmActive;
        }
      }
      status := alarmStatus;
    }

    /** `RTC_alarm_deactivate`. */
    method AlarmDeactivate()
      requires Valid()
      modifies this`alarmStatus
      ensures Valid() && alarmStatus == AlarmInactive
    {
      alarmStatus := AlarmInactive;
    }
  }
}
