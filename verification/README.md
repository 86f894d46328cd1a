# Roll Clock core, modelled in Dafny

The Roll Clock is an ATmega328P desk clock. It shows a different screen
depending on which side it rests on. An ADXL343 accelerometer gives the
orientation, an MCP7940 real-time clock keeps the time, date and alarm, and
two buttons drive a settings editor on the clock face.

This project models the core of the firmware:

- **Mode A** (`mode_a.dfy`): the clock face and the two-button settings
  editor for the time, the date and the alarm. The editor is a class that
  holds the mode's module variables and the nine-character edit buffer.
  `Select` and `Next` are the two button handlers. `Render` is the part of
  the display routines that applies a pending digit increment. Committing
  the last digit yields the BCD setter call made on the RTC. The increment
  rules are modelled exactly as the code writes them, including the
  day-ones rule that reads the ones digit and compares decimal months with
  the BCD month constants.
- **The MCP7940N driver** (`mcp7940n.dfy`): the cache of six time digits,
  the alarm kept in RAM with an enable flag and an Active/Inactive latch,
  and the string builders. The chip's registers are a map from address to
  byte, so every I2C transfer becomes a lookup or an update.
- **The older MCP7940M driver** (`mcp7940m.dfy`): the same cache, plus the
  `snprintf("%d")` field strings it returns from static buffers.
- **The register map and BCD decoders** that both drivers share (`bcd.dfy`).
- **The main loops** (`roll_clock.dfy`, `roll_clock_early.dfy`): the
  orientation classifier and the uint32 millisecond-slot scheduler
  (`timing.dfy`). The later loop also has the alarm blink-and-tap handler
  and the dispatch to mode A.
- **`reverse` and `int_to_string`** (`float_to_string.dfy`), for
  non-negative x.

The C integer types of the AVR (`uint8_t`, 16-bit `int`, `uint32_t`,
`int32_t`) are subset types in `avr.dfy`. Register bytes are `bv8`. Where
the C code truncates a character difference to `uint8_t`, or subtracts in
`uint32_t`, the model writes the wrap-around out.

The firmware behaves as follows, which a reader might not expect:

- Incrementing the hour tens never re-checks the hour ones, so "19" becomes
  "29".
- The day editor knows no leap years and no per-month day caps.
- Because of the BCD-constant comparison, the day-ones digit cannot be
  edited in October, November and December. In the decimal "months" 16-18 it
  can.
- The MCP7940M date and month strings are unpadded "%d" strings, not two
  digits.
- `RTC_get_month_name_string` switches on the unmasked register.

## Model

| member | source | states |
|---|---|---|
| Avr.DigitChar | MCP7940N_RTCC/MCP7940N.c:200-210 | `v + '0'` is a decimal digit character exactly when v ≤ 9, and its code is v above '0' |
| Avr.CharValue | code/roll_clock_modes/MODE_A.c:344-345 | `c - '0'` truncated to a byte is the digit's value for a digit character, and turning that value back into a character gives c |
| Bcd.SevenBitTens | MCP7940N_RTCC/MCP7940N.c:151-162 | the seconds/minutes tens mask keeps a digit of at most 7 |
| Bcd.HourTens | MCP7940N_RTCC/MCP7940N.c:151-162 | the 24-hour tens mask keeps a digit of at most 3 |
| Bcd.Ones | MCP7940N_RTCC/MCP7940N.c:151-162 | the ones nibble is at most 15 |
| Bcd.DecodeTime | MCP7940N_RTCC/MCP7940N.c:151-162 | the six cached digits are in seconds, minutes, hours order and stay within the mask bounds |
| Bcd.BcdToDecimal | MCP7940N_RTCC/MCP7940N.c:495-499 | the nibble-wise decimal value is ten times the high nibble plus the low nibble, at most 165 |
| Bcd.DayInt | MCP7940N_RTCC/MCP7940N.c:288-292 | the day decoder reads bits 4-5 as tens and the low nibble as ones, at most 45 |
| Bcd.MonthInt | MCP7940N_RTCC/MCP7940N.c:338-342 | the month decoder (after the 0x1F mask) yields at most 25 |
| Bcd.YearInt | MCP7940N_RTCC/MCP7940N.c:437-441 | the year decoder yields at most 165 |
| Bcd.DecodeIgnoresOscillatorBit | MCP7940N_RTCC/MCP7940N.c:140-162 | setting the oscillator-enable bit in the seconds byte never changes a cached digit |
| Bcd.DecodePackedTime | MCP7940N_RTCC/MCP7940N.c:140-162 | time written as BCD (seconds with the oscillator bit) and decoded gives back the six digits, for every digit that fits its mask |
| Bcd.BcdToDecimalDigits | MCP7940N_RTCC/MCP7940N.c:449-461 | for a byte of two decimal digits, `/10` and `%10` of its decimal value are those digits again |
| Bcd.DecodersIgnoreStatusBits | MCP7940N_RTCC/MCP7940N.c:288-342 | the day decoder ignores bits 6-7 and the month decoder bits 5-7 |
| Bcd.MonthName | MCP7940N_RTCC/MCP7940N.c:369-415 | a month byte has a name exactly when it is one of the twelve BCD month bytes, and that name is the one of the month the decoder returns |
| Bcd.MonthNameMatchesMonthInt | MCP7940N_RTCC/MCP7940N.c:369-415 | the month-name switch gives a name exactly for the twelve BCD month bytes, and then it is the name of the month the decoder returns |
| Bcd.MonthNameRejectsUpperBits | MCP7940N_RTCC/MCP7940N.c:369-415 | a month byte with any of bits 5-7 set has no name, although the numeric decoder masks those bits away |
| Timing.Elapsed | code/main.c:207 | the uint32 difference is the plain difference without wrap, and the difference plus 2^32 across a wrap |
| Timing.ElapsedCountsTicks | code/main.c:234-241 | the elapsed time is the real number of milliseconds passed, also across a counter wrap, as long as less than 2^32 ms passed |
| Timing.DueIffIntervalPassed | code/main.c:234-241 | a slot falls due if and only if strictly more than its interval has passed |
| Timing.DueAcrossWrap | code/main.c:261-288 | concrete: a slot set 6 ms before the wrap is due 11 ms later for a 3 ms interval and not for 813 ms |
| Timing.OffsetStartMakesSlotsDue | code/main.c:222-227 | for the first `offset` ms after slots are set `offset` ms ahead of the timer, the elapsed time is 2^32 minus the remaining offset, and a task is due exactly when its interval is below that |
| Mcp7940n.SecondsInt | MCP7940N_RTCC/MCP7940N.c:170-172 | the seconds getter is at most 85, and for a decimal ones digit its tens and ones are the cached digits |
| Mcp7940n.MinutesInt | MCP7940N_RTCC/MCP7940N.c:180-182 | the same for minutes |
| Mcp7940n.HoursInt | MCP7940N_RTCC/MCP7940N.c:190-192 | the same for hours, at most 45 |
| Mcp7940n.TimeString | MCP7940N_RTCC/MCP7940N.c:200-210 | nine characters with the separators and the NUL in place; with decimal cached digits the string reads back as the three integer getters |
| Mcp7940n.TimeStringShowsIntGetters | MCP7940N_RTCC/MCP7940N.c:170-210 | when the cached digits are decimal, the time string "HH:MM:SS" reads back as the three integer getters |
| Mcp7940n.AlarmFromBcd | MCP7940N_RTCC/MCP7940N.c:495-499 | the stored alarm is seconds, minutes, hours, each at most 165 |
| Mcp7940n.AlarmString | MCP7940N_RTCC/MCP7940N.c:585-595 | nine characters with the separators and the NUL in place; fields up to 99 read back as the stored hours, minutes and seconds |
| Mcp7940n.AlarmStringRoundTrip | MCP7940N_RTCC/MCP7940N.c:585-595 | an alarm set from decimal BCD digits reads back in the alarm string as exactly those digits |
| Mcp7940n.TimeMatchesAlarm | MCP7940N_RTCC/MCP7940N.c:537-546 | only an alarm within the range of cached times can match; with decimal cached digits the time matches exactly when the time string shows the alarm's hours, minutes and seconds |
| Mcp7940n.NextAlarmStatus | MCP7940N_RTCC/MCP7940N.c:537-546 | an active latch stays active on a check |
| Mcp7940n.RecheckKeepsStatus | MCP7940N_RTCC/MCP7940N.c:537-546 | checking twice against the same time gives the same latch as checking once |
| Mcp7940n.LatchSetByAnyMatch | MCP7940N_RTCC/MCP7940N.c:537-546 | an enabled, inactive alarm ends a run of checks active if and only if one of the checks saw a matching time |
| Mcp7940n.LatchHolds | MCP7940N_RTCC/MCP7940N.c:537-546 | once active, the latch stays active through any later checks until it is deactivated |
| Mcp7940n.DisabledLatchUnchanged | MCP7940N_RTCC/MCP7940N.c:537-546 | with the alarm not enabled, checks never change the latch |
| Mcp7940n.WeekdayInt | MCP7940N_RTCC/MCP7940N.c:237-240 | the weekday getter is at most 7 and returns a stored day 1-7 unchanged |
| Mcp7940n.WeekdayString | MCP7940N_RTCC/MCP7940N.c:248-267 | "Error" exactly for the masked value 0, otherwise the name of the day |
| Mcp7940n.WeekdayRoundTrip | MCP7940N_RTCC/MCP7940N.c:219-267 | a weekday 1-7 that was set is read back as its day name |
| Mcp7940n.TwoDigitString | MCP7940N_RTCC/MCP7940N.c:299-310 | two characters and a NUL; for a value below 100 the two characters are decimal digits that read back as the value |
| Mcp7940n.TwoDigitStringIsTensAndOnes | MCP7940N_RTCC/MCP7940N.c:299-310 | both branches of the two-digit builders emit tens and ones, and a value below 100 reads back as itself |
| Mcp7940n.DateString | MCP7940N_RTCC/MCP7940N.c:563-577 | nine characters with the separators and the NUL in place; each field up to 99 reads back as the decoded day, month or year |
| Mcp7940n.DateStringJoinsTwoDigitStrings | MCP7940N_RTCC/MCP7940N.c:563-577 | the date string is the day, month and year two-digit strings joined by '-' |
| Mcp7940n.FillTwoDigits | MCP7940N_RTCC/MCP7940N.c:449-461 | writes the two-digit string and NUL into the first three characters of the caller's array and nothing else |
| Mcp7940n.Rtc.constructor | MCP7940N_RTCC/MCP7940N.c:116-129 | the oscillator is enabled, the caches are zero, and the alarm is disabled and inactive |
| Mcp7940n.Rtc.SetTime | MCP7940N_RTCC/MCP7940N.c:140-144 | writes the three time registers, with the oscillator bit OR-ed into the seconds byte |
| Mcp7940n.Rtc.UpdateCurrentTime | MCP7940N_RTCC/MCP7940N.c:151-162 | the cache holds the decoded digits of the current registers |
| Mcp7940n.Rtc.GetTimeString | MCP7940N_RTCC/MCP7940N.c:200-210 | writes "HH:MM:SS" and a NUL from the cache into the first nine characters and nothing else |
| Mcp7940n.Rtc.SetWeekday | MCP7940N_RTCC/MCP7940N.c:219-225 | a day 1-7 is written; any other value leaves the registers unchanged |
| Mcp7940n.Rtc.SetDateDay | MCP7940N_RTCC/MCP7940N.c:278-280 | writes only the day register |
| Mcp7940n.Rtc.SetMonth | MCP7940N_RTCC/MCP7940N.c:324-326 | writes only the month register |
| Mcp7940n.Rtc.SetYear | MCP7940N_RTCC/MCP7940N.c:427-429 | writes only the year register |
| Mcp7940n.Rtc.SetDate | MCP7940N_RTCC/MCP7940N.c:468-472 | writes day, month and year and no other register |
| Mcp7940n.Rtc.GetDateDayString | MCP7940N_RTCC/MCP7940N.c:299-310 | writes the decoded day as two digits and a NUL |
| Mcp7940n.Rtc.GetMonthNumString | MCP7940N_RTCC/MCP7940N.c:350-362 | writes the decoded month as two digits and a NUL |
| Mcp7940n.Rtc.GetYearString | MCP7940N_RTCC/MCP7940N.c:449-461 | writes the decoded year as two digits and a NUL |
| Mcp7940n.Rtc.GetDateString | MCP7940N_RTCC/MCP7940N.c:563-577 | writes "DD-MM-YY" and a NUL from the decoded registers into the first nine characters |
| Mcp7940n.Rtc.AlarmEnableDisable | MCP7940N_RTCC/MCP7940N.c:479-484 | stores the flag; disabling also clears the latch, and enabling keeps it |
| Mcp7940n.Rtc.SetAlarmTime | MCP7940N_RTCC/MCP7940N.c:495-499 | stores the three BCD bytes as decimal numbers |
| Mcp7940n.Rtc.GetAlarmTime | MCP7940N_RTCC/MCP7940N.c:507-529 | the three getters return the stored seconds, minutes and hours, each at most 165 |
| Mcp7940n.Rtc.GetAlarmTimeString | MCP7940N_RTCC/MCP7940N.c:585-595 | writes the stored alarm as "HH:MM:SS" and a NUL |
| Mcp7940n.Rtc.CheckAlarmMatch | MCP7940N_RTCC/MCP7940N.c:537-546 | only an enabled, inactive alarm compares the time; a full match latches it active; the latch is returned |
| Mcp7940n.Rtc.AlarmDeactivate | MCP7940N_RTCC/MCP7940N.c:553-555 | the latch is inactive |
| Mcp7940m.DecimalString | MCP7940M_RTCC/MCP7940M.c:345-351 | `"%d"` of a non-negative number is a non-empty string of digit characters |
| Mcp7940m.DecimalStringRoundTrip | MCP7940M_RTCC/MCP7940M.c:345-351 | `"%d"` reads back as the number printed and has no leading zero |
| Mcp7940m.DecimalStringLength | MCP7940M_RTCC/MCP7940M.c:345-351 | one digit exactly below 10, at most two below 100, three from 100 to 999 |
| Mcp7940m.Snprintf | MCP7940M_RTCC/MCP7940M.c:345-351 | `snprintf` keeps the longest prefix of the `"%d"` text that fits in size - 1 characters |
| Mcp7940m.FieldString | MCP7940M_RTCC/MCP7940M.c:199-252 | an hour, minute or second string has three characters and ends in NUL |
| Mcp7940m.FieldStringDigits | MCP7940M_RTCC/MCP7940M.c:199-252 | decimal digits give the two digit characters; a ones digit 10-15 is cut to its first character '1' |
| Mcp7940m.FieldStringsMatchTimeString | MCP7940M_RTCC/MCP7940M.c:199-252 | with decimal digits, the three field strings are the fields of the newer driver's time string |
| Mcp7940m.WeekdayString | MCP7940M_RTCC/MCP7940M.c:287-321 | empty exactly for the masked value 0, otherwise the name of the day |
| Mcp7940m.DateDayString | MCP7940M_RTCC/MCP7940M.c:345-351 | one or two digit characters, one exactly when the decoded day is below 10 |
| Mcp7940m.MonthNumString | MCP7940M_RTCC/MCP7940M.c:383-387 | one or two digit characters, one exactly when the decoded month is below 10 |
| Mcp7940m.YearString | MCP7940M_RTCC/MCP7940M.c:469-474 | one or two digit characters (a year above 99 is cut to two), one exactly when the decoded year is below 10 |
| Mcp7940m.DayAndMonthStringsReadBack | MCP7940M_RTCC/MCP7940M.c:345-387 | the day and month strings read back as the decoded values, unpadded (one character below 10) |
| Mcp7940m.YearStringReadBack | MCP7940M_RTCC/MCP7940M.c:469-474 | a year up to 99 reads back; above 99 the string is the first two digits of `"%d"` |
| Mcp7940m.UnpaddedAndTruncatedExamples | MCP7940M_RTCC/MCP7940M.c:345-474 | concrete: the 5th prints "5", and a year register of 0xFF prints "16" |
| Mcp7940m.Rtc.constructor | MCP7940M_RTCC/MCP7940M.c:52-56 | the oscillator-enable byte is written to the seconds register, and the cache is zero |
| Mcp7940m.Rtc.SetTime | MCP7940M_RTCC/MCP7940M.c:116-120 | writes the three time registers, with the oscillator bit in the seconds byte |
| Mcp7940m.Rtc.UpdateCurrentTime | MCP7940M_RTCC/MCP7940M.c:127-138 | the cache holds the decoded digits of the current registers |
| Mcp7940m.Rtc.GetTimeDigits | MCP7940M_RTCC/MCP7940M.c:145-192 | the six digit getters return the cached digits, within the mask bounds |
| Mcp7940m.Rtc.GetTimeStrings | MCP7940M_RTCC/MCP7940M.c:199-252 | the hour, minute and second strings are the field strings of the cached digits |
| Mcp7940m.Rtc.SetWeekday | MCP7940M_RTCC/MCP7940M.c:260-266 | a day 1-7 is written; any other value leaves the registers unchanged |
| Mcp7940m.Rtc.GetWeekday | MCP7940M_RTCC/MCP7940M.c:277-321 | the weekday number is at most 7, and a number 1-7 comes with its day name |
| Mcp7940m.Rtc.SetDateDay | MCP7940M_RTCC/MCP7940M.c:332-335 | writes only the day register |
| Mcp7940m.Rtc.SetMonth | MCP7940M_RTCC/MCP7940M.c:360-362 | writes only the month register |
| Mcp7940m.Rtc.SetYear | MCP7940M_RTCC/MCP7940M.c:449-451 | writes only the year register |
| Mcp7940m.Rtc.GetDateDayString | MCP7940M_RTCC/MCP7940M.c:345-351 | returns the `"%d"` string of the decoded day |
| Mcp7940m.Rtc.GetMonth | MCP7940M_RTCC/MCP7940M.c:372-440 | the decoded month (at most 25), its `"%d"` string and its name |
| Mcp7940m.Rtc.GetYear | MCP7940M_RTCC/MCP7940M.c:458-474 | the decoded year (at most 165) and its `"%d"` string |
| ModeA.InitialIsConsistent | code/roll_clock_modes/MODE_A.c:74-94 | the initial state satisfies the editor invariant |
| ModeA.InitialString | code/roll_clock_modes/MODE_A.c:300-324 | the buffer loaded for a menu item has nine characters |
| ModeA.NextCursor | code/roll_clock_modes/MODE_A.c:252-256 | the cursor moves to the next digit position and skips the separators |
| ModeA.AfterSelect | code/roll_clock_modes/MODE_A.c:235-259 | the select handler keeps the editor invariant |
| ModeA.PackGroup | code/roll_clock_modes/MODE_A.c:456-458 | for two digit characters the byte has the tens digit in the high nibble and the ones digit in the low nibble |
| ModeA.ConfirmCall | code/roll_clock_modes/MODE_A.c:448-480 | the time screen commits with `RTC_set_time`, the date screen with `RTC_set_date`, the alarm screen with `RTC_set_alarm_time` |
| ModeA.SelectCall | code/roll_clock_modes/MODE_A.c:245-251 | select makes an RTC call if and only if it confirms the last digit of an edit screen |
| ModeA.AfterNext | code/roll_clock_modes/MODE_A.c:268-276 | the next handler keeps the invariant and never moves the cursor, changes the buffer or changes the selection |
| ModeA.Bumped | code/roll_clock_modes/MODE_A.c:344-345 | `((v + 1) % m) + '0'` is a digit character whose value is v + 1 modulo m |
| ModeA.TimeIncrement | code/roll_clock_modes/MODE_A.c:331-381 | an increment changes only the selected position, and leaves a digit there |
| ModeA.IncreaseTime | code/roll_clock_modes/MODE_A.c:331-336 | a pending increment changes at most the character under the cursor, to a digit, and clears the flag; with no increment pending nothing changes; no other editor field changes |
| ModeA.GroupValue | code/roll_clock_modes/MODE_A.c:530-531 | two digit characters are read as the two-digit decimal number they show |
| ModeA.DayOnesIncrement | code/roll_clock_modes/MODE_A.c:545-579 | in February the digit cycles mod 9 whatever the leap-year flag; in the months matching a BCD month constant it cycles, with 3 wrapping to 0; in every other month it is unchanged |
| ModeA.DateIncrement | code/roll_clock_modes/MODE_A.c:515-613 | an increment changes only the buffer position the cursor maps to |
| ModeA.IncreaseDate | code/roll_clock_modes/MODE_A.c:515-526 | the editor is unchanged exactly when no increment is pending or the cursor maps to a separator (the flag then stays set); otherwise at most the mapped character changes and the flag is cleared |
| ModeA.AfterRender | code/roll_clock_modes/MODE_A.c:144-156 | a redraw keeps the invariant, clears the pending increment and changes nothing but the buffer |
| ModeA.AfterControl | code/roll_clock_modes/MODE_A.c:127-158 | one pass of the mode keeps the editor invariant |
| ModeA.SelectFromClockFace | code/roll_clock_modes/MODE_A.c:236-237 | from the clock face, select only turns the settings on and makes no call |
| ModeA.SelectFromRootMenu | code/roll_clock_modes/MODE_A.c:238-241 | in the root menu, select opens the highlighted item, resets the highlight, homes the cursor and loads the time string, "00-00-00" or the alarm string |
| ModeA.SelectInEditScreen | code/roll_clock_modes/MODE_A.c:245-256 | select advances the cursor and changes nothing else; on the last digit it commits the buffer and returns to the clock face |
| ModeA.CursorOrder | code/roll_clock_modes/MODE_A.c:252-256 | the cursor visits 0, 1, 3, 4, 6, 7 |
| ModeA.PackGroupIsBcd | code/roll_clock_modes/MODE_A.c:448-480 | a committed two-digit group becomes the BCD byte with the tens digit in the high nibble |
| ModeA.NextBehaviour | code/roll_clock_modes/MODE_A.c:268-276 | next does nothing with the settings off, cycles the highlight in the root menu, and only raises the increment flag in an edit screen |
| ModeA.HighlightCycle | code/roll_clock_modes/MODE_A.c:268-276 | three next presses in the root menu bring the highlight back |
| ModeA.NextPressesCoalesce | code/roll_clock_modes/MODE_A.c:283-290 | several next presses before one redraw apply a single increment, and a second redraw applies none |
| ModeA.ControlLeavesNoPendingIncrement | code/roll_clock_modes/MODE_A.c:127-158 | after a pass of the mode, no increment is pending |
| ModeA.TimeModulus | code/roll_clock_modes/MODE_A.c:331-381 | each time digit cycles modulo 3, 4, 6 or 10 |
| ModeA.TimePressesCount | code/roll_clock_modes/MODE_A.c:331-381 | n increments of an in-range time digit add n modulo its field's modulus and leave every other position alone |
| ModeA.TimeIncrementStepsModulo | code/roll_clock_modes/MODE_A.c:331-381 | one increment adds one modulo the field's modulus and does not change that modulus |
| ModeA.TimeDigitPeriod | code/roll_clock_modes/MODE_A.c:331-381 | an in-range digit returns to itself after exactly its modulus many increments, and not sooner |
| ModeA.TimeIncrementKeepsFieldRanges | code/roll_clock_modes/MODE_A.c:331-381 | increments keep hour tens 0-2, minute and second tens 0-5, and all digits decimal |
| ModeA.HourTensDoesNotRevalidateOnes | code/roll_clock_modes/MODE_A.c:341-346 | concrete: "19" becomes "29", and "23" becomes "03" |
| ModeA.DateEditOrder | code/roll_clock_modes/MODE_A.c:47 | the date screen edits year, then month, then day, and only the separators map to -1 |
| ModeA.DateDigitRules | code/roll_clock_modes/MODE_A.c:515-613 | years cycle mod 10, month tens toggle 0/1, month ones cycle mod 3 or 10, day tens cycle mod 3 in February and mod 4 otherwise |
| ModeA.DayOnesAsWritten | code/roll_clock_modes/MODE_A.c:545-579 | the day-ones digit cycles 0-8 in February, cycles 0-3 in months 1-9 and 16-18, and stays put in all other months |
| ModeA.DayOnesStaysBelowFour | code/roll_clock_modes/MODE_A.c:545-579 | outside February, day-ones digits 4-9 cannot be reached from 0-3 |
| ModeA.FebruaryIgnoresLeapYear | code/roll_clock_modes/MODE_A.c:545-579 | concrete: in February of a leap year, too, a day-ones 8 wraps to 0 |
| ModeA.DateIncrementKeepsFieldRanges | code/roll_clock_modes/MODE_A.c:515-613 | increments keep day tens 0-3, month tens 0-1 and all digits decimal |
| ModeA.EditedTimeReadsBack | code/roll_clock_modes/MODE_A.c:448-480 | a committed time written by `RTC_set_time`, cached and formatted, is the edited buffer again |
| ModeA.PackedTimeFormats | MCP7940N_RTCC/MCP7940N.c:140-210 | time digits written as BCD, cached and formatted, are the same digits as characters |
| ModeA.ConfirmPacksGroups | code/roll_clock_modes/MODE_A.c:448-480 | each argument of a committed call is the BCD byte of one two-digit group of the buffer |
| ModeA.EditedAlarmReadsBack | code/roll_clock_modes/MODE_A.c:448-480 | a committed alarm, stored and formatted, is the edited buffer again |
| ModeA.EditedDateReadsBack | code/roll_clock_modes/MODE_A.c:448-480 | a committed date, written, decoded and formatted, is the edited buffer again |
| ModeA.PackedDayAndMonth | MCP7940N_RTCC/MCP7940N.c:288-342 | the day and month decoders read back the tens and ones of a packed day or month |
| ModeA.SettingsEditor.constructor | code/roll_clock_modes/MODE_A.c:74-94 | the editor starts off, on the clock face, with the highlight on "Set Time" |
| ModeA.SettingsEditor.StringInit | code/roll_clock_modes/MODE_A.c:300-324 | the buffer is loaded with the time string, "00-00-00" or the alarm string |
| ModeA.SettingsEditor.StringConfirm | code/roll_clock_modes/MODE_A.c:448-480 | returns the setter call for the item being edited |
| ModeA.SettingsEditor.Select | code/roll_clock_modes/MODE_A.c:235-259 | the select handler's new state and RTC call |
| ModeA.SettingsEditor.Next | code/roll_clock_modes/MODE_A.c:268-276 | the next handler's new state |
| ModeA.SettingsEditor.IncreaseSelectedTimeDigit | code/roll_clock_modes/MODE_A.c:331-381 | applies the time increment and clears the flag, keeping the editor consistent |
| ModeA.SettingsEditor.IncreaseSelectedDateDigit | code/roll_clock_modes/MODE_A.c:515-613 | applies the date increment and clears the flag, except at a separator, keeping the editor consistent |
| ModeA.SettingsEditor.NextDateCharacter | code/roll_clock_modes/MODE_A.c:534-610 | the character the branches write at the mapped position is the one the date increment puts there, for the month and leap-year flag read from the buffer |
| ModeA.SettingsEditor.Render | code/roll_clock_modes/MODE_A.c:144-156 | the display branch applies a pending increment of the open screen |
| ModeA.SettingsEditor.Control | code/roll_clock_modes/MODE_A.c:127-158 | buttons first, then the display branch, and the RTC call made |
| RollClock.UpdateCurrentOrientation | code/main.c:168-198 | tilted out of the upright plane the orientation is kept, and the result is one of the four modes whenever the last orientation is |
| RollClock.ClassifierIsOrientation | code/main.c:168-198 | the "inactive band" tests are always true, so the classifier is a priority test on -y, -x, +y, +x beyond ±1400 |
| RollClock.AxisPriority | code/main.c:181-195 | upright, the first axis beyond 1400 in the order -y, -x, +y, +x decides, and none keeps the last orientation |
| RollClock.ClassifierIsStable | code/main.c:168-198 | classifying the same readings again gives the same orientation |
| RollClock.InvertAfterAlarm | code/main.c:263-276 | while the latch is active the flag flips exactly when slot 4 is due; once inactive an inverted display becomes normal and any other flag is kept |
| RollClock.AlarmBlinks | code/main.c:263-269 | while the alarm is active, each due toggle flips the display and two restore it |
| RollClock.InactiveAlarmRestoresDisplay | code/main.c:270-275 | once the latch is inactive, the display is normal after one pass and stays normal |
| RollClock.InvertFlagStaysBinary | code/main.c:261-288 | the invert flag is always normal or inverted |
| RollClock.StartupAlarmIsQuarterPastThree | code/main.c:105-106 | the start-up alarm is 15:18:05, and the alarm screen opens on that string |
| RollClock.EveryTaskDueAfterStart | code/main.c:222-227 | for the first 30000 ms after start-up the slots of the RTC, alarm, accelerometer and sensor tasks are all due |
| RollClock.Clock.constructor | code/main.c:68-106 | mode A and the RTC are initialised, the slots are set 30000 ms ahead, both orientations are mode A, the display is normal, and the 15:18:05 alarm is enabled and inactive |
| RollClock.Clock.InitialiseCurrentAndPreviousTimes | code/main.c:222-227 | the current time is the timer plus 30000 (mod 2^32), and every slot holds it |
| RollClock.Clock.UpdateAdxlData | code/main.c:206-215 | when the slot is due, the last orientation becomes the current one, the readings are classified and the slot is reset; otherwise nothing changes |
| RollClock.Clock.UpdateRtcCurrentTime | code/main.c:234-241 | when the slot is due, the RTC cache is refreshed and the slot reset; otherwise nothing changes |
| RollClock.Clock.UpdateTempHumiditySensor | code/main.c:248-253 | the sensor fires exactly when its slot is due, and then the slot is reset |
| RollClock.Clock.AlarmMatchHandling | code/main.c:261-288 | the latch is checked; an active alarm toggles the display each due slot; an inactive one restores it; a double tap while active deactivates the alarm; the buzzer follows the display |
| RollClock.Clock.ApplyRtcCall | code/roll_clock_modes/MODE_A.c:448-480 | a committed call changes exactly the registers or alarm fields of its setter |
| RollClock.Clock.Loop | code/main.c:114-155 | one pass: the timer is sampled; the RTC cache is refreshed from the registers when slot 2 is due; the alarm latch, display flag, buzzer and slot 4 follow the alarm handler on that refreshed cache; the orientation and slot 0 follow the classifier when due; in orientation A the editor state and the returned setter call are those of `MODE_A_control` on the RTC's time and alarm strings, and that call alone changes the registers and the stored alarm; in orientation B only slot 1 can change |
| RollClock.Clock.ScheduledTasks | code/main.c:115-123 | the RTC, alarm and accelerometer tasks each run against their own slot: the new cache, latch, display flag, buzzer, orientation and the three slot times are stated as functions of the state before the pass |
| RollClock.Clock.DispatchMode | code/main.c:126-154 | orientation A runs `MODE_A_control` on the current time and alarm strings and applies its setter call to the registers or the stored alarm; orientation B stamps slot 1 when due; C and D change nothing |
| RollClockEarly.CurrentOrientation | main.c:132-162 | the earlier classifier keeps the orientation when tilted, and returns one of the four modes whenever the last orientation is |
| RollClockEarly.SameClassifierAsLaterLoop | main.c:132-162 | the earlier classifier is the same function as the later one |
| RollClockEarly.InitialiseCurrentAndPreviousTimes | main.c:221-226 | both slots hold the timer value, with no offset |
| RollClockEarly.FirstReadingWaits | main.c:221-226 | right after initialisation, the accelerometer slot falls due only after more than 200 ms |
| RollClockEarly.UpdateAdxlData | main.c:205-214 | when the 200 ms slot is due, the orientations shift and the slot is reset; otherwise nothing changes |
| FloatToString.ReversedIndex | float_to_string.h:13-23 | position k of the reversal is position len-1-k of the input |
| FloatToString.ReversedTwice | float_to_string.h:13-23 | reversing twice gives the input back |
| FloatToString.ReversedConcat | float_to_string.h:26-42 | the reversal of a concatenation is the reversed parts in swapped order |
| FloatToString.ReversedPrefixTwice | float_to_string.h:13-23 | `reverse(str, len)` twice restores the buffer |
| FloatToString.SwappedAllIsReversed | float_to_string.h:16-22 | when the indices meet, the swapped buffer is the reversed prefix |
| FloatToString.SwapStep | float_to_string.h:17-21 | one pass swaps the next pair inwards |
| FloatToString.Reverse | float_to_string.h:13-23 | the first len characters are reversed and the rest is unchanged (nothing happens for len ≤ 1) |
| FloatToString.LowDigitsReversed | float_to_string.h:29-32 | the digits the first loop emits, reversed, are the decimal form |
| FloatToString.EmitLowDigits | float_to_string.h:29-32 | the first loop writes the digits of x least significant first, and nothing beyond them |
| FloatToString.PadWithZeros | float_to_string.h:36-37 | the second loop appends '0' up to width d |
| FloatToString.IntToString | float_to_string.h:26-42 | returns max(digits, d), writes x in decimal left-padded with zeros to width d followed by NUL, and changes nothing after the NUL |
| FloatToString.ReversedDigitsArePadded | float_to_string.h:36-39 | reversing digits followed by padding gives the padding followed by the decimal form |
| FloatToString.ZeroWithoutWidthIsEmpty | float_to_string.h:29-41 | with x = 0 and d = 0, the empty string is written and 0 is returned |
| FloatToString.DecimalIsPrintfDecimal | float_to_string.h:29-32 | for x > 0 the unpadded digits are what `"%d"` prints |
| FloatToString.LeadingZerosAddNothing | float_to_string.h:36-37 | leading zeros do not change the value read back |
| FloatToString.PaddedReadsBack | float_to_string.h:26-42 | every character written is a digit, and the string reads back as x |

## Left out

- Interrupt service routines, button debouncing and the "held" test: `Control` receives the two button inputs already decided.
- All OLED drawing: the clock face, the menu and the highlighting routines (`_display_date_and_time`, `_display_settings_menu`, `_menu_highlight_option`, `_selected_digit_highlight`), and display inversion on the panel. Only the state changes of the display routines are modelled.
- The I2C transport, the ADXL343 and AM2320 drivers, the timer 0 driver and the buzzer hardware. Axis readings, the double-tap status and the timer count are parameters; the buzzer is a returned boolean.
- Modes B, C and D: only the mode B sensor-slot bookkeeping is modelled, not its screen.
- `float_to_string`, because it works on floating point. `int_to_string` is modelled only for x ≥ 0.
- FloatToString.IntToString: for negative x the C loop would emit characters below '0' (truncating `%` and `/`); that case is not modelled.
- The `RTC_FULL_RESET` block of the later `main`, which is compiled out.
- The earlier `main`'s start-up `RTC_set_time`, its per-pass `RTC_update_current_time` and its `display_date_and_time` drawing: the first two are the same driver operations modelled in `Mcp7940m.Rtc`, and the last is drawing.
- Mcp7940m: the string getters return pointers to static buffers that later calls overwrite; the model returns fresh values, so that aliasing is not captured.
- `RTC_read_one_register`, `RTC_read_multiple_register` and `RTC_write_register` (and their N-driver counterparts) are map lookups and updates, not separate members.
- The `RTC_get_date_day_int`, `RTC_get_month_int`, `RTC_get_year_int` and `RTC_get_weekday_int` getters of the newer driver are the decoder functions `Bcd.DayInt`, `Bcd.MonthInt`, `Bcd.YearInt` and `Mcp7940n.WeekdayInt`; `RTC_get_month_name_string` is `Bcd.MonthName`.
- Slot 3 of the later loop (interval 213 ms) is declared but never used, so it appears only as a constant.
- The split of one loop pass into `ScheduledTasks` and `DispatchMode` is proof structure; it runs the same calls in the same order as the loop body.
- `ModeA.SettingsEditor.NextDateCharacter` holds the branch chain of `_increase_selected_date_digit` and returns the character each branch writes; the caller writes it once. Where no branch matches (the day ones in a month matching no constant) the character is written back unchanged, which is the same buffer.
