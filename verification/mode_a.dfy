/**
  Mode A of the roll clock: the clock face and the two-button settings
  editor for the time, the date and the alarm time.

  The editor's state is five small module variables and a nine-character
  buffer laid out as "LL:MM:RR" (or "LL-MM-RR") and a NUL. `Select` and
  `Next` are the two button handlers, `Render` is the part of the display
  routines that applies a pending digit increment before drawing. The RTC is
  a collaborator: entering an edit screen copies one of its strings into
  the buffer, and confirming the last digit returns the BCD setter call
  that the firmware makes on it.
*/
module ModeA {
  import opened Avr
  import Bcd
  import Mcp7940n

  const SettingsOff: uint8 := 0x00
  const SettingsOn: uint8 := 0x01

  const SelectionSetTime: uint8 := 0x00
  const SelectionSetDate: uint8 := 0x01
  const SelectionSetAlarm: uint8 := 0x02
  const SelectionNone: uint8 := 0x03

  const HoldDigit: uint8 := 0x00
  const IncrementDigit: uint8 := 0x01

  const IndexLeftTens: uint8 := 0x00
  const IndexLeftOnes: uint8 := 0x01
  const IndexMiddleTens: uint8 := 0x03
  const IndexMiddleOnes: uint8 := 0x04
  const IndexRightTens: uint8 := 0x06
  const IndexRightOnes: uint8 := 0x07

  /**
    `_dateDigitsIndexOffset`: the buffer position edited at each cursor
    position of the date screen, so that the date is entered year, month,
    day; -1 marks the separators.
  */
  const DateDigitsIndexOffset: seq<int> := [6, 7, -1, 3, 4, -1, 0, 1]

  /** The buffer `_string_init` writes for a new date. */
  const DateTemplate: string := "00-00-00\0"

  datatype Option<T> = None | Some(value: T)

  /** A setter call on the RTC collaborator; every argument is a packed BCD byte. */
  datatype RtcCall =
    | SetTime(hour: bv8, min: bv8, sec: bv8)
    | SetDate(dayDate: bv8, month: bv8, year: bv8)
    | SetAlarmTime(hours: bv8, minutes: bv8, seconds: bv8)

  /** The module variables of mode A, as a value. */
  datatype Editor = Editor(
    settingsModeStatus: uint8,
    menuSelection: uint8,
    menuHighlight: uint8,
    selectedDigit: uint8,
    digitIncrementFlag: uint8,
    settingsString: string)

  /** The buffer positions that hold digits; 2 and 5 are separators, 8 the NUL. */
  predicate IsCursor(d: int) {
    d == 0 || d == 1 || d == 3 || d == 4 || d == 6 || d == 7
  }

  predicate InEditScreen(e: Editor) {
    e.menuSelection == SelectionSetTime || e.menuSelection == SelectionSetDate
    || e.menuSelection == SelectionSetAlarm
  }

  /**
    The states the handlers can reach: every variable holds one of its
    named values, the cursor rests on a digit, the root menu and the clock
    face have the cursor home and no increment pending, and with settings
    off no menu item is selected.
  */
  predicate Consistent(e: Editor) {
    && (e.settingsModeStatus == SettingsOff || e.settingsModeStatus == SettingsOn)
    && e.menuSelection <= SelectionNone
    && e.menuHighlight <= SelectionSetAlarm
    && IsCursor(e.selectedDigit)
    && (e.digitIncrementFlag == HoldDigit || e.digitIncrementFlag == IncrementDigit)
    && |e.settingsString| == 9
    && (e.settingsModeStatus == SettingsOff ==> e.menuSelection == SelectionNone)
    && (e.menuSelection == SelectionNone ==>
          e.selectedDigit == IndexLeftTens && e.digitIncrementFlag == HoldDigit)
  }

  /** `MODE_A_init`; the buffer is a zero-initialised static. */
  const Initial: Editor :=
    Editor(SettingsOff, SelectionNone, SelectionSetTime, IndexLeftTens, HoldDigit, seq(9, _ => Nul))

  lemma InitialIsConsistent()
    ensures Consistent(Initial)
  {
  }

  // ---------------------------------------------------------------------
  // The select button
  // ---------------------------------------------------------------------

  /** `_string_init`: the buffer for a newly selected menu item. */
  function InitialString(selection: uint8, rtcTime: string, rtcAlarm: string, current: string): (s: string)
    requires |rtcTime| == 9 && |rtcAlarm| == 9 && |current| == 9
    ensures |s| == 9
  {
    if selection == SelectionSetTime then rtcTime
    else if selection == SelectionSetDate then DateTemplate
    else if selection == SelectionSetAlarm then rtcAlarm
    else current
  }

  /** The cursor step of the select button: the next position, skipping the separators 2 and 5. */
  function NextCursor(d: uint8): (r: uint8)
    requires IsCursor(d) && d != IndexRightOnes
    ensures IsCursor(r) && d < r <= d + 2
    ensures forall k :: d < k < r ==> !IsCursor(k)
  {
    var next := d + 1;
    if next == 2 || next == 5 then next + 1 else next
  }

  /** `_button_select_logic`, for the editor's state; `rtcTime` and `rtcAlarm` are the RTC's two strings. */
  function AfterSelect(e: Editor, rtcTime: string, rtcAlarm: string): (r: Editor)
    requires Consistent(e) && |rtcTime| == 9 && |rtcAlarm| == 9
    ensures Consistent(r)
  {
    if e.settingsModeStatus == SettingsOff then
      e.(settingsModeStatus := SettingsOn)
    else if e.menuSelection == SelectionNone then
      e.(menuSelection := e.menuHighlight,
         menuHighlight := SelectionSetTime,
         settingsString := InitialString(e.menuHighlight, rtcTime, rtcAlarm, e.settingsString))
    else if InEditScreen(e) then
      if e.selectedDigit == IndexRightOnes then
        e.(menuSelection := SelectionNone,
           selectedDigit := IndexLeftTens,
           digitIncrementFlag := HoldDigit,
           menuHighlight := SelectionSetTime,
           settingsModeStatus := SettingsOff)
      else
        e.(selectedDigit := NextCursor(e.selectedDigit))
    else
      e
  }

  /** `(s[k] - 48) << 4 | (s[k + 1] - 48)`, truncated to a byte: the BCD byte of one two-digit group. */
  function PackGroup(s: string, k: nat): (b: bv8)
    requires k + 1 < |s|
    ensures IsDigitChar(s[k]) && IsDigitChar(s[k + 1]) ==>
              (b >> 4) as int == CharValue(s[k]) && (b & 0x0F) as int == CharValue(s[k + 1])
  {
    ((CharValue(s[k]) as bv8) << 4) | (CharValue(s[k + 1]) as bv8)
  }

  /** `_string_confirm`: the setter call for the edited item, one BCD byte per two-digit group. */
  function ConfirmCall(selection: uint8, s: string): (c: RtcCall)
    requires |s| == 9 && selection <= SelectionSetAlarm
    ensures selection == SelectionSetTime <==> c.SetTime?
    ensures selection == SelectionSetDate <==> c.SetDate?
  {
    if selection == SelectionSetTime then SetTime(PackGroup(s, 0), PackGroup(s, 3), PackGroup(s, 6))
    else if selection == SelectionSetDate then SetDate(PackGroup(s, 0), PackGroup(s, 3), PackGroup(s, 6))
    else SetAlarmTime(PackGroup(s, 0), PackGroup(s, 3), PackGroup(s, 6))
  }

  /** The RTC call a select press makes: only confirming the last digit of an edit screen commits. */
  function SelectCall(e: Editor): (c: Option<RtcCall>)
    requires Consistent(e)
    ensures c.Some? <==> e.settingsModeStatus == SettingsOn && InEditScreen(e)
                         && e.selectedDigit == IndexRightOnes
  {
    if e.settingsModeStatus == SettingsOn && InEditScreen(e) && e.selectedDigit == IndexRightOnes
    then Some(ConfirmCall(e.menuSelection, e.settingsString))
    else None
  }

  // ---------------------------------------------------------------------
  // The next button
  // ---------------------------------------------------------------------

  /** `_button_next_logic`. */
  function AfterNext(e: Editor): (r: Editor)
    requires Consistent(e)
    ensures Consistent(r)
    ensures r.settingsString == e.settingsString && r.selectedDigit == e.selectedDigit
    ensures r.menuSelection == e.menuSelection && r.settingsModeStatus == e.settingsModeStatus
  {
    if e.settingsModeStatus == SettingsOn then
      if e.menuSelection == SelectionNone then
        e.(menuHighlight := (e.menuHighlight + 1) % 3)
      else
        e.(digitIncrementFlag := IncrementDigit)
    else
      e
  }

  // ---------------------------------------------------------------------
  // Digit increments, applied when an edit screen is drawn
  // ---------------------------------------------------------------------

  /** `((v + 1) % m) + '0'`. */
  function Bumped(v: uint8, m: nat): (c: char)
    requires 0 < m <= 10
    ensures IsDigitChar(c) && CharValue(c) == (v + 1) % m
  {
    DigitChar((v + 1) % m)
  }

  /**
    `_increase_selected_time_digit` on the buffer: the selected character
    alone changes, with hour tens mod 3, hour ones mod 4 when the hour tens
    is 2 and mod 10 otherwise, minute and second tens mod 6, ones mod 10.
  */
  function TimeIncrement(s: string, cursor: int): (r: string)
    requires |s| == 9
    ensures |r| == 9
    ensures forall k :: 0 <= k < 9 && k != cursor ==> r[k] == s[k]
    ensures IsCursor(cursor) ==> IsDigitChar(r[cursor])
  {
    if cursor == IndexLeftTens as int then
      s[cursor := Bumped(CharValue(s[cursor]), 3)]
    else if cursor == IndexLeftOnes as int then
      if CharValue(s[IndexLeftTens]) == 2 then s[cursor := Bumped(CharValue(s[cursor]), 4)]
      else s[cursor := Bumped(CharValue(s[cursor]), 10)]
    else if cursor == IndexMiddleTens as int then
      s[cursor := Bumped(CharValue(s[cursor]), 6)]
    else if cursor == IndexMiddleOnes as int then
      s[cursor := Bumped(CharValue(s[cursor]), 10)]
    else if cursor == IndexRightTens as int then
      s[cursor := Bumped(CharValue(s[cursor]), 6)]
    else if cursor == IndexRightOnes as int then
      s[cursor := Bumped(CharValue(s[cursor]), 10)]
    else
      s
  }

  /**
    The increment flag consumed by a time or alarm screen: a pending
    increment changes the character under the cursor to a digit, and only
    that character, and clears the flag.
  */
  function IncreaseTime(e: Editor): (r: Editor)
    requires |e.settingsString| == 9
    ensures r.digitIncrementFlag == HoldDigit && |r.settingsString| == 9
    ensures r.(settingsString := e.settingsString, digitIncrementFlag := e.digitIncrementFlag) == e
    ensures e.digitIncrementFlag == HoldDigit ==> r == e
    ensures forall k :: 0 <= k < 9 && k != e.selectedDigit as int ==> r.settingsString[k] == e.settingsString[k]
    ensures e.digitIncrementFlag != HoldDigit && IsCursor(e.selectedDigit) ==> IsDigitChar(r.settingsString[e.selectedDigit])
  {
    if e.digitIncrementFlag == HoldDigit then e
    else e.(digitIncrementFlag := HoldDigit,
            settingsString := TimeIncrement(e.settingsString, e.selectedDigit))
  }

  /** `year` and `month` of `_increase_selected_date_digit`: two characters as a decimal number, in a `uint8`. */
  function GroupValue(s: string, k: nat): (v: uint8)
    requires k + 1 < |s|
    ensures IsDigitChar(s[k]) && IsDigitChar(s[k + 1]) ==> v == 10 * CharValue(s[k]) + CharValue(s[k + 1])
  {
    ((s[k] as int - 48) * 10 + (s[k + 1] as int - 48)) % 0x100
  }

  predicate IsMonthWith31Days(month: uint8) {
    || month == Bcd.January as int || month == Bcd.March as int || month == Bcd.May as int
    || month == Bcd.July as int || month == Bcd.August as int || month == Bcd.October as int
    || month == Bcd.December as int
  }

  predicate IsMonthWith30Days(month: uint8) {
    || month == Bcd.April as int || month == Bcd.June as int || month == Bcd.September as int
    || month == Bcd.November as int
  }

  /**
    The day-ones rule as written: `tempTen` is read from the ones position
    itself, and the decimal month is compared with the BCD month constants.
    Months matching none of them leave the digit as it is.
  */
  function DayOnesIncrement(c: char, month: uint8, isLeapYear: bool): (r: char)
    ensures month == 2 ==> CharValue(r) == (CharValue(c) + 1) % 9
    ensures DayOnesCycledMonth(month) ==> CharValue(r) == if CharValue(c) == 3 then 0 else (CharValue(c) + 1) % 10
    ensures month != 2 && !DayOnesCycledMonth(month) ==> r == c
  {
    var tempTen := CharValue(c);
    var tempOne := CharValue(c);
    if month == Bcd.February as int then
      if !isLeapYear && tempTen == 2 then Bumped(tempOne, 8) else Bumped(tempOne, 9)
    else if IsMonthWith31Days(month) then
      if tempTen == 3 then Bumped(tempOne, 2) else Bumped(tempOne, 10)
    else if IsMonthWith30Days(month) then
      if tempTen == 3 then Bumped(tempOne, 1) else Bumped(tempOne, 10)
    else
      c
  }

  /**
    `_increase_selected_date_digit` on the buffer, for cursor position
    `cursor`: only the character at `DateDigitsIndexOffset[cursor]` can
    change.
  */
  function DateIncrement(s: string, cursor: int): (r: string)
    requires |s| == 9 && 0 <= cursor < 8
    ensures |r| == 9
    ensures forall k :: 0 <= k < 9 && k != DateDigitsIndexOffset[cursor] ==> r[k] == s[k]
  {
    var p := DateDigitsIndexOffset[cursor];
    var year := GroupValue(s, IndexRightTens as int);
    var month := GroupValue(s, IndexMiddleTens as int);
    var isLeapYear := year % 4 == 0;
    if p == IndexLeftTens as int then
      if month == Bcd.February as int then s[p := Bumped(CharValue(s[p]), 3)]
      else s[p := Bumped(CharValue(s[p]), 4)]
    else if p == IndexLeftOnes as int then
      s[p := DayOnesIncrement(s[p], month, isLeapYear)]
    else if p == IndexMiddleTens as int then
      if CharValue(s[p]) == 1 then s[p := Bumped(CharValue(s[p]), 2)]
      else s[p := Bumped(CharValue(s[p]), 10)]
    else if p == IndexMiddleOnes as int then
      if CharValue(s[IndexMiddleTens]) == 1 then s[p := Bumped(CharValue(s[p]), 3)]
      else s[p := Bumped(CharValue(s[p]), 10)]
    else if p == IndexRightTens as int then
      s[p := Bumped(CharValue(s[p]), 10)]
    else if p == IndexRightOnes as int then
      s[p := Bumped(CharValue(s[p]), 10)]
    else
      s
  }

  /**
    The increment flag consumed by the date screen: a pending increment
    changes at most the character the cursor maps to and clears the flag,
    except on a separator position, which returns before clearing it.
  */
  function IncreaseDate(e: Editor): (r: Editor)
    requires |e.settingsString| == 9 && e.selectedDigit < 8
    ensures |r.settingsString| == 9
    ensures r.(settingsString := e.settingsString, digitIncrementFlag := e.digitIncrementFlag) == e
    ensures r == e <==> e.digitIncrementFlag == HoldDigit || DateDigitsIndexOffset[e.selectedDigit] == -1
    ensures r != e ==> r.digitIncrementFlag == HoldDigit
    ensures forall k :: 0 <= k < 9 && k != DateDigitsIndexOffset[e.selectedDigit] ==> r.settingsString[k] == e.settingsString[k]
  {
    if e.digitIncrementFlag == HoldDigit then e
    else if DateDigitsIndexOffset[e.selectedDigit] == -1 then e
    else e.(settingsString := DateIncrement(e.settingsString, e.selectedDigit),
            digitIncrementFlag := HoldDigit)
  }

  /** The state change of the display branch of `MODE_A_control`. */
  function AfterRender(e: Editor): (r: Editor)
    requires Consistent(e)
    ensures Consistent(r)
    ensures r.digitIncrementFlag == HoldDigit
    ensures r.(settingsString := e.settingsString, digitIncrementFlag := e.digitIncrementFlag) == e
  {
    if e.settingsModeStatus == SettingsOff then e
    else if e.menuSelection == SelectionNone then e
    else if e.menuSelection == SelectionSetTime then IncreaseTime(e)
    else if e.menuSelection == SelectionSetDate then IncreaseDate(e)
    else if e.menuSelection == SelectionSetAlarm then IncreaseTime(e)
    else e
  }

  /** `MODE_A_control` with the button inputs already decided (pressed or held). */
  function AfterControl(e: Editor, select: bool, next: bool, rtcTime: string, rtcAlarm: string): (r: Editor)
    requires Consistent(e) && |rtcTime| == 9 && |rtcAlarm| == 9
    ensures Consistent(r)
  {
    var e1 := if select then AfterSelect(e, rtcTime, rtcAlarm) else e;
    var e2 := if next then AfterNext(e1) else e1;
    AfterRender(e2)
  }

  function ControlCall(e: Editor, select: bool): Option<RtcCall>
    requires Consistent(e)
  {
    if select then SelectCall(e) else None
  }

  // ---------------------------------------------------------------------
  // Properties of the select button
  // ---------------------------------------------------------------------

  /** From the clock face, select only turns the settings on. */
  lemma SelectFromClockFace(e: Editor, rtcTime: string, rtcAlarm: string)
    requires Consistent(e) && |rtcTime| == 9 && |rtcAlarm| == 9
    requires e.settingsModeStatus == SettingsOff
    ensures AfterSelect(e, rtcTime, rtcAlarm) == e.(settingsModeStatus := SettingsOn)
    ensures SelectCall(e) == None
  {
  }

  /**
    In the root menu, select opens the highlighted item, resets the
    highlight to "Set Time" and loads the buffer: the RTC's time string,
    "00-00-00", or the RTC's alarm string.
  */
  lemma SelectFromRootMenu(e: Editor, rtcTime: string, rtcAlarm: string)
    requires Consistent(e) && |rtcTime| == 9 && |rtcAlarm| == 9
    requires e.settingsModeStatus == SettingsOn && e.menuSelection == SelectionNone
    ensures var r := AfterSelect(e, rtcTime, rtcAlarm);
      && r.menuSelection == e.menuHighlight && r.menuHighlight == SelectionSetTime
      && r.selectedDigit == IndexLeftTens && r.digitIncrementFlag == HoldDigit
      && (e.menuHighlight == SelectionSetTime ==> r.settingsString == rtcTime)
      && (e.menuHighlight == SelectionSetDate ==> r.settingsString == DateTemplate)
      && (e.menuHighlight == SelectionSetAlarm ==> r.settingsString == rtcAlarm)
    ensures SelectCall(e) == None
  {
  }

  /**
    In an edit screen, select on a cursor below 7 moves to the next digit
    and changes nothing else; select on 7 commits and resets everything.
  */
  lemma SelectInEditScreen(e: Editor, rtcTime: string, rtcAlarm: string)
    requires Consistent(e) && |rtcTime| == 9 && |rtcAlarm| == 9
    requires e.settingsModeStatus == SettingsOn && InEditScreen(e)
    ensures e.selectedDigit != IndexRightOnes ==>
      && AfterSelect(e, rtcTime, rtcAlarm) == e.(selectedDigit := NextCursor(e.selectedDigit))
      && SelectCall(e) == None
    ensures e.selectedDigit == IndexRightOnes ==>
      && AfterSelect(e, rtcTime, rtcAlarm)
         == e.(settingsModeStatus := SettingsOff, menuSelection := SelectionNone,
               selectedDigit := IndexLeftTens, digitIncrementFlag := HoldDigit,
               menuHighlight := SelectionSetTime)
      && SelectCall(e) == Some(ConfirmCall(e.menuSelection, e.settingsString))
  {
  }

  /** The cursor visits 0, 1, 3, 4, 6, 7 in that order. */
  lemma CursorOrder()
    ensures NextCursor(0) == 1 && NextCursor(1) == 3 && NextCursor(3) == 4
    ensures NextCursor(4) == 6 && NextCursor(6) == 7
  {
  }

  /** The byte of a group of two decimal digits has the tens digit in the high nibble and the ones digit in the low one. */
  lemma PackGroupIsBcd(s: string, k: nat)
    requires k + 1 < |s| && IsDigitChar(s[k]) && IsDigitChar(s[k + 1])
    ensures PackGroup(s, k) == Bcd.Pack(CharValue(s[k]), CharValue(s[k + 1]))
    ensures (PackGroup(s, k) >> 4) as int == CharValue(s[k])
    ensures (PackGroup(s, k) & 0x0F) as int == CharValue(s[k + 1])
  {
  }

  // ---------------------------------------------------------------------
  // Properties of the next button and the pending increment
  // ---------------------------------------------------------------------

  /**
    Next does nothing with the settings off, cycles the highlight in the
    root menu, and in an edit screen only raises the increment flag, so
    that repeated presses before a redraw count once.
  */
  lemma NextBehaviour(e: Editor)
    requires Consistent(e)
    ensures e.settingsModeStatus == SettingsOff ==> AfterNext(e) == e
    ensures e.settingsModeStatus == SettingsOn && e.menuSelection == SelectionNone ==>
              AfterNext(e) == e.(menuHighlight := (e.menuHighlight + 1) % 3)
    ensures e.settingsModeStatus == SettingsOn && InEditScreen(e) ==>
              AfterNext(e) == e.(digitIncrementFlag := IncrementDigit)
    ensures AfterNext(AfterNext(e)).(menuHighlight := 0) == AfterNext(e).(menuHighlight := 0)
  {
  }

  /** Pressing next three times in the root menu brings the highlight back. */
  lemma {:induction false} HighlightCycle(e: Editor)
    requires Consistent(e) && e.settingsModeStatus == SettingsOn && e.menuSelection == SelectionNone
    ensures AfterNext(AfterNext(AfterNext(e))) == e
  {
    var e1 := AfterNext(e);
    var e2 := AfterNext(e1);
    assert e1.menuHighlight == (e.menuHighlight + 1) % 3;
    assert e2.menuHighlight == (e.menuHighlight + 2) % 3;
  }

  /** Any number of next presses in an edit screen, then one redraw, apply one increment. */
  lemma NextPressesCoalesce(e: Editor)
    requires Consistent(e) && e.settingsModeStatus == SettingsOn && InEditScreen(e)
    ensures AfterRender(AfterNext(AfterNext(e))) == AfterRender(AfterNext(e))
    ensures AfterRender(AfterRender(AfterNext(e))) == AfterRender(AfterNext(e))
  {
  }

  /** After a full pass of the mode (buttons, then display) no increment is left pending. */
  lemma ControlLeavesNoPendingIncrement(e: Editor, select: bool, next: bool, rtcTime: string, rtcAlarm: string)
    requires Consistent(e) && |rtcTime| == 9 && |rtcAlarm| == 9
    ensures AfterControl(e, select, next, rtcTime, rtcAlarm).digitIncrementFlag == HoldDigit
  {
  }

  // ---------------------------------------------------------------------
  // Properties of the time digit rules
  // ---------------------------------------------------------------------

  /** The field each cursor position of a time buffer belongs to cycles modulo this. */
  function TimeModulus(s: string, cursor: int): (m: nat)
    requires |s| == 9 && IsCursor(cursor)
    ensures IsTimeModulus(m)
  {
    if cursor == 0 then 3
    else if cursor == 1 then (if CharValue(s[0]) == 2 then 4 else 10)
    else if cursor == 3 || cursor == 6 then 6
    else 10
  }

  /** The buffer after `n` increments of one digit (each a next press followed by a redraw). */
  function TimePresses(s: string, cursor: int, n: nat): (r: string)
    requires |s| == 9
    ensures |r| == 9
  {
    if n == 0 then s else TimeIncrement(TimePresses(s, cursor, n - 1), cursor)
  }

  /**
    `n` increments of a time digit leave every other character alone and
    add `n` to the digit modulo its field's modulus.
  */
  lemma {:induction false} TimePressesCount(s: string, cursor: int, n: nat)
    requires |s| == 9 && IsCursor(cursor) && CharValue(s[cursor]) < TimeModulus(s, cursor)
    ensures forall k :: 0 <= k < 9 && k != cursor ==> TimePresses(s, cursor, n)[k] == s[k]
    ensures TimeModulus(TimePresses(s, cursor, n), cursor) == TimeModulus(s, cursor)
    ensures CharValue(TimePresses(s, cursor, n)[cursor]) == (CharValue(s[cursor]) + n) % TimeModulus(s, cursor)
  {
    if n > 0 {
      var prev := TimePresses(s, cursor, n - 1);
      TimePressesCount(s, cursor, n - 1);
      TimeIncrementStepsModulo(prev, cursor);
      ModSucc(CharValue(s[cursor]) + n - 1, TimeModulus(s, cursor));
    }
  }

  /** One increment of a time digit adds one modulo its field's modulus, which the increment leaves as it was. */
  lemma TimeIncrementStepsModulo(s: string, cursor: int)
    requires |s| == 9 && IsCursor(cursor)
    ensures CharValue(TimeIncrement(s, cursor)[cursor]) == (CharValue(s[cursor]) + 1) % TimeModulus(s, cursor)
    ensures TimeModulus(TimeIncrement(s, cursor), cursor) == TimeModulus(s, cursor)
  {
  }

  predicate IsTimeModulus(m: nat) {
    m == 3 || m == 4 || m == 6 || m == 10
  }

  lemma ModSucc(a: nat, m: nat)
    requires IsTimeModulus(m)
    ensures (a % m + 1) % m == (a + 1) % m
  {
  }

  lemma ModPeriod(v: nat, m: nat, n: nat)
    requires IsTimeModulus(m) && v < m && 0 < n <= m
    ensures (v + n) % m == v <==> n == m
  {
  }

  /** A digit in its field's range returns to itself after exactly its modulus many increments. */
  lemma TimeDigitPeriod(s: string, cursor: int)
    requires |s| == 9 && IsCursor(cursor) && IsDigitChar(s[cursor])
    requires CharValue(s[cursor]) < TimeModulus(s, cursor)
    ensures TimePresses(s, cursor, TimeModulus(s, cursor)) == s
    ensures forall n :: 0 < n < TimeModulus(s, cursor) ==> TimePresses(s, cursor, n) != s
  {
    var m := TimeModulus(s, cursor);
    ModPeriod(CharValue(s[cursor]), m, m);
    TimePressesCount(s, cursor, m);
    var r := TimePresses(s, cursor, m);
    assert CharValue(r[cursor]) == CharValue(s[cursor]);
    assert r[cursor] == s[cursor];
    assert r == s;
    forall n | 0 < n < m
      ensures TimePresses(s, cursor, n) != s
    {
      ModPeriod(CharValue(s[cursor]), m, n);
      TimePressesCount(s, cursor, n);
    }
  }

  /** Hour tens 0-2, minute and second tens 0-5, all six digits decimal. */
  predicate TimeFieldsInRange(s: string) {
    && |s| == 9
    && (forall k :: 0 <= k < 9 && IsCursor(k) ==> IsDigitChar(s[k]))
    && s[0] <= '2' && s[3] <= '5' && s[6] <= '5'
  }

  /** Each increment keeps every time field within its digit range. */
  lemma TimeIncrementKeepsFieldRanges(s: string, cursor: int)
    requires TimeFieldsInRange(s) && IsCursor(cursor)
    ensures TimeFieldsInRange(TimeIncrement(s, cursor))
  {
  }

  /**
    The hour ones digit is not checked again when the hour tens changes:
    "19:00:00" becomes "29:00:00", an hour the clock cannot show.
  */
  lemma HourTensDoesNotRevalidateOnes()
    ensures TimeIncrement("19:00:00\0", 0) == "29:00:00\0"
    ensures TimeIncrement("23:59:55\0", 0) == "03:59:55\0"
  {
    assert CharValue('1') == 1;
    assert CharValue('2') == 2;
  }

  // ---------------------------------------------------------------------
  // Properties of the date digit rules
  // ---------------------------------------------------------------------

  /** Date buffers whose six digit positions hold decimal digits. */
  predicate DateDigits(s: string) {
    |s| == 9 && forall k :: 0 <= k < 9 && IsCursor(k) ==> IsDigitChar(s[k])
  }

  /** The date screen edits year (cursor 0, 1), then month (3, 4), then day (6, 7). */
  lemma DateEditOrder()
    ensures DateDigitsIndexOffset[0] == IndexRightTens as int && DateDigitsIndexOffset[1] == IndexRightOnes as int
    ensures DateDigitsIndexOffset[3] == IndexMiddleTens as int && DateDigitsIndexOffset[4] == IndexMiddleOnes as int
    ensures DateDigitsIndexOffset[6] == IndexLeftTens as int && DateDigitsIndexOffset[7] == IndexLeftOnes as int
    ensures forall c :: 0 <= c < 8 ==> (DateDigitsIndexOffset[c] == -1 <==> !IsCursor(c))
  {
  }

  /**
    The year digits cycle mod 10, the month tens toggles between 0 and 1,
    the month ones cycles mod 3 in months 10-19 and mod 10 otherwise, and
    the day tens cycles mod 3 in February and mod 4 otherwise.
  */
  lemma DateDigitRules(s: string)
    requires DateDigits(s)
    ensures var month := 10 * CharValue(s[3]) + CharValue(s[4]);
      && CharValue(DateIncrement(s, 0)[6]) == (CharValue(s[6]) + 1) % 10
      && CharValue(DateIncrement(s, 1)[7]) == (CharValue(s[7]) + 1) % 10
      && (CharValue(s[3]) == 0 ==> DateIncrement(s, 3)[3] == '1')
      && (CharValue(s[3]) == 1 ==> DateIncrement(s, 3)[3] == '0')
      && CharValue(DateIncrement(s, 4)[4]) == (CharValue(s[4]) + 1) % (if CharValue(s[3]) == 1 then 3 else 10)
      && CharValue(DateIncrement(s, 6)[0]) == (CharValue(s[0]) + 1) % (if month == 2 then 3 else 4)
  {
    assert GroupValue(s, 3) == 10 * CharValue(s[3]) + CharValue(s[4]);
  }

  /** The decimal months the day-ones rule treats as having 30 or 31 days. */
  predicate DayOnesCycledMonth(month: int) {
    month in {1, 3, 4, 5, 6, 7, 8, 9, 16, 17, 18}
  }

  /**
    The day-ones rule as it behaves: since `tempTen` is the ones digit, the
    digit cycles 0, 1, 2, 3 (only a 3 wraps early) in the months matching a
    BCD month constant (1-9 and, because the constants are hexadecimal,
    16-18), cycles 0-8 in February whatever the leap-year flag, and stays put
    in month 0 and in months 10-15 and 19 and above, so the day of October,
    November and December cannot be edited.
  */
  lemma DayOnesAsWritten(s: string)
    requires DateDigits(s)
    ensures var month := 10 * CharValue(s[3]) + CharValue(s[4]);
            var d := CharValue(s[1]);
            var r := DateIncrement(s, 7);
      && (month == 2 ==> CharValue(r[1]) == (d + 1) % 9)
      && (DayOnesCycledMonth(month) ==> CharValue(r[1]) == if d == 3 then 0 else (d + 1) % 10)
      && (month != 2 && !DayOnesCycledMonth(month) ==> r == s)
  {
    var month := GroupValue(s, 3);
    assert month == 10 * CharValue(s[3]) + CharValue(s[4]);
    assert IsMonthWith31Days(month) || IsMonthWith30Days(month) <==> DayOnesCycledMonth(month);
  }

  /** From a day-ones digit 0-3, in every month but February, the digit stays within 0-3: days ending in 4-9 cannot be entered. */
  lemma DayOnesStaysBelowFour(s: string)
    requires DateDigits(s) && CharValue(s[1]) <= 3 && 10 * CharValue(s[3]) + CharValue(s[4]) != 2
    ensures CharValue(DateIncrement(s, 7)[1]) <= 3
  {
    DayOnesAsWritten(s);
  }

  /** In February, a leap year or not, a day ones digit of 8 wraps to 0, so the 29th is never offered. */
  lemma FebruaryIgnoresLeapYear()
    ensures DateIncrement("28-02-24\0", 7) == "20-02-24\0"
    ensures DateIncrement("28-02-25\0", 7) == "20-02-25\0"
  {
    DayOnesAsWritten("28-02-24\0");
    DayOnesAsWritten("28-02-25\0");
  }

  /** The day tens 0-3, month tens 0-1 and all digits decimal: what the RTC's date decoders read back. */
  predicate DateFieldsInRange(s: string) {
    DateDigits(s) && s[0] <= '3' && s[3] <= '1'
  }

  /** Starting from "00-00-00", date increments keep the day tens at most 3 and the month tens at most 1. */
  lemma DateIncrementKeepsFieldRanges(s: string, cursor: int)
    requires DateFieldsInRange(s) && IsCursor(cursor) && cursor < 8
    ensures DateFieldsInRange(DateIncrement(s, cursor))
  {
  }

  // ---------------------------------------------------------------------
  // Commit round trips through the RTC
  // ---------------------------------------------------------------------

  /** A buffer of three two-digit groups is rebuilt from the values of its digits. */
  lemma BufferFromDigits(s: string, sep: char)
    requires DateDigits(s) && s[2] == sep && s[5] == sep && s[8] == Nul
    ensures s == [DigitChar(CharValue(s[0])), DigitChar(CharValue(s[1])), sep,
                  DigitChar(CharValue(s[3])), DigitChar(CharValue(s[4])), sep,
                  DigitChar(CharValue(s[6])), DigitChar(CharValue(s[7])), Nul]
  {
    assert IsCursor(0) && IsCursor(1) && IsCursor(3) && IsCursor(4) && IsCursor(6) && IsCursor(7);
  }

  /**
    A committed time is written by `RTC_set_time`; when the RTC next caches
    and formats it, the time string is the edited buffer again.
  */
  lemma EditedTimeReadsBack(s: string)
    requires TimeFieldsInRange(s) && s[2] == ':' && s[5] == ':' && s[8] == Nul
    ensures var c := ConfirmCall(SelectionSetTime, s);
      Mcp7940n.TimeString(Bcd.DecodeTime(c.sec | Bcd.OscillatorEnable, c.min, c.hour)) == s
  {
    var h1, h0, m1, m0, s1, s0 := CharValue(s[0]), CharValue(s[1]), CharValue(s[3]),
                                  CharValue(s[4]), CharValue(s[6]), CharValue(s[7]);
    assert h1 <= 2 && m1 <= 5 && s1 <= 5 by {
      assert IsCursor(0) && IsCursor(3) && IsCursor(6);
      assert DigitChar(h1) == s[0] && DigitChar(m1) == s[3] && DigitChar(s1) == s[6];
    }
    assert h0 <= 9 && m0 <= 9 && s0 <= 9 by {
      assert IsCursor(1) && IsCursor(4) && IsCursor(7);
    }
    ConfirmPacksGroups(SelectionSetTime, s);
    PackedTimeFormats(h1, h0, m1, m0, s1, s0);
    BufferFromDigits(s, ':');
  }

  /** Time digits packed as `RTC_set_time` writes them, cached and formatted, are the same digits as characters. */
  lemma PackedTimeFormats(h1: nat, h0: nat, m1: nat, m0: nat, s1: nat, s0: nat)
    requires h1 <= 3 && m1 <= 7 && s1 <= 7 && h0 <= 9 && m0 <= 9 && s0 <= 9
    ensures Mcp7940n.TimeString(Bcd.DecodeTime(Bcd.Pack(s1, s0) | Bcd.OscillatorEnable, Bcd.Pack(m1, m0), Bcd.Pack(h1, h0)))
         == [DigitChar(h1), DigitChar(h0), ':', DigitChar(m1), DigitChar(m0), ':', DigitChar(s1), DigitChar(s0), Nul]
  {
    Bcd.DecodePackedTime(h1, h0, m1, m0, s1, s0);
  }

  /** The three arguments of a committed call are the BCD bytes of the buffer's three groups. */
  lemma ConfirmPacksGroups(selection: uint8, s: string)
    requires DateDigits(s) && selection <= SelectionSetAlarm
    ensures var c := ConfirmCall(selection, s);
      && (c.SetTime? ==> c == SetTime(Bcd.Pack(CharValue(s[0]), CharValue(s[1])), Bcd.Pack(CharValue(s[3]), CharValue(s[4])),
                                      Bcd.Pack(CharValue(s[6]), CharValue(s[7]))))
      && (c.SetDate? ==> c == SetDate(Bcd.Pack(CharValue(s[0]), CharValue(s[1])), Bcd.Pack(CharValue(s[3]), CharValue(s[4])),
                                      Bcd.Pack(CharValue(s[6]), CharValue(s[7]))))
      && (c.SetAlarmTime? ==> c == SetAlarmTime(Bcd.Pack(CharValue(s[0]), CharValue(s[1])), Bcd.Pack(CharValue(s[3]), CharValue(s[4])),
                                                Bcd.Pack(CharValue(s[6]), CharValue(s[7]))))
  {
    assert IsCursor(0) && IsCursor(1) && IsCursor(3) && IsCursor(4) && IsCursor(6) && IsCursor(7);
    assert PackGroup(s, 0) == Bcd.Pack(CharValue(s[0]), CharValue(s[1])) by { PackGroupIsBcd(s, 0); }
    assert PackGroup(s, 3) == Bcd.Pack(CharValue(s[3]), CharValue(s[4])) by { PackGroupIsBcd(s, 3); }
    assert PackGroup(s, 6) == Bcd.Pack(CharValue(s[6]), CharValue(s[7])) by { PackGroupIsBcd(s, 6); }
  }

  /** A committed alarm time is stored by `RTC_set_alarm_time`; the alarm string is the edited buffer again. */
  lemma EditedAlarmReadsBack(s: string)
    requires DateDigits(s) && s[2] == ':' && s[5] == ':' && s[8] == Nul
    ensures var c := ConfirmCall(SelectionSetAlarm, s);
      Mcp7940n.AlarmString(Mcp7940n.AlarmFromBcd(c.hours, c.minutes, c.seconds)) == s
  {
    BufferFromDigits(s, ':');
    var h1, h0, m1, m0, s1, s0 := CharValue(s[0]), CharValue(s[1]), CharValue(s[3]),
                                  CharValue(s[4]), CharValue(s[6]), CharValue(s[7]);
    PackGroupIsBcd(s, 0);
    PackGroupIsBcd(s, 3);
    PackGroupIsBcd(s, 6);
    var c := ConfirmCall(SelectionSetAlarm, s);
    assert c == SetAlarmTime(Bcd.Pack(h1, h0), Bcd.Pack(m1, m0), Bcd.Pack(s1, s0));
    Mcp7940n.AlarmStringRoundTrip(h1, h0, m1, m0, s1, s0);
  }

  /** A committed date is written by `RTC_set_date`; the RTC's date string is the edited buffer again. */
  lemma EditedDateReadsBack(s: string)
    requires DateFieldsInRange(s) && s[2] == '-' && s[5] == '-' && s[8] == Nul
    ensures var c := ConfirmCall(SelectionSetDate, s);
      Mcp7940n.DateString(Bcd.DayInt(c.dayDate), Bcd.MonthInt(c.month), Bcd.YearInt(c.year)) == s
  {
    BufferFromDigits(s, '-');
    var d1, d0, m1, m0, y1, y0 := CharValue(s[0]), CharValue(s[1]), CharValue(s[3]),
                                  CharValue(s[4]), CharValue(s[6]), CharValue(s[7]);
    PackGroupIsBcd(s, 0);
    PackGroupIsBcd(s, 3);
    PackGroupIsBcd(s, 6);
    var c := ConfirmCall(SelectionSetDate, s);
    assert c == SetDate(Bcd.Pack(d1, d0), Bcd.Pack(m1, m0), Bcd.Pack(y1, y0));
    PackedDayAndMonth(d1, d0, m1, m0);
    Bcd.BcdToDecimalDigits(y1, y0);
  }

  lemma PackedDayAndMonth(d1: nat, d0: nat, m1: nat, m0: nat)
    requires d1 <= 3 && d0 <= 9 && m1 <= 1 && m0 <= 9
    ensures Bcd.DayInt(Bcd.Pack(d1, d0)) / 10 == d1 && Bcd.DayInt(Bcd.Pack(d1, d0)) % 10 == d0
    ensures Bcd.MonthInt(Bcd.Pack(m1, m0)) / 10 == m1 && Bcd.MonthInt(Bcd.Pack(m1, m0)) % 10 == m0
  {
    var d, m := Bcd.Pack(d1, d0), Bcd.Pack(m1, m0);
    assert Bcd.HourTens(d) == d1 && Bcd.Ones(d) == d0;
    assert Bcd.DayInt(d) == 10 * d1 + d0;
    assert Bcd.MonthInt(m) == 10 * m1 + m0;
  }

  // ---------------------------------------------------------------------
  // The mode's module variables
  // ---------------------------------------------------------------------

  class SettingsEditor {
    var menuHighlight: uint8
    var menuSelection: uint8
    var settingsModeStatus: uint8
    /** `_settingsString`: the nine-character edit buffer. */
    const settingsString: array<char>
    var selectedDigit: uint8
    var digitIncrementFlag: uint8

    ghost function State(): Editor
      reads this, settingsString
    {
      Editor(settingsModeStatus, menuSelection, menuHighlight, selectedDigit, digitIncrementFlag,
             settingsString[..])
    }

    ghost predicate Valid()
      reads this, settingsString
    {
      settingsString.Length == 9 && Consistent(State())
    }

    /** `MODE_A_init`. */
    constructor ()
      ensures Valid() && fresh(settingsString)
      ensures State() == Initial
    {
      menuHighlight := SelectionSetTime;
      menuSelection := SelectionNone;
      settingsModeStatus := SettingsOff;
      selectedDigit := IndexLeftTens;
      digitIncrementFlag := HoldDigit;
      settingsString := new char[9](_ => Nul);
      new;
      assert settingsString[..] == seq(9, _ => Nul);
    }

    /** `_string_init`. */
    method StringInit(rtcTime: string, rtcAlarm: string)
      requires settingsString.Length == 9 && |rtcTime| == 9 && |rtcAlarm| == 9
      modifies settingsString
      ensures settingsString[..] == InitialString(menuSelection, rtcTime, rtcAlarm, old(settingsString[..]))
    {
      if menuSelection == SelectionSetTime {
        forall i | 0 <= i < 9 {
          settingsString[i] := rtcTime[i];
        }
        assert settingsString[..] == rtcTime;
      } else if menuSelection == SelectionSetDate {
        for i := 0 to 8
          invariant forall k :: 0 <= k < i ==> settingsString[k] == DateTemplate[k]
        {
          if i == 2 || i == 5 {
            settingsString[i] := '-';
          } else {
            settingsString[i] := '0';
          }
        }
        settingsString[8] := Nul;
        assert settingsString[..] == DateTemplate;
      } else if menuSelection == SelectionSetAlarm {
        forall i | 0 <= i < 9 {
          settingsString[i] := rtcAlarm[i];
        }
        assert settingsString[..] == rtcAlarm;
      }
    }

    /** `_string_confirm`: the setter call for the item being edited. */
    method StringConfirm() returns (call: RtcCall)
      requires Valid() && InEditScreen(State())
      ensures call == ConfirmCall(menuSelection, settingsString[..])
    {
      var temp1 := ((CharValue(settingsString[0]) as bv8) << 4) | (CharValue(settingsString[1]) as bv8);
      var temp2 := ((CharValue(settingsString[3]) as bv8) << 4) | (CharValue(settingsString[4]) as bv8);
      var temp3 := ((CharValue(settingsString[6]) as bv8) << 4) | (CharValue(settingsString[7]) as bv8);
      if menuSelection == SelectionSetTime {
        call := SetTime(temp1, temp2, temp3);
      } else if menuSelection == SelectionSetDate {
        call := SetDate(temp1, temp2, temp3);
      } else {
        call := SetAlarmTime(temp1, temp2, temp3);
      }
    }

    /** `_button_select_logic`; returns the RTC setter call made on a commit. */
    method Select(rtcTime: string, rtcAlarm: string) returns (call: Option<RtcCall>)
      requires Valid() && |rtcTime| == 9 && |rtcAlarm| == 9
      modifies this, settingsString
      ensures Valid()
      ensures State() == AfterSelect(old(State()), rtcTime, rtcAlarm)
      ensures call == SelectCall(old(State()))
    {
      call := None;
      if settingsModeStatus == SettingsOff {
        settingsModeStatus := SettingsOn;
      } else if menuSelection == SelectionNone {
        menuSelection := menuHighlight;
        menuHighlight := SelectionSetTime;
        StringInit(rtcTime, rtcAlarm);
      } else if menuSelection == SelectionSetTime || menuSelection == SelectionSetAlarm
             || menuSelection == SelectionSetDate
      {
        if selectedDigit == IndexRightOnes {
          var c := StringConfirm();
          call := Some(c);
          menuSelection := SelectionNone;
          selectedDigit := IndexLeftTens;
          digitIncrementFlag := HoldDigit;
          menuHighlight := SelectionSetTime;
          settingsModeStatus := SettingsOff;
        } else {
          selectedDigit := selectedDigit + 1;
          if selectedDigit == 2 || selectedDigit == 5 {
            selectedDigit := selectedDigit + 1;
          }
        }
      }
    }

    /** `_button_next_logic`. */
    method Next()
      requires Valid()
      modifies this
      ensures Valid()
      ensures State() == AfterNext(old(State()))
    {
      if settingsModeStatus == SettingsOn {
        if menuSelection == SelectionNone {
          menuHighlight := (menuHighlight + 1) % 3;
        } else {
          digitIncrementFlag := IncrementDigit;
        }
      }
    }

    /** `_increase_selected_time_digit`. */
    method IncreaseSelectedTimeDigit()
      requires Valid()
      modifies this`digitIncrementFlag, settingsString
      ensures Valid()
      ensures State() == IncreaseTime(old(State()))
    {
      if digitIncrementFlag == HoldDigit {
        return;
      }
      digitIncrementFlag := HoldDigit;
      var tempTen: uint8;
      var tempOne: uint8;
      if selectedDigit == IndexLeftTens {
        tempTen := CharValue(settingsString[selectedDigit]);
        settingsString[selectedDigit] := DigitChar((tempTen + 1) % 3);
      } else if selectedDigit == IndexLeftOnes {
        tempTen := CharValue(settingsString[IndexLeftTens]);
        tempOne := CharValue(settingsString[selectedDigit]);
        if tempTen == 2 {
          settingsString[selectedDigit] := DigitChar((tempOne + 1) % 4);
        } else {
          settingsString[selectedDigit] := DigitChar((tempOne + 1) % 10);
        }
      } else if selectedDigit == IndexMiddleTens {
        tempTen := CharValue(settingsString[selectedDigit]);
        settingsString[selectedDigit] := DigitChar((tempTen + 1) % 6);
      } else if selectedDigit == IndexMiddleOnes {
        tempOne := CharValue(settingsString[selectedDigit]);
        settingsString[selectedDigit] := DigitChar((tempOne + 1) % 10);
      } else if selectedDigit == IndexRightTens {
        tempTen := CharValue(settingsString[selectedDigit]);
        settingsString[selectedDigit] := DigitChar((tempTen + 1) % 6);
      } else if selectedDigit == IndexRightOnes {
        tempOne := CharValue(settingsString[selectedDigit]);
        settingsString[selectedDigit] := DigitChar((tempOne + 1) % 10);
      }
    }

    /** `_increase_selected_date_digit`. */
    method IncreaseSelectedDateDigit()
      requires Valid()
      modifies this`digitIncrementFlag, settingsString
      ensures Valid()
      ensures State() == IncreaseDate(old(State()))
    {
      if digitIncrementFlag == HoldDigit {
        return;
      }
      var selected := DateDigitsIndexOffset[selectedDigit];
      if selected == -1 {
        return;
      }
      var year := ((settingsString[IndexRightTens] as int - 48) * 10
                   + (settingsString[IndexRightOnes] as int - 48)) % 0x100;
      var month := ((settingsString[IndexMiddleTens] as int - 48) * 10
                    + (settingsString[IndexMiddleOnes] as int - 48)) % 0x100;
      var isLeapYear := year % 4 == 0;
      var c := NextDateCharacter(selected, month, isLeapYear);
      settingsString[selected] := c;
      digitIncrementFlag := HoldDigit;
    }

    /**
      The branches of `_increase_selected_date_digit`: the character each
      one writes at buffer position `selected`, for the month and leap-year
      flag read from the buffer. The buffer is not changed here.
    */
    method NextDateCharacter(selected: int, month: uint8, isLeapYear: bool) returns (c: char)
      requires settingsString.Length == 9 && selectedDigit < 8
      requires selected == DateDigitsIndexOffset[selectedDigit] && selected != -1
      requires month == GroupValue(settingsString[..], IndexMiddleTens as int)
      requires isLeapYear == (GroupValue(settingsString[..], IndexRightTens as int) % 4 == 0)
      ensures settingsString[..][selected := c] == DateIncrement(settingsString[..], selectedDigit as int)
    {
      var tempTen: uint8;
      var tempOne: uint8;
      c := settingsString[selected];
      if selected == IndexLeftTens as int {
        tempTen := CharValue(settingsString[selected]);
        if month == Bcd.February as int {
          c := DigitChar((tempTen + 1) % 3);
        } else {
          c := DigitChar((tempTen + 1) % 4);
        }
      } else if selected == IndexLeftOnes as int {
        tempTen := CharValue(settingsString[IndexLeftOnes]);
        tempOne := CharValue(settingsString[selected]);
        if month == Bcd.February as int {
          if !isLeapYear && tempTen == 2 {
            c := DigitChar((tempOne + 1) % 8);
          } else {
            c := DigitChar((tempOne + 1) % 9);
          }
        } else if IsMonthWith31Days(month) {
          if tempTen == 3 {
            c := DigitChar((tempOne + 1) % 2);
          } else {
            c := DigitChar((tempOne + 1) % 10);
          }
        } else if IsMonthWith30Days(month) {
          if tempTen == 3 {
            c := DigitChar((tempOne + 1) % 1);
          } else {
            c := DigitChar((tempOne + 1) % 10);
          }
        }
      } else if selected == IndexMiddleTens as int {
        tempTen := CharValue(settingsString[selected]);
        if tempTen == 1 {
          c := DigitChar((tempTen + 1) % 2);
        } else {
          c := DigitChar((tempTen + 1) % 10);
        }
      } else if selected == IndexMiddleOnes as int {
        tempTen := CharValue(settingsString[IndexMiddleTens]);
        tempOne := CharValue(settingsString[selected]);
        if tempTen == 1 {
          c := DigitChar((tempOne + 1) % 3);
        } else {
          c := DigitChar((tempOne + 1) % 10);
        }
      } else if selected == IndexRightTens as int {
        tempTen := CharValue(settingsString[selected]);
        c := DigitChar((tempTen + 1) % 10);
      } else if selected == IndexRightOnes as int {
        tempOne := CharValue(settingsString[selected]);
        c := DigitChar((tempOne + 1) % 10);
      }
    }

    /** The state change of the display branch of `MODE_A_control` (the `_display_set_*` routines). */
    method Render()
      requires Valid()
      modifies this, settingsString
      ensures Valid()
      ensures State() == AfterRender(old(State()))
    {
      if settingsModeStatus == SettingsOff {
        // the clock face draws the RTC's strings and changes nothing here
      } else if menuSelection == SelectionNone {
        // the root menu only draws
      } else if menuSelection == SelectionSetTime {
        IncreaseSelectedTimeDigit();
      } else if menuSelection == SelectionSetDate {
        IncreaseSelectedDateDigit();
      } else if menuSelection == SelectionSetAlarm {
        IncreaseSelectedTimeDigit();
      }
    }

    /**
      `MODE_A_control`: `select` and `next` are "interrupt flag set or button
      held"; the RTC strings are what the RTC would write at this moment.
    */
    method Control(select: bool, next: bool, rtcTime: string, rtcAlarm: string) returns (call: Option<RtcCall>)
      requires Valid() && |rtcTime| == 9 && |rtcAlarm| == 9
      modifies this, settingsString
      ensures Valid()
      ensures State() == AfterControl(old(State()), select, next, rtcTime, rtcAlarm)
      ensures call == ControlCall(old(State()), select)
    {
      call := None;
      if select {
        call := Select(rtcTime, rtcAlarm);
      }
      if next {
        Next();
      }
      Render();
    }
  }
}
