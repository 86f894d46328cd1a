/**
  The main loop of the roll clock: every pass reads the millisecond timer,
  lets the periodic tasks whose slot is due run (RTC time cache, alarm
  blink, accelerometer orientation, temperature sensor), and then runs the
  mode belonging to the current orientation of the display.
*/
module RollClock {
  import opened Avr
  import opened Timing
  import Bcd
  import Mcp7940n
  import ModeA

  const NumPreviousTimes := 5
  const AdxlPrevTimeIndex := 0
  const Am2320UpdateReadingsIndex := 1
  const RtcUpdateCurrentTimeIndex := 2
  /** Slot 3 (`ALARM_INVERT_DISPLAY_INDEX`, interval 213) is declared but never used. */
  const AlarmInvertDisplayIndex := 3
  const InvertDisplayAlarmIndex := 4

  const AdxlAxisReadInterval := 813
  const Am2320UpdateReadingsInterval := 20000
  const RtcUpdateCurrentTimeInterval := 3
  const AlarmInvertDisplayInterval := 213
  const InvertDisplayAlarmInterval := 500

  /** Offset added to the timer when the slots are initialised. */
  const StartOffset := 30000

  const AxisActive := 1400
  const AxisInactive := 500

  /** `MODE_A` .. `MODE_D`: the four orientations, and the screen rotation used to draw in each. */
  const OrientationA: uint8 := 0x00
  const OrientationB: uint8 := 0x01
  const OrientationC: uint8 := 0x02
  const OrientationD: uint8 := 0x03

  const DisplayNormal: bv8 := 0x00
  const DisplayInverted: bv8 := 0x01

  /**
    `update_current_orientation` for the axis readings `x`, `y`, `z`.
    The test `z > AXIS_INACTIVE * 1.5` is a floating-point comparison with
    750.0; for an integer z it is `2 * z > 3 * AXIS_INACTIVE`.
  */
  function UpdateCurrentOrientation(x: int32, y: int32, z: int32, lastOrientation: uint8): (r: uint8)
    ensures 2 * z > 3 * AxisInactive || 2 * z < -(3 * AxisInactive) ==> r == lastOrientation
    ensures lastOrientation <= OrientationD ==> r <= OrientationD
  {
    if 2 * z > 3 * AxisInactive || 2 * z < -(3 * AxisInactive) then
      lastOrientation
    else if y < -AxisActive && (x > -AxisInactive || x < AxisInactive) then
      OrientationA
    else if x < -AxisActive && (y > -AxisInactive || y < AxisInactive) then
      OrientationB
    else if y > AxisActive && (x > -AxisInactive || x < AxisInactive) then
      OrientationC
    else if x > AxisActive && (y > -AxisInactive || y < AxisInactive) then
      OrientationD
    else
      lastOrientation
  }

  /**
    The classification the thresholds describe: tilted out of the upright
    plane (|z| > 750) keeps the last orientation; otherwise the first axis
    beyond ±1400 in the order -y, -x, +y, +x decides, and none keeps it.
  */
  function Orientation(x: int, y: int, z: int, last: uint8): uint8 {
    if z > 750 || z < -750 then last
    else if y < -1400 then OrientationA
    else if x < -1400 then OrientationB
    else if y > 1400 then OrientationC
    else if x > 1400 then OrientationD
    else last
  }

  /**
    The classifier is that classification: the "inactive band" tests on the
    other axis are always true, so the other axis never changes the result.
  */
  lemma ClassifierIsOrientation(x: int32, y: int32, z: int32, last: uint8)
    ensures UpdateCurrentOrientation(x, y, z, last) == Orientation(x, y, z, last)
  {
  }

  /**
    Upright (|z| <= 750), the axes are tried in the order -y, -x, +y, +x: a
    reading beyond 1400 on one of them decides unless an earlier one does.
  */
  lemma AxisPriority(x: int32, y: int32, z: int32, last: uint8)
    requires -750 <= z <= 750
    ensures y < -AxisActive ==> UpdateCurrentOrientation(x, y, z, last) == OrientationA
    ensures y >= -AxisActive && x < -AxisActive ==> UpdateCurrentOrientation(x, y, z, last) == OrientationB
    ensures y > AxisActive && x >= -AxisActive ==> UpdateCurrentOrientation(x, y, z, last) == OrientationC
    ensures -AxisActive <= y <= AxisActive && x > AxisActive ==> UpdateCurrentOrientation(x, y, z, last) == OrientationD
    ensures -AxisActive <= x <= AxisActive && -AxisActive <= y <= AxisActive ==>
              UpdateCurrentOrientation(x, y, z, last) == last
  {
  }

  /** Classifying the same readings again, with the result as the last orientation, gives the same result. */
  lemma ClassifierIsStable(x: int32, y: int32, z: int32, last: uint8)
    ensures var r := UpdateCurrentOrientation(x, y, z, last);
      UpdateCurrentOrientation(x, y, z, r) == r
  {
  }

  /**
    What `alarm_match_handling` does with the invert flag, given whether the
    latch is active and slot 4 is due: while active the flag flips exactly
    when the slot is due; once inactive an inverted display is set normal.
  */
  function InvertAfterAlarm(active: bool, due: bool, inverted: bv8): (r: bv8)
    ensures active ==> (r == inverted <==> !due)
    ensures !active ==> r != DisplayInverted
    ensures !active && inverted != DisplayInverted ==> r == inverted
  {
    if active then (if due then inverted ^ 1 else inverted)
    else if inverted == DisplayInverted then DisplayNormal
    else inverted
  }

  /** Two due toggles while the alarm is active restore the flag: the display blinks. */
  lemma AlarmBlinks(inverted: bv8)
    ensures InvertAfterAlarm(true, true, inverted) != inverted
    ensures InvertAfterAlarm(true, true, InvertAfterAlarm(true, true, inverted)) == inverted
  {
  }

  /** Once the latch is inactive, a flag that is normal or inverted is normal after one pass and stays so. */
  lemma InactiveAlarmRestoresDisplay(inverted: bv8, due: bool)
    requires inverted == DisplayNormal || inverted == DisplayInverted
    ensures InvertAfterAlarm(false, due, inverted) == DisplayNormal
    ensures InvertAfterAlarm(false, due, DisplayNormal) == DisplayNormal
  {
  }

  /** Starting normal, the flag is always normal or inverted. */
  lemma InvertFlagStaysBinary(active: bool, due: bool, inverted: bv8)
    requires inverted == DisplayNormal || inverted == DisplayInverted
    ensures InvertAfterAlarm(active, due, inverted) == DisplayNormal
         || InvertAfterAlarm(active, due, inverted) == DisplayInverted
  {
  }

  /**
    In the first 30000 ms after start-up every slot initialised by
    `initialise_current_and_previous_times` is due, whatever its interval.
  */
  lemma EveryTaskDueAfterStart(timer: uint32, ticks: nat)
    requires ticks < StartOffset
    ensures Due(After(timer, ticks), After(timer, StartOffset), AdxlAxisReadInterval)
    ensures Due(After(timer, ticks), After(timer, StartOffset), Am2320UpdateReadingsInterval)
    ensures Due(After(timer, ticks), After(timer, StartOffset), RtcUpdateCurrentTimeInterval)
    ensures Due(After(timer, ticks), After(timer, StartOffset), InvertDisplayAlarmInterval)
  {
    OffsetStartMakesSlotsDue(timer, StartOffset, ticks, AdxlAxisReadInterval);
    OffsetStartMakesSlotsDue(timer, StartOffset, ticks, Am2320UpdateReadingsInterval);
    OffsetStartMakesSlotsDue(timer, StartOffset, ticks, RtcUpdateCurrentTimeInterval);
    OffsetStartMakesSlotsDue(timer, StartOffset, ticks, InvertDisplayAlarmInterval);
  }

  // ---------------------------------------------------------------------
  // The state one pass of the loop leaves behind
  // ---------------------------------------------------------------------

  /** The slot times after a task that writes `now` into slot `index` when it runs. */
  function Stamped(times: seq<uint32>, index: nat, ran: bool, now: uint32): seq<uint32>
    requires index < |times|
  {
    if ran then times[index := now] else times
  }

  /** The RTC's time cache after `update_rtc_current_time`, refreshed from the registers when its slot is due. */
  function RefreshedCache(cache: seq<uint8>, regs: Bcd.Registers, due: bool): seq<uint8>
    requires Bcd.HasTimekeeping(regs)
  {
    if due then Bcd.DecodeTime(regs[Bcd.SecondsRegister], regs[Bcd.MinutesRegister], regs[Bcd.HoursRegister])
    else cache
  }

  /** Whether the alarm latch is active once `RTC_check_alarm_match` has compared the cached time `t`. */
  function ActiveAfterCheck(enabled: bv8, status: bv8, t: seq<uint8>, alarm: seq<uint8>): bool
    requires Bcd.TimeDigitsInRange(t) && |alarm| == 3
  {
    Mcp7940n.NextAlarmStatus(enabled, status, Mcp7940n.TimeMatchesAlarm(t, alarm)) == Mcp7940n.AlarmActive
  }

  /** The RTC registers after mode A's setter call, if it made one. */
  function RegistersAfterCall(regs: Bcd.Registers, call: ModeA.Option<ModeA.RtcCall>): Bcd.Registers {
    if call.None? then regs
    else match call.value
      case SetTime(hour, min, sec) =>
        regs[Bcd.SecondsRegister := sec | Bcd.OscillatorEnable][Bcd.MinutesRegister := min][Bcd.HoursRegister := hour]
      case SetDate(dayDate, month, year) =>
        regs[Bcd.DateDayRegister := dayDate][Bcd.MonthRegister := month][Bcd.YearRegister := year]
      case SetAlarmTime(_, _, _) => regs
  }

  /** The stored alarm after mode A's setter call, if it made one. */
  function AlarmAfterCall(alarm: seq<uint8>, call: ModeA.Option<ModeA.RtcCall>): seq<uint8> {
    if call.Some? && call.value.SetAlarmTime? then
      Mcp7940n.AlarmFromBcd(call.value.hours, call.value.minutes, call.value.seconds)
    else alarm
  }

  /** The alarm `main` enables at start-up, as the BCD hours, minutes and seconds it passes to `RTC_set_alarm_time`. */
  const StartupAlarmHours: bv8 := 0x15
  const StartupAlarmMinutes: bv8 := 0x18
  const StartupAlarmSeconds: bv8 := 0x05

  /** The start-up alarm is 15:18:05, and mode A's alarm screen opens on that string. */
  lemma StartupAlarmIsQuarterPastThree()
    ensures Mcp7940n.AlarmFromBcd(StartupAlarmHours, StartupAlarmMinutes, StartupAlarmSeconds) == [5, 18, 15]
    ensures Mcp7940n.AlarmString([5, 18, 15]) == "15:18:05\0"
  {
    Mcp7940n.AlarmStringRoundTrip(1, 5, 1, 8, 0, 5);
  }

  /**
    The local variables of `main` that the loop passes by pointer, together
    with the two driver states the loop works on: the RTC and mode A.
  */
  class Clock {
    var currentTime: uint32
    const previousTimes: array<uint32>
    var currentOrientation: uint8
    var lastOrientation: uint8
    var displayInvertedStatus: bv8
    const rtc: Mcp7940n.Rtc
    const modeA: ModeA.SettingsEditor

    ghost predicate Valid()
      reads this, previousTimes, rtc, rtc.currentTime, rtc.alarmTime, modeA, modeA.settingsString
    {
      && previousTimes.Length == NumPreviousTimes
      && rtc.Valid() && modeA.Valid()
    }

    /**
      The start of `main`: mode A and the RTC are initialised, the slots
      are set, both orientations are mode A, the display is normal, and the
      alarm is enabled for 15:18:05 (the `RTC_FULL_RESET` block is compiled
      out and not modelled).
      `chip` is the RTC's register file at power-up and `timer` the timer 0
      count.
    */
    constructor (chip: Bcd.Registers, timer: uint32)
      requires Bcd.HasTimekeeping(chip)
      ensures Valid() && fresh(previousTimes) && fresh(rtc) && fresh(modeA)
      ensures modeA.State() == ModeA.Initial
      ensures currentTime == After(timer, StartOffset)
      ensures previousTimes[..] == seq(NumPreviousTimes, _ => After(timer, StartOffset))
      ensures currentOrientation == OrientationA && lastOrientation == OrientationA
      ensures displayInvertedStatus == DisplayNormal
      ensures rtc.alarmEnabled == Mcp7940n.AlarmEnabled && rtc.alarmStatus == Mcp7940n.AlarmInactive
      ensures rtc.alarmTime[..] == Mcp7940n.AlarmFromBcd(StartupAlarmHours, StartupAlarmMinutes, StartupAlarmSeconds)
    {
      modeA := new ModeA.SettingsEditor();
      rtc := new Mcp7940n.Rtc(chip);
      previousTimes := new uint32[NumPreviousTimes];
      currentOrientation := OrientationA;
      lastOrientation := OrientationA;
      displayInvertedStatus := DisplayNormal;
      new;
      InitialiseCurrentAndPreviousTimes(timer);
      rtc.AlarmEnableDisable(Mcp7940n.AlarmEnabled);
      rtc.SetAlarmTime(StartupAlarmHours, StartupAlarmMinutes, StartupAlarmSeconds);
    }

    /** `initialise_current_and_previous_times`: the current time is the timer plus 30000, and every slot gets it. */
    method InitialiseCurrentAndPreviousTimes(timer: uint32)
      requires previousTimes.Length == NumPreviousTimes
      modifies this`currentTime, previousTimes
      ensures currentTime == After(timer, StartOffset)
      ensures previousTimes[..] == seq(NumPreviousTimes, _ => After(timer, StartOffset))
    {
      currentTime := (timer + StartOffset) % Modulus;
      for i := 0 to NumPreviousTimes
        invariant currentTime == After(timer, StartOffset)
        invariant forall k :: 0 <= k < i ==> previousTimes[k] == currentTime
      {
        previousTimes[i] := currentTime;
      }
    }

    /**
      `update_ADXL_data`, with `x`, `y`, `z` the axis readings the
      accelerometer returns if it is read: when the slot is due, the
      current orientation becomes the last one and the readings are
      classified against it.
    */
    method UpdateAdxlData(now: uint32, x: int32, y: int32, z: int32)
      requires previousTimes.Length == NumPreviousTimes
      modifies this`lastOrientation, this`currentOrientation, previousTimes
      ensures Due(now, old(previousTimes[AdxlPrevTimeIndex]), AdxlAxisReadInterval) ==>
        && lastOrientation == old(currentOrientation)
        && currentOrientation == UpdateCurrentOrientation(x, y, z, old(currentOrientation))
        && previousTimes[..] == old(previousTimes[..])[AdxlPrevTimeIndex := now]
      ensures !Due(now, old(previousTimes[AdxlPrevTimeIndex]), AdxlAxisReadInterval) ==>
        && lastOrientation == old(lastOrientation) && currentOrientation == old(currentOrientation)
        && previousTimes[..] == old(previousTimes[..])
    {
      if (now - previousTimes[AdxlPrevTimeIndex]) % Modulus > AdxlAxisReadInterval {
        lastOrientation := currentOrientation;
        currentOrientation := UpdateCurrentOrientation(x, y, z, lastOrientation);
        previousTimes[AdxlPrevTimeIndex] := now;
      }
    }

    /** `update_rtc_current_time`: every 3 ms or so the RTC's time cache is refreshed. */
    method UpdateRtcCurrentTime(now: uint32)
      requires Valid()
      modifies rtc.currentTime, previousTimes
      ensures Valid()
      ensures Due(now, old(previousTimes[RtcUpdateCurrentTimeIndex]), RtcUpdateCurrentTimeInterval) ==>
        && rtc.currentTime[..] == Bcd.DecodeTime(rtc.regs[Bcd.SecondsRegister], rtc.regs[Bcd.MinutesRegister],
                                                 rtc.regs[Bcd.HoursRegister])
        && previousTimes[..] == old(previousTimes[..])[RtcUpdateCurrentTimeIndex := now]
      ensures !Due(now, old(previousTimes[RtcUpdateCurrentTimeIndex]), RtcUpdateCurrentTimeInterval) ==>
        && rtc.currentTime[..] == old(rtc.currentTime[..])
        && previousTimes[..] == old(previousTimes[..])
    {
      if (now - previousTimes[RtcUpdateCurrentTimeIndex]) % Modulus > RtcUpdateCurrentTimeInterval {
        rtc.UpdateCurrentTime();
        previousTimes[RtcUpdateCurrentTimeIndex] := now;
      }
    }

    /**
      `update_temp_humidity_sensor`: the slot bookkeeping; `fired` says
      whether the sensor would be read on this pass.
    */
    method UpdateTempHumiditySensor(now: uint32) returns (fired: bool)
      requires previousTimes.Length == NumPreviousTimes
      modifies previousTimes
      ensures fired == Due(now, old(previousTimes[Am2320UpdateReadingsIndex]), Am2320UpdateReadingsInterval)
      ensures previousTimes[..] ==
        if fired then old(previousTimes[..])[Am2320UpdateReadingsIndex := now] else old(previousTimes[..])
    {
      fired := false;
      if (now - previousTimes[Am2320UpdateReadingsIndex]) % Modulus > Am2320UpdateReadingsInterval {
        fired := true;
        previousTimes[Am2320UpdateReadingsIndex] := now;
      }
    }

    /**
      `alarm_match_handling`: while the latch is active the display inverts
      every 500 ms or so; otherwise an inverted display is set back to
      normal; a double tap while active deactivates the alarm and is
      cleared. `doubleTap` is the accelerometer's double-tap status;
      `tapCleared` says that it was cleared, `buzzerOn` is the buzzer
      output at the end.
    */
    method AlarmMatchHandling(now: uint32, doubleTap: bool) returns (buzzerOn: bool, tapCleared: bool)
      requires Valid()
      modifies this`displayInvertedStatus, previousTimes, rtc`alarmStatus
      ensures Valid()
      ensures var active := Mcp7940n.NextAlarmStatus(rtc.alarmEnabled, old(rtc.alarmStatus),
                              Mcp7940n.TimeMatchesAlarm(rtc.currentTime[..], rtc.alarmTime[..])) == Mcp7940n.AlarmActive;
              var due := Due(now, old(previousTimes[InvertDisplayAlarmIndex]), InvertDisplayAlarmInterval);
        && displayInvertedStatus == InvertAfterAlarm(active, due, old(displayInvertedStatus))
        && previousTimes[..] == (if active && due then old(previousTimes[..])[InvertDisplayAlarmIndex := now]
                                 else old(previousTimes[..]))
        && tapCleared == (doubleTap && active)
        && rtc.alarmStatus == if tapCleared then Mcp7940n.AlarmInactive
                              else Mcp7940n.NextAlarmStatus(rtc.alarmEnabled, old(rtc.alarmStatus),
                                     Mcp7940n.TimeMatchesAlarm(rtc.currentTime[..], rtc.alarmTime[..]))
      ensures buzzerOn <==> displayInvertedStatus == DisplayInverted
    {
      ghost var matches := Mcp7940n.TimeMatchesAlarm(rtc.currentTime[..], rtc.alarmTime[..]);
      var status := rtc.CheckAlarmMatch();
      if status == Mcp7940n.AlarmActive {
        if (now - previousTimes[InvertDisplayAlarmIndex]) % Modulus > InvertDisplayAlarmInterval {
          displayInvertedStatus := displayInvertedStatus ^ 1;
          previousTimes[InvertDisplayAlarmIndex] := now;
        }
      } else {
        if displayInvertedStatus == DisplayInverted {
          displayInvertedStatus := DisplayNormal;
        }
      }

      tapCleared := false;
      if doubleTap {
        var again := rtc.CheckAlarmMatch();
        Mcp7940n.RecheckKeepsStatus(rtc.alarmEnabled, old(rtc.alarmStatus), matches);
        assert again == status;
        if again == Mcp7940n.AlarmActive {
          rtc.AlarmDeactivate();
          tapCleared := true;
        }
      }

      buzzerOn := displayInvertedStatus == DisplayInverted;
    }

    /** The setter call mode A makes on the RTC when an edit is committed. */
    method ApplyRtcCall(call: ModeA.RtcCall)
      requires Valid()
      modifies rtc`regs, rtc.alarmTime
      ensures Valid()
      ensures call.SetTime? ==>
        && rtc.regs == old(rtc.regs)[Bcd.SecondsRegister := call.sec | Bcd.OscillatorEnable]
                                    [Bcd.MinutesRegister := call.min][Bcd.HoursRegister := call.hour]
        && rtc.alarmTime[..] == old(rtc.alarmTime[..])
      ensures call.SetDate? ==>
        && rtc.regs == old(rtc.regs)[Bcd.DateDayRegister := call.dayDate][Bcd.MonthRegister := call.month]
                                    [Bcd.YearRegister := call.year]
        && rtc.alarmTime[..] == old(rtc.alarmTime[..])
      ensures call.SetAlarmTime? ==>
        && rtc.regs == old(rtc.regs)
        && rtc.alarmTime[..] == Mcp7940n.AlarmFromBcd(call.hours, call.minutes, call.seconds)
    {
      match call
      case SetTime(hour, min, sec) => rtc.SetTime(hour, min, sec);
      case SetDate(dayDate, month, year) => rtc.SetDate(dayDate, month, year);
      case SetAlarmTime(hours, minutes, seconds) => rtc.SetAlarmTime(hours, minutes, seconds);
    }

    /**
      One pass of the `while (1)` loop of `main`. `timer` is the timer 0
      count, `x`, `y`, `z` the axis readings, `doubleTap` the double-tap
      status, `select` and `next` the button inputs of mode A. The screen
      drawing of every mode, and the sensor reading of mode B, are not part
      of this model. The alarm is compared with the time cache as refreshed
      on this pass, and mode A draws that cache; both see the alarm time as
      it was before mode A's call, if any, is applied.
    */
    method Loop(timer: uint32, x: int32, y: int32, z: int32, doubleTap: bool, select: bool, next: bool)
      returns (buzzerOn: bool, call: ModeA.Option<ModeA.RtcCall>)
      requires Valid()
      modifies this, previousTimes, rtc, rtc.currentTime, rtc.alarmTime, modeA, modeA.settingsString
      ensures Valid()
      ensures currentTime == timer
      ensures Due(timer, old(previousTimes[AdxlPrevTimeIndex]), AdxlAxisReadInterval) ==>
        lastOrientation == old(currentOrientation)
        && currentOrientation == UpdateCurrentOrientation(x, y, z, old(currentOrientation))
      ensures !Due(timer, old(previousTimes[AdxlPrevTimeIndex]), AdxlAxisReadInterval) ==>
        lastOrientation == old(lastOrientation) && currentOrientation == old(currentOrientation)
      ensures rtc.alarmEnabled == old(rtc.alarmEnabled)
      ensures rtc.currentTime[..] == RefreshedCache(old(rtc.currentTime[..]), old(rtc.regs),
                                       Due(timer, old(previousTimes[RtcUpdateCurrentTimeIndex]), RtcUpdateCurrentTimeInterval))
      ensures var active := ActiveAfterCheck(rtc.alarmEnabled, old(rtc.alarmStatus), rtc.currentTime[..], old(rtc.alarmTime[..]));
              var blinkDue := Due(timer, old(previousTimes[InvertDisplayAlarmIndex]), InvertDisplayAlarmInterval);
        && displayInvertedStatus == InvertAfterAlarm(active, blinkDue, old(displayInvertedStatus))
        && rtc.alarmStatus == (if !active then old(rtc.alarmStatus)
                               else if doubleTap then Mcp7940n.AlarmInactive else Mcp7940n.AlarmActive)
        && previousTimes[..] ==
             Stamped(Stamped(Stamped(Stamped(old(previousTimes[..]),
               RtcUpdateCurrentTimeIndex, Due(timer, old(previousTimes[RtcUpdateCurrentTimeIndex]), RtcUpdateCurrentTimeInterval), timer),
               InvertDisplayAlarmIndex, active && blinkDue, timer),
               AdxlPrevTimeIndex, Due(timer, old(previousTimes[AdxlPrevTimeIndex]), AdxlAxisReadInterval), timer),
               Am2320UpdateReadingsIndex,
               currentOrientation == OrientationB
               && Due(timer, old(previousTimes[Am2320UpdateReadingsIndex]), Am2320UpdateReadingsInterval), timer)
      ensures buzzerOn <==> displayInvertedStatus == DisplayInverted
      ensures modeA.State() ==
        if currentOrientation == OrientationA then
          ModeA.AfterControl(old(modeA.State()), select, next,
                             Mcp7940n.TimeString(rtc.currentTime[..]), Mcp7940n.AlarmString(old(rtc.alarmTime[..])))
        else old(modeA.State())
      ensures call == if currentOrientation == OrientationA then ModeA.ControlCall(old(modeA.State()), select) else ModeA.None
      ensures rtc.regs == RegistersAfterCall(old(rtc.regs), call)
      ensures rtc.alarmTime[..] == AlarmAfterCall(old(rtc.alarmTime[..]), call)
      ensures currentOrientation == OrientationA ==> modeA.State().digitIncrementFlag == ModeA.HoldDigit
    {
      buzzerOn := ScheduledTasks(timer, x, y, z, doubleTap);
      call := DispatchMode(select, next);
    }

    /**
      The first half of a pass: the timer is sampled and the RTC, alarm and
      accelerometer tasks run, in that order, each against its own slot.
    */
    method ScheduledTasks(timer: uint32, x: int32, y: int32, z: int32, doubleTap: bool) returns (buzzerOn: bool)
      requires Valid()
      modifies this`currentTime, this`lastOrientation, this`currentOrientation, this`displayInvertedStatus,
               previousTimes, rtc.currentTime, rtc`alarmStatus
      ensures Valid()
      ensures currentTime == timer
      ensures Due(timer, old(previousTimes[AdxlPrevTimeIndex]), AdxlAxisReadInterval) ==>
        lastOrientation == old(currentOrientation)
        && currentOrientation == UpdateCurrentOrientation(x, y, z, old(currentOrientation))
      ensures !Due(timer, old(previousTimes[AdxlPrevTimeIndex]), AdxlAxisReadInterval) ==>
        lastOrientation == old(lastOrientation) && currentOrientation == old(currentOrientation)
      ensures rtc.currentTime[..] == RefreshedCache(old(rtc.currentTime[..]), rtc.regs,
                                       Due(timer, old(previousTimes[RtcUpdateCurrentTimeIndex]), RtcUpdateCurrentTimeInterval))
      ensures var active := ActiveAfterCheck(rtc.alarmEnabled, old(rtc.alarmStatus), rtc.currentTime[..], rtc.alarmTime[..]);
              var blinkDue := Due(timer, old(previousTimes[InvertDisplayAlarmIndex]), InvertDisplayAlarmInterval);
        && displayInvertedStatus == InvertAfterAlarm(active, blinkDue, old(displayInvertedStatus))
        && rtc.alarmStatus == (if !active then old(rtc.alarmStatus)
                               else if doubleTap then Mcp7940n.AlarmInactive else Mcp7940n.AlarmActive)
        && previousTimes[..] ==
             Stamped(Stamped(Stamped(old(previousTimes[..]),
               RtcUpdateCurrentTimeIndex, Due(timer, old(previousTimes[RtcUpdateCurrentTimeIndex]), RtcUpdateCurrentTimeInterval), timer),
               InvertDisplayAlarmIndex, active && blinkDue, timer),
               AdxlPrevTimeIndex, Due(timer, old(previousTimes[AdxlPrevTimeIndex]), AdxlAxisReadInterval), timer)
      ensures buzzerOn <==> displayInvertedStatus == DisplayInverted
    {
      currentTime := timer;
      UpdateRtcCurrentTime(currentTime);
      var tapCleared;
      buzzerOn, tapCleared := AlarmMatchHandling(currentTime, doubleTap);
      UpdateAdxlData(currentTime, x, y, z);
    }

    /**
      The second half of a pass: the screen of the current orientation. Mode A
      runs `MODE_A_control` on the RTC's time and alarm strings and may commit
      an edit to the RTC; mode B keeps its sensor slot; modes C and D change
      nothing here.
    */
    method DispatchMode(select: bool, next: bool) returns (call: ModeA.Option<ModeA.RtcCall>)
      requires Valid()
      modifies previousTimes, rtc`regs, rtc.alarmTime, modeA, modeA.settingsString
      ensures Valid()
      ensures modeA.State() ==
        if currentOrientation == OrientationA then
          ModeA.AfterControl(old(modeA.State()), select, next,
                             Mcp7940n.TimeString(rtc.currentTime[..]), Mcp7940n.AlarmString(old(rtc.alarmTime[..])))
        else old(modeA.State())
      ensures call == if currentOrientation == OrientationA then ModeA.ControlCall(old(modeA.State()), select) else ModeA.None
      ensures rtc.regs == RegistersAfterCall(old(rtc.regs), call)
      ensures rtc.alarmTime[..] == AlarmAfterCall(old(rtc.alarmTime[..]), call)
      ensures previousTimes[..] ==
        Stamped(old(previousTimes[..]), Am2320UpdateReadingsIndex,
                currentOrientation == OrientationB
                && Due(currentTime, old(previousTimes[Am2320UpdateReadingsIndex]), Am2320UpdateReadingsInterval),
                currentTime)
      ensures currentOrientation == OrientationA ==> modeA.State().digitIncrementFlag == ModeA.HoldDigit
    {
      call := ModeA.None;
      if currentOrientation == OrientationA {
        var rtcTime := Mcp7940n.TimeString(rtc.currentTime[..]);
        var rtcAlarm := Mcp7940n.AlarmString(rtc.alarmTime[..]);
        ghost var before := modeA.State();
        call := modeA.Control(select, next, rtcTime, rtcAlarm);
        ModeA.ControlLeavesNoPendingIncrement(before, select, next, rtcTime, rtcAlarm);
        if call.Some? {
          ApplyRtcCall(call.value);
        }
      } else if currentOrientation == OrientationB {
        var fired := UpdateTempHumiditySensor(currentTime);
      }
    }
  }
}
