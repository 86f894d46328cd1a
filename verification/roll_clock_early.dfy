/**
  The earlier main loop of the roll clock (the MCP7940M generation): one
  scheduled task, the accelerometer, read every 200 ms, and the same
  orientation classifier as the later loop.
*/
module RollClockEarly {
  import opened Avr
  import opened Timing
  import RollClock

  const NumPreviousTimes := 2
  const AdxlAxisReadInterval := 200
  const AdxlPrevTimeIndex := 0

  const AxisActive := 1400
  const AxisInactive := 500

  const ModeA: uint8 := 0
  const ModeB: uint8 := 1
  const ModeC: uint8 := 2
  const ModeD: uint8 := 3

  /** `current_orientation` for the axis readings `x`, `y`, `z` (750.0 compared exactly, as in the later loop). */
  function CurrentOrientation(x: int32, y: int32, z: int32, lastOrientation: uint8): (r: uint8)
    ensures 2 * z > 3 * AxisInactive || 2 * z < -(3 * AxisInactive) ==> r == lastOrientation
    ensures lastOrientation <= ModeD ==> r <= ModeD
  {
    if 2 * z > 3 * AxisInactive || 2 * z < -(3 * AxisInactive) then
      lastOrientation
    else if y < -AxisActive && (x > -AxisInactive || x < AxisInactive) then
      ModeA
    else if x < -AxisActive && (y > -AxisInactive || y < AxisInactive) then
      ModeB
    else if y > AxisActive && (x > -AxisInactive || x < AxisInactive) then
      ModeC
    else if x > AxisActive && (y > -AxisInactive || y < AxisInactive) then
      ModeD
    else
      lastOrientation
  }

  /** The earlier classifier is the same classification as the later one: tautological bands, same priority. */
  lemma SameClassifierAsLaterLoop(x: int32, y: int32, z: int32, last: uint8)
    ensures CurrentOrientation(x, y, z, last) == RollClock.Orientation(x, y, z, last)
    ensures CurrentOrientation(x, y, z, last) == RollClock.UpdateCurrentOrientation(x, y, z, last)
  {
  }

  /** `initialise_current_and_previous_times`: both slots get the timer value, with no offset. */
  method InitialiseCurrentAndPreviousTimes(timer: uint32, previousTimes: array<uint32>) returns (currentTime: uint32)
    requires previousTimes.Length == NumPreviousTimes
    modifies previousTimes
    ensures currentTime == timer
    ensures previousTimes[..] == [timer, timer]
  {
    currentTime := timer;
    for i := 0 to NumPreviousTimes
      invariant forall k :: 0 <= k < i ==> previousTimes[k] == currentTime
    {
      previousTimes[i] := currentTime;
    }
  }

  /** Right after initialisation the accelerometer slot is not due: the first reading comes after 200 ms. */
  lemma FirstReadingWaits(timer: uint32, ticks: nat)
    requires ticks < Modulus
    ensures Due(After(timer, ticks), timer, AdxlAxisReadInterval) <==> ticks > AdxlAxisReadInterval
  {
    DueIffIntervalPassed(timer, ticks, AdxlAxisReadInterval);
  }

  /**
    `update_ADXL_data`: with the slot due, the current orientation becomes
    the last one, the readings are classified against it and the slot is set
    to `now`; otherwise nothing changes.
  */
  method UpdateAdxlData(now: uint32, previousTimes: array<uint32>, lastOrientation: uint8,
                        currentOrientation: uint8, x: int32, y: int32, z: int32)
    returns (newLast: uint8, newCurrent: uint8)
    requires previousTimes.Length == NumPreviousTimes
    modifies previousTimes
    ensures Due(now, old(previousTimes[AdxlPrevTimeIndex]), AdxlAxisReadInterval) ==>
      && newLast == currentOrientation
      && newCurrent == CurrentOrientation(x, y, z, currentOrientation)
      && previousTimes[..] == old(previousTimes[..])[AdxlPrevTimeIndex := now]
    ensures !Due(now, old(previousTimes[AdxlPrevTimeIndex]), AdxlAxisReadInterval) ==>
      && newLast == lastOrientation && newCurrent == currentOrientation
      && previousTimes[..] == old(previousTimes[..])
  {
    newLast, newCurrent := lastOrientation, currentOrientation;
    if (now - previousTimes[AdxlPrevTimeIndex]) % Modulus > AdxlAxisReadInterval {
      newLast := newCurrent;
      newCurrent := CurrentOrientation(x, y, z, newLast);
      previousTimes[AdxlPrevTimeIndex] := now;
    }
  }
}
