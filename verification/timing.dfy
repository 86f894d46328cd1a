/**
  The millisecond-slot scheduler of the main loops. Timer 0 counts
  milliseconds in a `uint32_t`; each periodic task keeps the time it last ran
  in a slot of `previousTimes` and runs again once the elapsed time, taken
  as an unsigned 32-bit difference, exceeds its interval.
*/
module Timing {
  import opened Avr

  const Modulus: int := 0x1_0000_0000

  /** `currentTime - previousTime` in `uint32_t` arithmetic. */
  function Elapsed(now: uint32, previous: uint32): (d: uint32)
    ensures previous <= now ==> d == now - previous
    ensures now < previous ==> d == Modulus + now - previous
  {
    (now - previous) % Modulus
  }

  /** A task runs when strictly more than `interval` milliseconds have elapsed. */
  predicate Due(now: uint32, previous: uint32, interval: nat) {
    Elapsed(now, previous) > interval
  }

  /** The timer value `ticks` milliseconds after `start`, wrapping at 2^32. */
  function After(start: uint32, ticks: nat): uint32 {
    (start + ticks) % Modulus
  }

  /**
    The elapsed time is the number of milliseconds that really passed, also
    when the counter wrapped in between, as long as less than one full
    period of the counter passed.
  */
  lemma ElapsedCountsTicks(start: uint32, ticks: nat)
    requires ticks < Modulus
    ensures Elapsed(After(start, ticks), start) == ticks
  {
    if start + ticks < Modulus {
      assert After(start, ticks) == start + ticks;
    } else {
      assert After(start, ticks) == start + ticks - Modulus;
    }
  }

  /** So a slot falls due exactly when more than its interval has passed, wrap-around or not. */
  lemma DueIffIntervalPassed(start: uint32, ticks: nat, interval: nat)
    requires ticks < Modulus
    ensures Due(After(start, ticks), start, interval) <==> ticks > interval
  {
    ElapsedCountsTicks(start, ticks);
  }

  /** A slot last set 6 ms before the counter wrapped is due 11 ms later, at timer value 5, for a 3 ms interval. */
  lemma DueAcrossWrap()
    ensures Elapsed(5, 0xFFFF_FFFA) == 11
    ensures Due(5, 0xFFFF_FFFA, 3) && !Due(5, 0xFFFF_FFFA, 813)
  {
  }

  /**
    Slots initialised `offset` milliseconds ahead of the timer see, for the
    first `offset` milliseconds, an elapsed time of nearly 2^32: a task is
    due on those passes exactly when its interval is below that elapsed time.
  */
  lemma OffsetStartMakesSlotsDue(timer: uint32, offset: nat, ticks: nat, interval: nat)
    requires ticks < offset < Modulus
    ensures Elapsed(After(timer, ticks), After(timer, offset)) == Modulus + ticks - offset
    ensures Due(After(timer, ticks), After(timer, offset), interval) <==> interval < Modulus + ticks - offset
  {
    var start := After(timer, offset);
    var k := Modulus + ticks - offset;
    assert After(start, k) == After(timer, ticks) by {
      if timer + offset < Modulus {
        assert start == timer + offset;
      } else {
        assert start == timer + offset - Modulus;
      }
    }
    ElapsedCountsTicks(start, k);
  }
}
