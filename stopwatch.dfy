/**
 * The stopwatch of src/stopwatch.rs. An `Instant` is a number of
 * nanoseconds on a monotonic clock and a `Duration` a number of
 * nanoseconds; every operation that reads the clock takes the reading `now`.
 */
module Stopwatches {
  import opened Wrappers
  import opened Durations
  import opened Strings

  class StopWatch {
    var startTime: nat
    var running: bool

    /** `StopWatch::new`: started, running. */
    constructor (now: nat)
      ensures startTime == now && running
    {
      startTime := now;
      running := true;
    }

    /**
     * `elapsed`: the time since `startTime` while running (`Instant::elapsed`
     * saturates at 0), and 0 when not running.
     */
    function Elapsed(now: nat): (d: nat)
      reads this
      ensures running && startTime <= now ==> d + startTime == now
      ensures running && now < startTime ==> d == 0
      ensures !running ==> d == 0
    {
      if running then SatSub(now, startTime) else 0
    }

    /**
     * `toggle`: flips `running`. Both branches set `startTime` to
     * `now - start_time.elapsed()`, which with one clock reading is the old
     * start again; so stopping shows 0 and resuming counts from the first
     * start, the stopped interval included.
     */
    method Toggle(now: nat)
      modifies this
      ensures running == !old(running)
      ensures startTime == Min(old(startTime), now)
      ensures old(startTime) <= now ==> startTime == old(startTime)
    {
      if running {
        startTime := now - SatSub(now, startTime);
        running := false;
      } else {
        startTime := now - SatSub(now, startTime);
        running := true;
      }
    }

    /** `reset`: started again at `now`, running. */
    method Reset(now: nat)
      modifies this
      ensures startTime == now && running
      ensures Elapsed(now) == 0
    {
      startTime := now;
      running := true;
    }
  }

  /** `format_duration`: the clock text after "Elapsed: ". */
  function FormatDuration(elapsed: nat): (r: string)
    ensures Framed(r, "Elapsed: ", Unit(AsSecs(elapsed)))
  {
    FormatClock("Elapsed: ", elapsed)
  }

  /**
   * From an hour on, the text is hours, two-digit minutes and seconds below
   * 60 and three-digit milliseconds, and the fields add up to the elapsed
   * whole seconds (the other ranges are `FormatClockMillis`,
   * `FormatClockSeconds`, `FormatClockMinutes`).
   */
  lemma FormatDurationHours(elapsed: nat)
    requires AsSecs(elapsed) >= 3600
    ensures var secs := AsSecs(elapsed);
      FormatDuration(elapsed) ==
        ShowH("Elapsed: ", secs / 3600, (secs / 60) % 60, secs % 60, SubsecMillis(elapsed))
    ensures var secs := AsSecs(elapsed);
      (secs / 3600) * 3600 + ((secs / 60) % 60) * 60 + secs % 60 == secs
  {
    ClockFields(AsSecs(elapsed));
  }

  lemma ExampleFields(d: nat)
    requires d == 3_723_456_000_000
    ensures FormatDuration(d) == ShowH("Elapsed: ", 1, 2, 3, 456)
  {
    assert AsSecs(d) == 3723;
    assert SubsecMillis(d) == 456;
  }

  lemma ExampleDigits()
    ensures Decimal(1) == "1" && ZeroPadded(2, 2) == "02" && ZeroPadded(3, 2) == "03"
    ensures ZeroPadded(456, 3) == "456"
  {
    assert Decimal(2) == "2" && Decimal(3) == "3";
    assert Decimal(4) == "4" && Decimal(45) == "45" && Decimal(456) == "456";
  }

  /** 1 h 2 min 3.456 s shows as "Elapsed: 1:02:03.456h". */
  lemma FormatDurationExample()
    ensures FormatDuration(3_723_456_000_000) == "Elapsed: 1:02:03.456h"
  {
    ExampleFields(3_723_456_000_000);
    ExampleDigits();
  }

  /**
   * Stop at 5 s, resume at 8 s: while stopped the stopwatch shows 0, and at
   * 10 s it shows the 10 s since the first start.
   */
  method PauseScenario() returns (whileStopped: nat, afterResume: nat)
    ensures whileStopped == 0
    ensures afterResume == 10_000_000_000
  {
    var sw := new StopWatch(0);
    sw.Toggle(5_000_000_000);
    whileStopped := sw.Elapsed(6_000_000_000);
    sw.Toggle(8_000_000_000);
    afterResume := sw.Elapsed(10_000_000_000);
  }
}
