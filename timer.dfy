/**
 * The countdown of src/timer.rs: a start instant and a duration, the time
 * remaining at a clock reading `now`, and the "Exiting in ..." text.
 * Instants and durations are nanoseconds, as in `Durations`.
 */
module Timers {
  import opened Wrappers
  import opened Durations
  import opened Strings

  datatype Timer = Timer(startTime: nat, duration: nat)

  /** `Timer::new`: started at `now`. */
  function NewTimer(now: nat, duration: nat): (t: Timer)
    ensures t.startTime == now && t.duration == duration
    ensures TimeRemaining(t, now) == duration
  {
    Timer(now, duration)
  }

  /** `time_remaining`: the duration less the elapsed time, and 0 once it is used up. */
  function TimeRemaining(t: Timer, now: nat): (r: nat)
    ensures r <= t.duration
    ensures SatSub(now, t.startTime) >= t.duration ==> r == 0
    ensures SatSub(now, t.startTime) < t.duration ==> r + SatSub(now, t.startTime) == t.duration
  {
    var elapsed := SatSub(now, t.startTime);
    if elapsed >= t.duration then 0 else t.duration - elapsed
  }

  /** The remaining time never grows as the clock advances. */
  lemma RemainingNonIncreasing(t: Timer, now1: nat, now2: nat)
    requires now1 <= now2
    ensures TimeRemaining(t, now2) <= TimeRemaining(t, now1)
  {
  }

  /** The countdown reaches 0 exactly when the duration has passed since the start. */
  lemma RemainingZeroExactly(t: Timer, now: nat)
    ensures TimeRemaining(t, now) == 0 <==> t.duration == 0 || now >= t.startTime + t.duration
  {
  }

  /**
   * `format_duration` as written: `minutes = secs / 60` and
   * `hours = secs / 3600` are printed with the whole `secs` and `minutes`,
   * none of them reduced modulo 60.
   */
  function FormatRemainingAsWritten(remaining: nat): (r: string)
    ensures Framed(r, "Exiting in ", Unit(AsSecs(remaining)))
    ensures remaining < NanosPerMilli ==> r == "Exiting in 000ms"
  {
    ZeroMillis();
    var millis := SubsecMillis(remaining);
    var secs := AsSecs(remaining);
    var minutes := secs / 60;
    var hours := secs / 3600;
    if secs == 0 then ShowMs("Exiting in ", millis)
    else if secs <= 59 then ShowS("Exiting in ", secs, millis)
    else if secs <= 3599 then ShowM("Exiting in ", minutes, secs, millis)
    else ShowH("Exiting in ", hours, minutes, secs, millis)
  }

  /** The timer's text at `now`, as written; once the time is up it reads "Exiting in 000ms". */
  function TimerTextAsWritten(t: Timer, now: nat): (r: string)
    ensures Framed(r, "Exiting in ", Unit(AsSecs(TimeRemaining(t, now))))
    ensures now >= t.startTime + t.duration ==> r == "Exiting in 000ms"
  {
    FormatRemainingAsWritten(TimeRemaining(t, now))
  }

  /**
   * A 90-second timer just started reads "Exiting in 1:90.000m": the
   * seconds field holds all 90 seconds, so minutes and seconds add up to
   * 150 seconds.
   */
  lemma NinetySecondsAsWritten()
    ensures TimerTextAsWritten(NewTimer(0, 90_000_000_000), 0) == "Exiting in 1:90.000m"
  {
    NinetySecondsFields(90_000_000_000);
    NinetySecondsDigits();
  }

  /**
   * As written, from a minute on the seconds field is the whole remaining
   * seconds: it reads back as a number of at least 60, which no reading of
   * a minute text can hold.
   */
  lemma AsWrittenFieldsOvercount(remaining: nat)
    requires 60 <= AsSecs(remaining) <= 3599
    ensures var secs := AsSecs(remaining);
      FormatRemainingAsWritten(remaining) == ShowM("Exiting in ", secs / 60, secs, SubsecMillis(remaining)) &&
      DecimalValue(ZeroPadded(secs, 2)) == secs && secs >= 60
  {
    ZeroPaddedRoundTrip(AsSecs(remaining), 2);
  }

  /**
   * The corrected text: the same layout as the stopwatch's, minutes and
   * seconds reduced below 60.
   */
  function FormatRemaining(remaining: nat): (r: string)
    ensures Framed(r, "Exiting in ", Unit(AsSecs(remaining)))
    ensures remaining < NanosPerMilli ==> r == "Exiting in 000ms"
  {
    ZeroMillis();
    FormatClock("Exiting in ", remaining)
  }

  /** The corrected text at `now`; once the time is up it reads "Exiting in 000ms". */
  function TimerText(t: Timer, now: nat): (r: string)
    ensures Framed(r, "Exiting in ", Unit(AsSecs(TimeRemaining(t, now))))
    ensures now >= t.startTime + t.duration ==> r == "Exiting in 000ms"
  {
    FormatRemaining(TimeRemaining(t, now))
  }

  /** Below a minute the text as written is already the corrected one. */
  lemma BelowAMinuteAgrees(remaining: nat)
    requires AsSecs(remaining) < 60
    ensures FormatRemainingAsWritten(remaining) == FormatRemaining(remaining)
  {
  }

  /**
   * With reduced fields the minute text reads back as the remaining time:
   * two-digit seconds below 60 that, with the minutes, rebuild the whole
   * seconds; from an hour on, hours, minutes and seconds do.
   */
  lemma CorrectedFieldsRebuild(remaining: nat)
    requires AsSecs(remaining) >= 60
    ensures var secs := AsSecs(remaining);
      secs <= 3599 ==>
        FormatRemaining(remaining) == ShowM("Exiting in ", secs / 60, secs % 60, SubsecMillis(remaining)) &&
        (secs / 60) * 60 + secs % 60 == secs && secs % 60 < 60
    ensures var secs := AsSecs(remaining);
      secs >= 3600 ==>
        FormatRemaining(remaining) ==
          ShowH("Exiting in ", secs / 3600, (secs / 60) % 60, secs % 60, SubsecMillis(remaining)) &&
        (secs / 3600) * 3600 + ((secs / 60) % 60) * 60 + secs % 60 == secs &&
        (secs / 60) % 60 < 60 && secs % 60 < 60
  {
    ClockFields(AsSecs(remaining));
  }

  /** A 90-second timer just started reads "Exiting in 1:30.000m" once corrected. */
  lemma NinetySecondsCorrected()
    ensures TimerText(NewTimer(0, 90_000_000_000), 0) == "Exiting in 1:30.000m"
  {
    NinetySecondsFields(90_000_000_000);
    NinetySecondsDigits();
  }

  /** Under a millisecond, both branches print three zero digits. */
  lemma ZeroMillis()
    ensures Decimal(0) == "0" && ZeroPadded(0, 3) == "000"
  {
  }

  lemma NinetySecondsFields(d: nat)
    requires d == 90_000_000_000
    ensures TimeRemaining(NewTimer(0, d), 0) == d
    ensures FormatRemainingAsWritten(d) == ShowM("Exiting in ", 1, 90, 0)
    ensures FormatRemaining(d) == ShowM("Exiting in ", 1, 30, 0)
  {
    assert AsSecs(d) == 90 && SubsecMillis(d) == 0;
  }

  lemma NinetySecondsDigits()
    ensures Decimal(1) == "1" && ZeroPadded(90, 2) == "90" && ZeroPadded(30, 2) == "30"
    ensures ZeroPadded(0, 3) == "000"
  {
    assert Decimal(9) == "9" && Decimal(90) == "90";
    assert Decimal(3) == "3" && Decimal(30) == "30";
    assert Decimal(0) == "0";
  }
}
