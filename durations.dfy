/**
 * `std::time::Duration` as a number of nanoseconds, the two accessors the
 * widgets use (`as_secs`, `subsec_millis`), and the clock texts the
 * stopwatch and the timer print with `format!`: `{:03}` and `{:02}` are
 * `ZeroPadded`, `{}` is `Decimal`.
 */
module Durations {
  import opened Strings

  const NanosPerSecond: nat := 1_000_000_000
  const NanosPerMilli: nat := 1_000_000

  /** `Duration::as_secs`: the whole seconds. */
  function AsSecs(d: nat): (r: nat)
    ensures r * NanosPerSecond <= d < (r + 1) * NanosPerSecond
  {
    d / NanosPerSecond
  }

  /** `Duration::subsec_millis`: the whole milliseconds of the fractional second. */
  function SubsecMillis(d: nat): (r: nat)
    ensures r < 1000
    ensures r * NanosPerMilli <= d % NanosPerSecond < (r + 1) * NanosPerMilli
  {
    (d % NanosPerSecond) / NanosPerMilli
  }

  /** `{:03}ms` */
  function ShowMs(prefix: string, ms: nat): string {
    prefix + ZeroPadded(ms, 3) + "ms"
  }

  /** `{}.{:03}s` */
  function ShowS(prefix: string, s: nat, ms: nat): string {
    prefix + Decimal(s) + "." + ZeroPadded(ms, 3) + "s"
  }

  /** `{}:{:02}.{:03}m` */
  function ShowM(prefix: string, m: nat, s: nat, ms: nat): string {
    prefix + Decimal(m) + ":" + ZeroPadded(s, 2) + "." + ZeroPadded(ms, 3) + "m"
  }

  /** `{}:{:02}:{:02}.{:03}h` */
  function ShowH(prefix: string, h: nat, m: nat, s: nat, ms: nat): string {
    prefix + Decimal(h) + ":" + ZeroPadded(m, 2) + ":" + ZeroPadded(s, 2) + "." + ZeroPadded(ms, 3) + "h"
  }

  /** A padded field of a value below `10^w` takes exactly `w` characters. */
  lemma PaddedExactly(n: nat, w: nat)
    requires 1 <= w <= 3 && n < Pow10(w)
    ensures |ZeroPadded(n, w)| == w
  {
    ZeroPaddedWidth(n, w);
  }

  lemma Pow10Values()
    ensures Pow10(2) == 100 && Pow10(3) == 1000
  {
  }

  // Where each piece of a clock text sits, for any pieces of the right widths.

  lemma Layout1(p: string, e: string, u: string)
    requires |e| == 3
    ensures var s := p + e + u;
      |s| == |p| + 3 + |u| && s[..|p|] == p && s[|p|..|p| + 3] == e && s[|p| + 3..] == u
  {
  }

  lemma Layout2(p: string, a: string, e: string, u: string)
    requires |e| == 3
    ensures var s, i := p + a + "." + e + u, |p| + |a|;
      |s| == i + 4 + |u| &&
      s[..|p|] == p && s[|p|..i] == a && s[i] == '.' && s[i + 1..i + 4] == e && s[i + 4..] == u
  {
  }

  lemma Layout3(p: string, a: string, b: string, e: string, u: string)
    requires |b| == 2 && |e| == 3
    ensures var s, i := p + a + ":" + b + "." + e + u, |p| + |a|;
      |s| == i + 7 + |u| &&
      s[..|p|] == p && s[|p|..i] == a && s[i] == ':' && s[i + 1..i + 3] == b &&
      s[i + 3] == '.' && s[i + 4..i + 7] == e && s[i + 7..] == u
  {
  }

  lemma Layout4(p: string, a: string, b: string, c: string, e: string, u: string)
    requires |b| == 2 && |c| == 2 && |e| == 3
    ensures var s, i := p + a + ":" + b + ":" + c + "." + e + u, |p| + |a|;
      |s| == i + 10 + |u| &&
      s[..|p|] == p && s[|p|..i] == a && s[i] == ':' && s[i + 1..i + 3] == b && s[i + 3] == ':' &&
      s[i + 4..i + 6] == c && s[i + 6] == '.' && s[i + 7..i + 10] == e && s[i + 10..] == u
  {
  }

  /** The `ms` text is the prefix, exactly three digits of `ms`, and the unit. */
  lemma ShowMsReadsBack(prefix: string, ms: nat)
    requires ms < 1000
    ensures var str, p := ShowMs(prefix, ms), |prefix|;
      |str| == p + 5 && str[..p] == prefix &&
      str[p..p + 3] == ZeroPadded(ms, 3) &&
      str[p + 3..] == "ms"
  {
    Pow10Values();
    PaddedExactly(ms, 3);
    Layout1(prefix, ZeroPadded(ms, 3), "ms");
  }

  /** The `s` text: the seconds in `k` digits, a dot, three digits of milliseconds, the unit. */
  lemma ShowSReadsBack(prefix: string, s: nat, ms: nat)
    requires ms < 1000
    ensures var str, p, k := ShowS(prefix, s, ms), |prefix|, |Decimal(s)|;
      |str| == p + k + 5 && str[..p] == prefix &&
      str[p..p + k] == Decimal(s) &&
      str[p + k] == '.' &&
      str[p + k + 1..p + k + 4] == ZeroPadded(ms, 3) &&
      str[p + k + 4..] == "s"
  {
    Pow10Values();
    PaddedExactly(ms, 3);
    Layout2(prefix, Decimal(s), ZeroPadded(ms, 3), "s");
  }

  /** The `m` text: minutes in `k` digits, a colon, two digits of seconds, a dot, three of milliseconds. */
  lemma ShowMReadsBack(prefix: string, m: nat, s: nat, ms: nat)
    requires s < 100 && ms < 1000
    ensures var str, p, k := ShowM(prefix, m, s, ms), |prefix|, |Decimal(m)|;
      |str| == p + k + 8 && str[..p] == prefix &&
      str[p..p + k] == Decimal(m) &&
      str[p + k] == ':' &&
      str[p + k + 1..p + k + 3] == ZeroPadded(s, 2) &&
      str[p + k + 3] == '.' &&
      str[p + k + 4..p + k + 7] == ZeroPadded(ms, 3) &&
      str[p + k + 7..] == "m"
  {
    Pow10Values();
    PaddedExactly(s, 2);
    PaddedExactly(ms, 3);
    Layout3(prefix, Decimal(m), ZeroPadded(s, 2), ZeroPadded(ms, 3), "m");
  }

  /** The `h` text: hours in `k` digits, then two digits each of minutes and seconds, then milliseconds. */
  lemma ShowHReadsBack(prefix: string, h: nat, m: nat, s: nat, ms: nat)
    requires m < 100 && s < 100 && ms < 1000
    ensures var str, p, k := ShowH(prefix, h, m, s, ms), |prefix|, |Decimal(h)|;
      |str| == p + k + 11 && str[..p] == prefix &&
      str[p..p + k] == Decimal(h) &&
      str[p + k] == ':' &&
      str[p + k + 1..p + k + 3] == ZeroPadded(m, 2) &&
      str[p + k + 3] == ':' &&
      str[p + k + 4..p + k + 6] == ZeroPadded(s, 2) &&
      str[p + k + 6] == '.' &&
      str[p + k + 7..p + k + 10] == ZeroPadded(ms, 3) &&
      str[p + k + 10..] == "h"
  {
    Pow10Values();
    PaddedExactly(m, 2);
    PaddedExactly(s, 2);
    PaddedExactly(ms, 3);
    Layout4(prefix, Decimal(h), ZeroPadded(m, 2), ZeroPadded(s, 2), ZeroPadded(ms, 3), "h");
  }

  /** The last character of a clock text: `s` below a minute (`ms` and `s`), then `m`, then `h`. */
  function Unit(secs: nat): char {
    if secs <= 59 then 's' else if secs <= 3599 then 'm' else 'h'
  }

  /** `s` starts with `prefix` and ends with the character `unit` after it. */
  predicate Framed(s: string, prefix: string, unit: char) {
    |s| > |prefix| && s[..|prefix|] == prefix && s[|s| - 1] == unit
  }

  /**
   * The stopwatch's `format_duration` after its prefix: by whole seconds,
   * `ms`, `s`, `m` or `h`, every field after the first reduced below 60.
   */
  function FormatClock(prefix: string, d: nat): (r: string)
    ensures Framed(r, prefix, Unit(AsSecs(d)))
  {
    var millis := SubsecMillis(d);
    var secs := AsSecs(d);
    var minutes := secs / 60;
    var hours := minutes / 60;
    if secs == 0 then ShowMs(prefix, millis)
    else if secs <= 59 then ShowS(prefix, secs, millis)
    else if secs <= 3599 then ShowM(prefix, minutes, secs % 60, millis)
    else ShowH(prefix, hours, minutes % 60, secs % 60, millis)
  }

  /** `hours = (secs / 60) / 60` is `secs / 3600`, and the three fields rebuild `secs`. */
  lemma ClockFields(secs: nat)
    ensures (secs / 60) / 60 == secs / 3600
    ensures (secs / 3600) * 3600 + ((secs / 60) % 60) * 60 + secs % 60 == secs
    ensures (secs / 60) * 60 + secs % 60 == secs
    ensures secs < 3600 ==> secs / 60 < 60
  {
  }

  /** Under a second: the prefix, three digits of milliseconds, "ms". */
  lemma FormatClockMillis(prefix: string, d: nat)
    requires AsSecs(d) == 0
    ensures var str, p := FormatClock(prefix, d), |prefix|;
      |str| == p + 5 && str[..p] == prefix &&
      str[p..p + 3] == ZeroPadded(SubsecMillis(d), 3) && str[p + 3..] == "ms"
  {
    ShowMsReadsBack(prefix, SubsecMillis(d));
  }

  /** Under a minute: one or two digits of seconds, a dot, three of milliseconds, "s". */
  lemma FormatClockSeconds(prefix: string, d: nat)
    requires 1 <= AsSecs(d) <= 59
    ensures var str, p, secs := FormatClock(prefix, d), |prefix|, AsSecs(d);
      var k := |Decimal(secs)|;
      1 <= k <= 2 && |str| == p + k + 5 && str[..p] == prefix &&
      str[p..p + k] == Decimal(secs) && str[p + k] == '.' &&
      str[p + k + 1..p + k + 4] == ZeroPadded(SubsecMillis(d), 3) && str[p + k + 4..] == "s"
  {
    Pow10Values();
    DecimalLength(AsSecs(d), 2);
    ShowSReadsBack(prefix, AsSecs(d), SubsecMillis(d));
  }

  /**
   * Under an hour: minutes in one or two digits, a colon, the remaining
   * seconds in exactly two digits, then the milliseconds; minutes and
   * seconds rebuild the whole seconds.
   */
  lemma FormatClockMinutes(prefix: string, d: nat)
    requires 60 <= AsSecs(d) <= 3599
    ensures var str, p, secs := FormatClock(prefix, d), |prefix|, AsSecs(d);
      var minutes, rest := secs / 60, secs % 60;
      var k := |Decimal(minutes)|;
      minutes * 60 + rest == secs && minutes < 60 && rest < 60 &&
      1 <= k <= 2 && |str| == p + k + 8 && str[..p] == prefix &&
      str[p..p + k] == Decimal(minutes) && str[p + k] == ':' &&
      str[p + k + 1..p + k + 3] == ZeroPadded(rest, 2) && str[p + k + 3] == '.' &&
      str[p + k + 4..p + k + 7] == ZeroPadded(SubsecMillis(d), 3) && str[p + k + 7..] == "m"
  {
    var secs := AsSecs(d);
    ClockFields(secs);
    Pow10Values();
    DecimalLength(secs / 60, 2);
    ShowMReadsBack(prefix, secs / 60, secs % 60, SubsecMillis(d));
  }

  /**
   * From an hour on: hours, then minutes and seconds below 60 in exactly two
   * digits each, then the milliseconds; the three fields rebuild the whole
   * seconds.
   */
  lemma FormatClockHours(prefix: string, d: nat)
    requires AsSecs(d) >= 3600
    ensures var str, p, secs := FormatClock(prefix, d), |prefix|, AsSecs(d);
      var hours, minutes, rest := secs / 3600, (secs / 60) % 60, secs % 60;
      var k := |Decimal(hours)|;
      hours * 3600 + minutes * 60 + rest == secs && minutes < 60 && rest < 60 &&
      |str| == p + k + 11 && str[..p] == prefix &&
      str[p..p + k] == Decimal(hours) && str[p + k] == ':' &&
      str[p + k + 1..p + k + 3] == ZeroPadded(minutes, 2) && str[p + k + 3] == ':' &&
      str[p + k + 4..p + k + 6] == ZeroPadded(rest, 2) && str[p + k + 6] == '.' &&
      str[p + k + 7..p + k + 10] == ZeroPadded(SubsecMillis(d), 3) && str[p + k + 10..] == "h"
  {
    var secs := AsSecs(d);
    ClockFields(secs);
    ShowHReadsBack(prefix, secs / 3600, (secs / 60) % 60, secs % 60, SubsecMillis(d));
  }
}
