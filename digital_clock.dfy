/**
 * The digital clock's fields: the hour in 24-hour or 12-hour form, the
 * minutes and the seconds, each padded to two digits, and the AM/PM marker.
 * The clock reading (`getHours`, `getMinutes`, `getSeconds`) is given.
 */
module DigitalClock {
  import opened Js

  datatype Period = AM | PM

  /** The four texts `formatTime` returns. */
  datatype Display = Display(hours: string, minutes: string, seconds: string, ampm: Period)

  /** The hour shown: as read in 24-hour form, otherwise `h % 12`, with 12 in place of 0. */
  function DisplayHour(h: nat, is24Hour: bool): (d: nat)
    requires h < 24
    ensures is24Hour ==> d == h
    ensures !is24Hour ==> 1 <= d <= 12 && d % 12 == h % 12
  {
    if is24Hour then h else if h % 12 == 0 then 12 else h % 12
  }

  /** PM from noon on. */
  function PeriodOf(h: nat): Period
  {
    if h >= 12 then PM else AM
  }

  function FormatTime(h: nat, m: nat, s: nat, is24Hour: bool): Display
    requires h < 24 && m < 60 && s < 60
  {
    Display(Pad2(DisplayHour(h, is24Hour)), Pad2(m), Pad2(s), PeriodOf(h))
  }

  /** The hour of the day a 12-hour display and its marker stand for. */
  function HourOfDay(d: nat, p: Period): nat
  {
    d % 12 + if p == PM then 12 else 0
  }

  /**
   * Each field is two digits; minutes and seconds read back as given; in
   * 24-hour form so does the hour, and in 12-hour form the hour together with
   * the marker gives back the hour of the day, so no two readings of the same
   * minute and second look alike.
   */
  lemma FormatTimeReadsBack(h: nat, m: nat, s: nat, is24Hour: bool)
    requires h < 24 && m < 60 && s < 60
    ensures var r := FormatTime(h, m, s, is24Hour);
            && |r.hours| == 2 && |r.minutes| == 2 && |r.seconds| == 2
            && AllDigits(r.hours) && AllDigits(r.minutes) && AllDigits(r.seconds)
            && DigitsValue(r.minutes) == m && DigitsValue(r.seconds) == s
            && (is24Hour ==> DigitsValue(r.hours) == h)
            && (!is24Hour ==> HourOfDay(DigitsValue(r.hours), r.ampm) == h)
  {
    var d := DisplayHour(h, is24Hour);
    Pad2RoundTrip(d);
    Pad2RoundTrip(m);
    Pad2RoundTrip(s);
    if !is24Hour {
      TwelveHourRoundTrip(h);
    }
  }

  /** The 12-hour hour and the marker determine the hour of the day. */
  lemma TwelveHourRoundTrip(h: nat)
    requires h < 24
    ensures HourOfDay(DisplayHour(h, false), PeriodOf(h)) == h
  {
    var d := DisplayHour(h, false);
    if h < 12 {
      assert d % 12 == h;
    } else {
      assert d % 12 == h - 12;
    }
  }

  /** No two hours of the day share a 12-hour display and marker. */
  lemma TwelveHourDistinct(h1: nat, h2: nat)
    requires h1 < 24 && h2 < 24 && h1 != h2
    ensures DisplayHour(h1, false) != DisplayHour(h2, false) || PeriodOf(h1) != PeriodOf(h2)
  {
    TwelveHourRoundTrip(h1);
    TwelveHourRoundTrip(h2);
  }
}
