/**
 * Sunset (middleware/sunset.go): unless the configured time is the zero
 * time.Time, every response carries a Sunset header (RFC 8594) and a
 * Deprecation header holding that time as an HTTP-date, and one Link header
 * value per configured link, before `next` runs.
 *
 * A time.Time is an instant (seconds since the Unix epoch plus
 * nanoseconds) together with the UTC offset, in seconds, of its location at
 * that instant; `Format` writes the wall clock of that location.
 */
module Sunset {
  import opened Text
  import opened NetHttp
  import opened Calendar

  datatype Time = Time(unix: int, nanos: nat, offset: int)

  /** The zero time.Time is January 1, year 1, 00:00:00 UTC: 62135596800 seconds before the epoch. */
  const ZeroUnix := -62135596800

  /** time.Time.IsZero looks at the instant only, not at the location. */
  predicate IsZero(t: Time)
  {
    t.unix == ZeroUnix && t.nanos == 0
  }

  /** The same instant in UTC (time.Time.UTC). */
  function UTC(t: Time): (u: Time)
    ensures u.unix == t.unix && u.nanos == t.nanos && u.offset == 0
  {
    Time(t.unix, t.nanos, 0)
  }

  const HeaderSunset := "Sunset"
  const HeaderDeprecation := "Deprecation"
  const HeaderLink := "Link"

  const WeekdayNames: seq<string> := ["Sun", "Mon", "Tue", "Wed", "Thu", "Fri", "Sat"]
  const MonthNames: seq<string> := ["Jan", "Feb", "Mar", "Apr", "May", "Jun", "Jul", "Aug", "Sep", "Oct", "Nov", "Dec"]

  /** A calendar date and a time of day, as the layout's fields read them. */
  datatype Civil = Civil(year: int, month: int, day: int, weekday: int, hour: int, minute: int, second: int)

  /** The date, weekday and time of day of second `secs` of day `days` after 1970-01-01, a Thursday. */
  function CivilOf(days: int, secs: int): (c: Civil)
    requires 0 <= secs < 86400
    ensures ValidDate(c.year, c.month, c.day) && DaysFromCivil(c.year, c.month, c.day) == days
    ensures 0 <= c.weekday < 7 && c.weekday == (days + 4) % 7
    ensures 0 <= c.hour < 24 && 0 <= c.minute < 60 && 0 <= c.second < 60
    ensures c.hour * 3600 + c.minute * 60 + c.second == secs
  {
    var ymd := DateOfDay(days);
    var hms := TimeOfDay(secs);
    Civil(ymd.0, ymd.1, ymd.2, (days + 4) % 7, hms.0, hms.1, hms.2)
  }

  /**
   * The wall clock of `t` in its own location: a valid date and a time of
   * day that together count exactly the wall-clock seconds since the epoch,
   * and the weekday of that date.
   */
  function Clock(t: Time): (c: Civil)
    ensures ValidDate(c.year, c.month, c.day) && 0 <= c.weekday < 7
    ensures 0 <= c.hour < 24 && 0 <= c.minute < 60 && 0 <= c.second < 60
    ensures DaysFromCivil(c.year, c.month, c.day) * 86400 + c.hour * 3600 + c.minute * 60 + c.second == t.unix + t.offset
    ensures c.weekday == (DaysFromCivil(c.year, c.month, c.day) + 4) % 7
  {
    var wall := t.unix + t.offset;
    CivilOf(wall / 86400, wall % 86400)
  }

  /** The time package's zero-padded integer: a minus sign, then at least `width` digits. */
  function PadInt(x: int, width: nat): string
  {
    if x < 0 then "-" + Padded(-x, width) else Padded(x, width)
  }

  /** Fills in the layout "Mon, 02 Jan 2006 15:04:05 GMT" (http.TimeFormat). */
  function Layout(c: Civil): string
    requires 0 <= c.weekday < 7 && 0 <= c.month < 12
  {
    WeekdayNames[c.weekday] + ", " + PadInt(c.day, 2) + " " + MonthNames[c.month] + " " + PadInt(c.year, 4) + " "
    + PadInt(c.hour, 2) + ":" + PadInt(c.minute, 2) + ":" + PadInt(c.second, 2) + " GMT"
  }

  /** Whatever the fields, the layout opens with the weekday's name and a comma and ends with " GMT". */
  lemma LayoutEnds(c: Civil)
    requires 0 <= c.weekday < 7 && 0 <= c.month < 12
    ensures |Layout(c)| >= 9 && Layout(c)[..5] == WeekdayNames[c.weekday] + ", " && Layout(c)[|Layout(c)| - 4..] == " GMT"
  {
    var head := WeekdayNames[c.weekday] + ", ";
    var date := head + PadInt(c.day, 2) + " " + MonthNames[c.month] + " " + PadInt(c.year, 4) + " ";
    var time := date + PadInt(c.hour, 2) + ":" + PadInt(c.minute, 2) + ":" + PadInt(c.second, 2);
    PrefixOfAppend(head, date);
    PrefixOfAppend(date, time);
    PrefixOfAppend(time, Layout(c));
  }

  lemma PrefixOfAppend(p: string, s: string)
    requires p <= s
    ensures |p| <= |s| && s[..|p|] == p
  {
  }

  /**
   * `t.Format(http.TimeFormat)`: the wall clock of t's own location, followed
   * by a literal "GMT". It opens with the weekday's name and ends with " GMT"
   * whatever the location.
   */
  function HttpDate(t: Time): (d: string)
    ensures |d| >= 9 && d[..5] == WeekdayNames[Clock(t).weekday] + ", " && d[|d| - 4..] == " GMT"
  {
    var c := Clock(t);
    LayoutEnds(c);
    Layout(c)
  }

  /** Header.Add of every value in order: the key is present afterwards exactly when it was or a value was added. */
  function AddAll(h: Header, key: string, values: seq<string>): (r: Header)
    ensures r.Keys == if values == [] then h.Keys else h.Keys + {key}
    decreases |values|
  {
    if values == [] then h else AddValue(AddAll(h, key, values[..|values| - 1]), key, values[|values| - 1])
  }

  /**
   * The response header once the middleware has run, starting from `h`. The
   * zero time leaves it as it was; otherwise the fields afterwards are the old
   * ones plus Sunset and Deprecation, and Link when there are links.
   */
  function SunsetHeaders(h: Header, sunsetAt: Time, links: seq<string>): (r: Header)
    ensures IsZero(sunsetAt) ==> r == h
    ensures !IsZero(sunsetAt) ==>
              r.Keys == h.Keys + {HeaderSunset, HeaderDeprecation} + (if links == [] then {} else {HeaderLink})
  {
    if IsZero(sunsetAt) then h
    else
      var date := HttpDate(sunsetAt);
      AddAll(SetValue(SetValue(h, HeaderSunset, date), HeaderDeprecation, date), HeaderLink, links)
  }

  /** The handler Sunset(sunsetAt, links...) wraps around `next`: it sets the headers, then calls `next`. */
  method Serve(sunsetAt: Time, links: seq<string>, w: Sink)
    modifies w`header
    ensures w.header == SunsetHeaders(old(w.header), sunsetAt, links)
  {
    if !IsZero(sunsetAt) {
      var date := HttpDate(sunsetAt);
      w.SetHeader(HeaderSunset, date);
      w.SetHeader(HeaderDeprecation, date);
      AddLinks(links, w);
    }
  }

  /** The loop over `links`: one Header.Add per link, in order. */
  method AddLinks(links: seq<string>, w: Sink)
    modifies w`header
    ensures w.header == AddAll(old(w.header), HeaderLink, links)
  {
    ghost var base := w.header;
    var i := 0;
    while i < |links|
      invariant 0 <= i <= |links|
      invariant w.header == AddAll(base, HeaderLink, links[..i])
    {
      assert links[..i + 1][..i] == links[..i];
      w.AddHeader(HeaderLink, links[i]);
      i := i + 1;
    }
    assert links[..i] == links;
  }

  /** Adding values under one key appends them, in order. */
  lemma {:induction false} AddAllAppends(h: Header, key: string, values: seq<string>)
    ensures Values(AddAll(h, key, values), key) == Values(h, key) + values
    decreases |values|
  {
    if values != [] {
      var init, last := values[..|values| - 1], values[|values| - 1];
      AddAllAppends(h, key, init);
      assert Values(AddAll(h, key, values), key) == Values(AddAll(h, key, init), key) + [last];
      assert values == init + [last];
    }
  }

  /** Adding values under one key leaves every other key as it was. */
  lemma {:induction false} AddAllKeepsOthers(h: Header, key: string, values: seq<string>, k: string)
    requires k != key
    ensures k in AddAll(h, key, values) <==> k in h
    ensures k in h ==> AddAll(h, key, values)[k] == h[k]
    decreases |values|
  {
    if values != [] {
      AddAllKeepsOthers(h, key, values[..|values| - 1], k);
    }
  }

  /**
   * With a non-zero time, Sunset and Deprecation hold exactly one value each,
   * the same HTTP-date; Link gains the links, in order, after any values it
   * had; every other header is untouched.
   */
  lemma HeadersSet(h: Header, sunsetAt: Time, links: seq<string>)
    requires !IsZero(sunsetAt)
    ensures Values(SunsetHeaders(h, sunsetAt, links), HeaderSunset) == [HttpDate(sunsetAt)]
    ensures Values(SunsetHeaders(h, sunsetAt, links), HeaderDeprecation) == [HttpDate(sunsetAt)]
    ensures Values(SunsetHeaders(h, sunsetAt, links), HeaderLink) == Values(h, HeaderLink) + links
    ensures forall k | k != HeaderSunset && k != HeaderDeprecation && k != HeaderLink ::
              (k in SunsetHeaders(h, sunsetAt, links) <==> k in h) && (k in h ==> SunsetHeaders(h, sunsetAt, links)[k] == h[k])
  {
    var date := HttpDate(sunsetAt);
    var base := SetValue(SetValue(h, HeaderSunset, date), HeaderDeprecation, date);
    AddAllAppends(base, HeaderLink, links);
    forall k | k != HeaderSunset && k != HeaderDeprecation && k != HeaderLink
      ensures (k in SunsetHeaders(h, sunsetAt, links) <==> k in h) && (k in h ==> SunsetHeaders(h, sunsetAt, links)[k] == h[k])
    {
      AddAllKeepsOthers(base, HeaderLink, links, k);
    }
    AddAllKeepsOthers(base, HeaderLink, links, HeaderSunset);
    AddAllKeepsOthers(base, HeaderLink, links, HeaderDeprecation);
  }

  /** The zero time switches the middleware off: the header is left exactly as it was. */
  lemma ZeroTimeNoHeaders(h: Header, links: seq<string>)
    ensures SunsetHeaders(h, Time(ZeroUnix, 0, 0), links) == h
    ensures forall offset :: SunsetHeaders(h, Time(ZeroUnix, 0, offset), links) == h
  {
  }

  // ---------------------------------------------------------------------------
  // Calendar arithmetic on two instants
  // ---------------------------------------------------------------------------

  /** A whole number of days and the seconds into the last one are unique. */
  lemma DaySplitUnique(days: int, secs: int, days2: int, secs2: int)
    requires 0 <= secs < 86400 && 0 <= secs2 < 86400
    requires days * 86400 + secs == days2 * 86400 + secs2
    ensures days == days2 && secs == secs2
  {
  }

  /** Hours, minutes and seconds within their ranges are unique for a second of the day. */
  lemma HmsUnique(hour: int, minute: int, second: int, hour2: int, minute2: int, second2: int)
    requires 0 <= hour && 0 <= minute < 60 && 0 <= second < 60
    requires 0 <= hour2 && 0 <= minute2 < 60 && 0 <= second2 < 60
    requires hour * 3600 + minute * 60 + second == hour2 * 3600 + minute2 * 60 + second2
    ensures hour == hour2 && minute == minute2 && second == second2
  {
  }

  /** Clock(t) names day `days` after the epoch and second `secs` of that day whenever they add up to t's wall clock. */
  lemma ClockSplit(t: Time, days: int, secs: int)
    requires t.unix + t.offset == days * 86400 + secs && 0 <= secs < 86400
    ensures DaysFromCivil(Clock(t).year, Clock(t).month, Clock(t).day) == days
    ensures Clock(t).hour * 3600 + Clock(t).minute * 60 + Clock(t).second == secs
    ensures Clock(t).weekday == (days + 4) % 7
  {
    var c := Clock(t);
    DaySplitUnique(DaysFromCivil(c.year, c.month, c.day), c.hour * 3600 + c.minute * 60 + c.second, days, secs);
  }

  /** 1994-11-06 (month index 10) is day 9075 after the epoch. */
  lemma ExampleDays()
    ensures ValidDate(1994, 10, 6) && DaysFromCivil(1994, 10, 6) == 9075
  {
    assert 1994 / 400 == 4;
    assert StartOfYear(394) == 143905;
  }

  /** 784111777 is Sun, 06 Nov 1994 08:49:37 UTC, the IMF-fixdate example of section 5.6.7 of RFC 9110. */
  lemma ExampleClockUTC()
    ensures Clock(Time(784111777, 0, 0)) == Civil(1994, 10, 6, 0, 8, 49, 37)
  {
    var c := Clock(Time(784111777, 0, 0));
    ClockSplit(Time(784111777, 0, 0), 9075, 31777);
    ExampleDays();
    CivilInjective(c.year, c.month, c.day, 1994, 10, 6);
    HmsUnique(c.hour, c.minute, c.second, 8, 49, 37);
    assert (9075 + 4) % 7 == 0;
  }

  /** The same instant seen from a location one hour east of UTC. */
  lemma ExampleClockPlusOne()
    ensures Clock(Time(784111777, 0, 3600)) == Civil(1994, 10, 6, 0, 9, 49, 37)
  {
    var c := Clock(Time(784111777, 0, 3600));
    ClockSplit(Time(784111777, 0, 3600), 9075, 35377);
    ExampleDays();
    CivilInjective(c.year, c.month, c.day, 1994, 10, 6);
    HmsUnique(c.hour, c.minute, c.second, 9, 49, 37);
    assert (9075 + 4) % 7 == 0;
  }

  lemma PadTwo(n: nat)
    requires 10 <= n < 100
    ensures PadInt(n, 2) == [DigitChar(n / 10), DigitChar(n % 10)]
  {
    assert NatDigits(n / 10) == [DigitChar(n / 10)];
  }

  lemma PadOne(n: nat)
    requires n < 10
    ensures PadInt(n, 2) == ['0', DigitChar(n)]
  {
  }

  lemma PadYear()
    ensures PadInt(1994, 4) == "1994"
  {
    assert NatDigits(1) == "1";
    assert NatDigits(19) == "19";
    assert NatDigits(199) == "199";
  }

  /** The date part of the example: "Sun, 06 Nov 1994 ". */
  lemma ExampleDay()
    ensures WeekdayNames[0] + ", " + PadInt(6, 2) + " " + MonthNames[10] + " " + PadInt(1994, 4) + " " == "Sun, 06 Nov 1994 "
  {
    PadOne(6);
    PadYear();
  }

  /** The time part of the example for an hour from 0 to 9: "0h:49:37 GMT". */
  lemma ExampleTimeOfDay(hour: nat)
    requires hour < 10
    ensures PadInt(hour, 2) + ":" + PadInt(49, 2) + ":" + PadInt(37, 2) + " GMT" == "0" + [DigitChar(hour)] + ":49:37 GMT"
  {
    PadOne(hour);
    PadTwo(49);
    PadTwo(37);
  }

  /** The layout with the example's date fields filled in, for any hour from 0 to 9. */
  lemma ExampleLayout(hour: nat)
    requires hour < 10
    ensures Layout(Civil(1994, 10, 6, 0, hour, 49, 37)) == "Sun, 06 Nov 1994 0" + [DigitChar(hour)] + ":49:37 GMT"
  {
    ExampleDay();
    ExampleTimeOfDay(hour);
    var d := WeekdayNames[0] + ", " + PadInt(6, 2) + " " + MonthNames[10] + " " + PadInt(1994, 4) + " ";
    var c := PadInt(hour, 2) + ":" + PadInt(49, 2) + ":" + PadInt(37, 2) + " GMT";
    assert Layout(Civil(1994, 10, 6, 0, hour, 49, 37)) == d + c;
  }

  /** The UTC instant is written as section 5.6.7 of RFC 9110 shows it. */
  lemma ExampleHttpDate()
    ensures HttpDate(Time(784111777, 0, 0)) == "Sun, 06 Nov 1994 08:49:37 GMT"
  {
    ExampleClockUTC();
    ExampleLayout(8);
  }

  /** The same instant in a location one hour east of UTC: the wall clock reads 09:49:37. */
  lemma ExampleHttpDatePlusOne()
    ensures HttpDate(Time(784111777, 0, 3600)) == "Sun, 06 Nov 1994 09:49:37 GMT"
  {
    ExampleClockPlusOne();
    ExampleLayout(9);
  }

  // ---------------------------------------------------------------------------
  // The time written is the location's wall clock labelled GMT
  // ---------------------------------------------------------------------------

  /**
   * As written, one instant produces different Sunset headers depending on
   * the location it was constructed in: a sunset time of 09:49:37 in UTC+1
   * is announced as 09:49:37 GMT, an hour after the actual sunset.
   */
  lemma NonUTCSunsetMisdated(h: Header, links: seq<string>)
    ensures Values(SunsetHeaders(h, Time(784111777, 0, 0), links), HeaderSunset) == ["Sun, 06 Nov 1994 08:49:37 GMT"]
    ensures Values(SunsetHeaders(h, Time(784111777, 0, 3600), links), HeaderSunset) == ["Sun, 06 Nov 1994 09:49:37 GMT"]
  {
    ExampleHttpDate();
    ExampleHttpDatePlusOne();
    HeadersSet(h, Time(784111777, 0, 0), links);
    HeadersSet(h, Time(784111777, 0, 3600), links);
  }

  /** The headers with the time converted to UTC before formatting (`sunsetAt.UTC().Format(http.TimeFormat)`). */
  function SunsetHeadersUTC(h: Header, sunsetAt: Time, links: seq<string>): (r: Header)
    ensures sunsetAt.offset == 0 ==> r == SunsetHeaders(h, sunsetAt, links)
  {
    SunsetHeaders(h, UTC(sunsetAt), links)
  }

  /** Converting first makes the headers a function of the instant alone. */
  lemma UTCHeadersFollowInstant(h: Header, a: Time, b: Time, links: seq<string>)
    requires a.unix == b.unix && a.nanos == b.nanos
    ensures SunsetHeadersUTC(h, a, links) == SunsetHeadersUTC(h, b, links)
  {
    assert UTC(a) == UTC(b);
  }

  /** With the conversion the example instant is announced as 08:49:37 GMT from either location. */
  lemma UTCSunsetDated(h: Header, links: seq<string>)
    ensures Values(SunsetHeadersUTC(h, Time(784111777, 0, 3600), links), HeaderSunset) == ["Sun, 06 Nov 1994 08:49:37 GMT"]
  {
    ExampleHttpDate();
    HeadersSet(h, Time(784111777, 0, 0), links);
  }
}
