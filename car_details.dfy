/** The booking logic of the vehicle details screen (utils/car-details.tsx):
    times of day written "HH:MM", the 15-minute pickup and return options,
    the time-window check, the months whose bookings are fetched, the days a
    booking blocks, the overlap test, the rental length and price, the order
    in which "Book now" validates, the error-message table, the date display,
    and the date picker with its calendar grid. */
module CarDetails {
  import opened Common
  import opened Calendar

  // =====================================================================
  // Times of day

  /** `{ hours, minutes }` as produced by `parseTime`; values are not range
      checked, as in the source. */
  datatype ClockTime = ClockTime(hours: nat, minutes: nat)

  /** `Number(part)`: the empty string is 0 and a run of decimal digits is its
      value; any other text stands for NaN. */
  function NumberOf(part: string): (r: Option<nat>)
    ensures AllDigits(part) ==> r == Some(DigitsValue(part))
    ensures part == "" ==> r == Some(0)
    ensures part != "" && !AllDigits(part) ==> r == None
  {
    if part == "" then Some(0)
    else if AllDigits(part) then Some(DigitsValue(part))
    else None
  }

  /** The two fields `parseTime` destructures, each a number or `None`.
      `None` stands for NaN and also for the `undefined` minutes of a text
      without ':' (the split has one element); every comparison the source
      makes with either is false. */
  datatype TimeParts = TimeParts(hours: Option<nat>, minutes: Option<nat>)

  function Parts(s: string): TimeParts {
    var parts := Split(s, ':');
    TimeParts(NumberOf(parts[0]), if |parts| < 2 then None else NumberOf(parts[1]))
  }

  /** A time both of whose fields are numbers. */
  function ParseTime(s: string): Option<ClockTime> {
    var p := Parts(s);
    if p.hours.Some? && p.minutes.Some? then Some(ClockTime(p.hours.value, p.minutes.value)) else None
  }

  /** Text without a ':' has no minutes part and never parses. */
  lemma ParseNeedsColon(s: string)
    requires ':' !in s
    ensures Parts(s).minutes == None && ParseTime(s) == None
  {
    SplitNoSep(s, ':');
  }

  /** `${HH}:${MM}` with both fields zero-padded. */
  function FormatClock(t: ClockTime): string {
    Pad2(t.hours) + ":" + Pad2(t.minutes)
  }

  function InMinutes(t: ClockTime): nat {
    t.hours * 60 + t.minutes
  }

  lemma Pad2NoColon(n: nat)
    ensures ':' !in Pad2(n) && Pad2(n) != ""
  {
    Pad2RoundTrip(n);
  }

  /** Formatting a time and parsing it back gives the same time. */
  lemma ParseFormat(t: ClockTime)
    ensures ParseTime(FormatClock(t)) == Some(t)
  {
    var a, b := Pad2(t.hours), Pad2(t.minutes);
    Pad2NoColon(t.hours);
    Pad2NoColon(t.minutes);
    Pad2RoundTrip(t.hours);
    Pad2RoundTrip(t.minutes);
    SplitAt(a, ':', b);
    SplitNoSep(b, ':');
    assert FormatClock(t) == a + [':'] + b;
    assert Split(FormatClock(t), ':') == [a, b];
  }

  /** The same holds with a seconds part appended, as the time picker does. */
  lemma ParseFormatWithSeconds(t: ClockTime)
    ensures ParseTime(FormatClock(t) + ":00") == Some(t)
  {
    var a, b := Pad2(t.hours), Pad2(t.minutes);
    Pad2NoColon(t.hours);
    Pad2NoColon(t.minutes);
    Pad2RoundTrip(t.hours);
    Pad2RoundTrip(t.minutes);
    SplitAt(a, ':', b + ":00");
    SplitAt(b, ':', "00");
    assert FormatClock(t) + ":00" == a + [':'] + (b + ":00");
    assert b + ":00" == b + [':'] + "00";
  }

  /** Different times never print the same. */
  lemma FormatClockInjective(t: ClockTime, u: ClockTime)
    requires FormatClock(t) == FormatClock(u)
    ensures t == u
  {
    ParseFormat(t);
    ParseFormat(u);
  }

  // =====================================================================
  // validateTime

  /** `validateTime(time, a, b)`: `a <= time <= b` in minutes with both ends
      inclusive; a comparison with NaN is false, so any unparsable argument
      rejects. */
  function ValidateTime(time: string, startWindow: string, endWindow: string): (ok: bool)
    ensures ok <==>
              && ParseTime(time).Some? && ParseTime(startWindow).Some? && ParseTime(endWindow).Some?
              && InMinutes(ParseTime(startWindow).value) <= InMinutes(ParseTime(time).value)
              && InMinutes(ParseTime(time).value) <= InMinutes(ParseTime(endWindow).value)
  {
    match (ParseTime(time), ParseTime(startWindow), ParseTime(endWindow))
    case (Some(t), Some(a), Some(b)) => InMinutes(a) <= InMinutes(t) <= InMinutes(b)
    case _ => false
  }

  // =====================================================================
  // generateTimeOptions

  /** The end of the loop: the end's hours, and its minutes (`None` when
      NaN or undefined). */
  datatype Limit = Limit(hours: nat, minutes: Option<nat>)

  /** The loop condition `h < end.h || (h === end.h && m <= end.m)`; with
      NaN or undefined end minutes only the first half can hold. */
  predicate UpTo(c: ClockTime, lim: Limit) {
    c.hours < lim.hours || (c.hours == lim.hours && lim.minutes.Some? && c.minutes <= lim.minutes.value)
  }

  predicate NotAfter(a: ClockTime, b: ClockTime) {
    a.hours < b.hours || (a.hours == b.hours && a.minutes <= b.minutes)
  }

  predicate Earlier(a: ClockTime, b: ClockTime) {
    a.hours < b.hours || (a.hours == b.hours && a.minutes < b.minutes)
  }

  /** One turn of the loop: 15 minutes on, and at 60 or more the minutes
      restart at 0 in the next hour. */
  function Step(t: ClockTime): (u: ClockTime)
    ensures Earlier(t, u) && u.minutes < 60
  {
    if t.minutes + 15 >= 60 then ClockTime(t.hours + 1, 0) else ClockTime(t.hours, t.minutes + 15)
  }

  /** The times the loop visits from `cur` on. */
  function Slots(cur: ClockTime, lim: Limit): seq<ClockTime>
    decreases lim.hours + 1 - cur.hours, if cur.minutes < 60 then 60 - cur.minutes else 0
  {
    if UpTo(cur, lim) then [cur] + Slots(Step(cur), lim) else []
  }

  function FormatAll(ts: seq<ClockTime>): (r: seq<string>)
    ensures |r| == |ts| && forall i :: 0 <= i < |ts| ==> r[i] == FormatClock(ts[i])
  {
    seq(|ts|, i requires 0 <= i < |ts| => FormatClock(ts[i]))
  }

  /** The inputs on which `generateTimeOptions` returns no value: the start's
      hours are below the end's, so the loop test passes, and its minutes are
      not a number. Undefined minutes (no ':') make the first turn throw at
      `currentMinutes.toString()`; NaN minutes (such as '09:ab') stay NaN, so
      the hour never advances and the loop never ends. */
  predicate Diverges(startStr: string, endStr: string) {
    var s, e := Parts(startStr), Parts(endStr);
    s.hours.Some? && e.hours.Some? && s.minutes.None? && s.hours.value < e.hours.value
  }

  /** The value `generateTimeOptions` returns. NaN start hours or end hours
      fail the loop test at once, and so do NaN or undefined start minutes on
      the inputs that do not diverge. */
  function TimeOptions(startStr: string, endStr: string): seq<string> {
    var s, e := Parts(startStr), Parts(endStr);
    if s.hours.None? || s.minutes.None? || e.hours.None? then []
    else FormatAll(Slots(ClockTime(s.hours.value, s.minutes.value), Limit(e.hours.value, e.minutes)))
  }

  /** The limit of a fully parsed end time. */
  function LimitOf(e: ClockTime): Limit {
    Limit(e.hours, Some(e.minutes))
  }

  /** The start as given, then 15-minute steps, never past the limit,
      strictly increasing; empty exactly when the start is past the limit. */
  lemma {:induction false} SlotsShape(cur: ClockTime, lim: Limit)
    ensures var r := Slots(cur, lim);
            && (r == [] <==> !UpTo(cur, lim))
            && (r != [] ==> r[0] == cur)
            && (forall i :: 0 <= i < |r| ==> UpTo(r[i], lim) && NotAfter(cur, r[i]))
            && (forall i :: 0 < i < |r| ==> r[i] == Step(r[i - 1]) && r[i].minutes < 60)
            && (forall i, j :: 0 <= i < j < |r| ==> Earlier(r[i], r[j]))
    decreases lim.hours + 1 - cur.hours, if cur.minutes < 60 then 60 - cur.minutes else 0
  {
    if UpTo(cur, lim) {
      var next := Step(cur);
      SlotsShape(next, lim);
      var r, r' := Slots(cur, lim), Slots(next, lim);
      assert r == [cur] + r';
      assert forall i :: 0 < i < |r| ==> r[i] == r'[i - 1];
      if r' != [] {
        assert r[1] == next;
      }
    }
  }

  /** One turn of the loop in terms of the printed options. */
  lemma SlotsUnfold(cur: ClockTime, lim: Limit)
    ensures UpTo(cur, lim) ==> FormatAll(Slots(cur, lim)) == [FormatClock(cur)] + FormatAll(Slots(Step(cur), lim))
    ensures !UpTo(cur, lim) ==> FormatAll(Slots(cur, lim)) == []
  {
    if UpTo(cur, lim) {
      assert Slots(cur, lim) == [cur] + Slots(Step(cur), lim);
    }
  }

  /** One turn of the loop moves one slot from the pending to the done part. */
  lemma LoopTurn(options: seq<string>, cur: ClockTime, lim: Limit)
    requires UpTo(cur, lim)
    ensures options + FormatAll(Slots(cur, lim)) == (options + [FormatClock(cur)]) + FormatAll(Slots(Step(cur), lim))
  {
    SlotsUnfold(cur, lim);
  }

  method GenerateTimeOptions(startStr: string, endStr: string) returns (options: seq<string>)
    requires !Diverges(startStr, endStr)
    ensures options == TimeOptions(startStr, endStr)
  {
    options := [];
    var start, end := Parts(startStr), Parts(endStr);
    if start.hours.None? || end.hours.None? || start.minutes.None? {
      return;
    }
    var endHours: int, endMinutes := end.hours.value, end.minutes;
    var currentHours: int, currentMinutes: int := start.hours.value, start.minutes.value;
    ghost var lim := Limit(end.hours.value, end.minutes);
    ghost var cur := ClockTime(start.hours.value, start.minutes.value);
    ghost var all := FormatAll(Slots(cur, lim));
    while currentHours < endHours || (currentHours == endHours && endMinutes.Some? && currentMinutes <= endMinutes.value)
      invariant currentHours == cur.hours && currentMinutes == cur.minutes
      invariant all == options + FormatAll(Slots(cur, lim))
      decreases endHours + 1 - currentHours, if currentMinutes < 60 then 60 - currentMinutes else 0
    {
      assert UpTo(cur, lim);
      LoopTurn(options, cur, lim);
      options := options + [Pad2(currentHours) + ":" + Pad2(currentMinutes)];
      currentMinutes := currentMinutes + 15;
      if currentMinutes >= 60 {
        currentMinutes := 0;
        currentHours := currentHours + 1;
      }
      cur := Step(cur);
    }
    assert !UpTo(cur, lim);
    SlotsUnfold(cur, lim);
  }

  /** On fully parsed bounds the options are the slots from the start to the
      end. */
  lemma TimeOptionsParsed(startStr: string, endStr: string)
    requires ParseTime(startStr).Some? && ParseTime(endStr).Some?
    ensures TimeOptions(startStr, endStr) == FormatAll(Slots(ParseTime(startStr).value, LimitOf(ParseTime(endStr).value)))
  {
  }

  /** The options read back as strictly increasing times, so no two options
      are equal; when there are any, the first is the start. */
  lemma OptionsIncreasing(startStr: string, endStr: string)
    ensures var o := TimeOptions(startStr, endStr);
            && (forall i :: 0 <= i < |o| ==> ParseTime(o[i]).Some?)
            && (forall i, j :: 0 <= i < j < |o| ==> Earlier(ParseTime(o[i]).value, ParseTime(o[j]).value))
            && (forall i, j :: 0 <= i < j < |o| ==> o[i] != o[j])
            && (o != [] ==> ParseTime(o[0]) == Some(ClockTime(Parts(startStr).hours.value, Parts(startStr).minutes.value)))
  {
    var o := TimeOptions(startStr, endStr);
    var s, e := Parts(startStr), Parts(endStr);
    if !(s.hours.None? || s.minutes.None? || e.hours.None?) {
      var r := Slots(ClockTime(s.hours.value, s.minutes.value), Limit(e.hours.value, e.minutes));
      SlotsShape(ClockTime(s.hours.value, s.minutes.value), Limit(e.hours.value, e.minutes));
      forall i | 0 <= i < |o|
        ensures ParseTime(o[i]) == Some(r[i])
      {
        ParseFormat(r[i]);
      }
      forall i, j | 0 <= i < j < |o|
        ensures o[i] != o[j]
      {
        assert Earlier(r[i], r[j]);
      }
    }
  }

  /** With both bounds parsed, the options are empty exactly when the start
      is after the end, and every option lies between the two. */
  lemma OptionsWithinWindow(startStr: string, endStr: string)
    requires ParseTime(startStr).Some? && ParseTime(endStr).Some?
    ensures var o, a, b := TimeOptions(startStr, endStr), ParseTime(startStr).value, ParseTime(endStr).value;
            && (o == [] <==> !NotAfter(a, b))
            && (forall i :: 0 <= i < |o| ==>
                  ParseTime(o[i]).Some? && NotAfter(a, ParseTime(o[i]).value) && NotAfter(ParseTime(o[i]).value, b))
  {
    var a, b := ParseTime(startStr).value, ParseTime(endStr).value;
    TimeOptionsParsed(startStr, endStr);
    SlotsShape(a, LimitOf(b));
    var r := Slots(a, LimitOf(b));
    forall i | 0 <= i < |r|
      ensures ParseTime(FormatClock(r[i])) == Some(r[i])
    {
      ParseFormat(r[i]);
    }
  }

  /** Every option offered for a window passes `validateTime` against the
      same window, provided the window's own minutes are below 60. */
  lemma OptionsPassValidation(startStr: string, endStr: string)
    requires ParseTime(startStr).Some? && ParseTime(startStr).value.minutes < 60
    requires ParseTime(endStr).Some? && ParseTime(endStr).value.minutes < 60
    ensures forall o :: o in TimeOptions(startStr, endStr) ==> ValidateTime(o, startStr, endStr)
  {
    var s, e := ParseTime(startStr).value, ParseTime(endStr).value;
    TimeOptionsParsed(startStr, endStr);
    var r := Slots(s, LimitOf(e));
    SlotsShape(s, LimitOf(e));
    var opts := TimeOptions(startStr, endStr);
    forall o | o in opts
      ensures ValidateTime(o, startStr, endStr)
    {
      var i :| 0 <= i < |opts| && opts[i] == o;
      ParseFormat(r[i]);
      assert r[i].minutes < 60;
      assert NotAfter(s, r[i]) && UpTo(r[i], LimitOf(e));
    }
  }

  // =====================================================================
  // getMonthsToCheck

  /** `{ month, year }` of month index `k`, with the month one-based. */
  function MonthPair(k: int): (p: (int, int))
    ensures 1 <= p.0 <= 12
  {
    (k % 12 + 1, k / 12)
  }

  /** A pair determines its month index. */
  lemma MonthPairIndex(k: int)
    ensures MonthPair(k).1 * 12 + MonthPair(k).0 == k + 1
  {
  }

  lemma MonthPairInjective(j: int, k: int)
    requires MonthPair(j) == MonthPair(k)
    ensures j == k
  {
    MonthPairIndex(j);
    MonthPairIndex(k);
  }

  /** Every month from that of `s` through that of `e`, once each and in
      order; nothing when `s` is after `e`. */
  function MonthsToCheck(s: Moment, e: Moment): (r: seq<(int, int)>)
  {
    if Stamp(s) > Stamp(e) then []
    else
      MonthIndexMono(s, e);
      MonthRange(MonthIndex(s.year, s.month), MonthIndex(e.year, e.month))
  }

  function MonthRange(k0: int, k1: int): (r: seq<(int, int)>)
    requires k0 <= k1
    ensures |r| == k1 - k0 + 1 && forall i :: 0 <= i < |r| ==> r[i] == MonthPair(k0 + i)
  {
    seq(k1 - k0 + 1, i requires 0 <= i <= k1 - k0 => MonthPair(k0 + i))
  }

  /** The pairs of a range of months are chronological, hence distinct. */
  lemma MonthRangeOrdered(k0: int, k1: int)
    requires k0 <= k1
    ensures var r := MonthRange(k0, k1);
            && (forall i, j :: 0 <= i < j < |r| ==> r[i].1 * 12 + r[i].0 < r[j].1 * 12 + r[j].0)
            && (forall i, j :: 0 <= i < j < |r| ==> r[i] != r[j])
  {
    var r := MonthRange(k0, k1);
    forall i | 0 <= i < |r|
      ensures r[i].1 * 12 + r[i].0 == k0 + i + 1
    {
      MonthPairIndex(k0 + i);
    }
  }

  /** Empty exactly when the start is after the end; otherwise it opens with
      the start's month and closes with the end's, each pair (one-based month,
      year) is chronologically after the previous one, and none repeats. */
  lemma MonthsToCheckFacts(s: Moment, e: Moment)
    ensures var r := MonthsToCheck(s, e);
            && (r == [] <==> Stamp(s) > Stamp(e))
            && (r != [] ==> r[0] == (s.month + 1, s.year) && r[|r| - 1] == (e.month + 1, e.year))
            && (forall i :: 0 <= i < |r| ==> 1 <= r[i].0 <= 12)
            && (forall i, j :: 0 <= i < j < |r| ==> r[i].1 * 12 + r[i].0 < r[j].1 * 12 + r[j].0)
            && (forall i, j :: 0 <= i < j < |r| ==> r[i] != r[j])
  {
    if Stamp(s) <= Stamp(e) {
      MonthIndexSplit(s.year, s.month);
      MonthIndexSplit(e.year, e.month);
      MonthIndexMono(s, e);
      MonthRangeOrdered(MonthIndex(s.year, s.month), MonthIndex(e.year, e.month));
    }
  }

  /** Every month between the two dates is asked for. */
  lemma MonthsToCheckComplete(s: Moment, e: Moment, t: Moment)
    requires Stamp(s) <= Stamp(t) <= Stamp(e)
    ensures (t.month + 1, t.year) in MonthsToCheck(s, e)
  {
    MonthIndexMono(s, t);
    MonthIndexMono(t, e);
    MonthRangeContains(MonthIndex(s.year, s.month), MonthIndex(e.year, e.month), MonthIndex(t.year, t.month));
    EntryIsPair(t);
  }

  lemma MonthRangeContains(k0: int, k1: int, k: int)
    requires k0 <= k <= k1
    ensures MonthPair(k) in MonthRange(k0, k1)
  {
    assert MonthRange(k0, k1)[k - k0] == MonthPair(k);
  }

  /** The booked-dates prefetch asks from the current month through January of
      next year, because midnight on 1 January still passes `current <= end`. */
  lemma PrefetchMonths(now: Moment)
    ensures var r := MonthsToCheck(now, DateTime(now.year + 1, 0, 1, 0, 0));
            |r| == 13 - now.month && r[0] == (now.month + 1, now.year) && r[|r| - 1] == (1, now.year + 1)
  {
    var end: Moment := DateTime(now.year + 1, 0, 1, 0, 0);
    YearLength(now.year);
    assert DayOf(now) < DaysBeforeYear(now.year) + DaysBeforeMonth(now.year, 12);
    assert Stamp(now) <= Stamp(end);
    MonthsToCheckFacts(now, end);
  }

  /** The first instant of the month after that of `t`:
      `new Date(year, month + 1, 1)`. */
  function NextMonthStart(t: Moment): (u: Moment)
    ensures MonthIndex(u.year, u.month) == MonthIndex(t.year, t.month) + 1
    ensures u.day == 1 && u.hour == 0 && u.minute == 0
  {
    if t.month == 11 then DateTime(t.year + 1, 0, 1, 0, 0) else DateTime(t.year, t.month + 1, 1, 0, 0)
  }

  /** The state in which the loop stops is the answer: with nothing
      collected the start was already past the end; otherwise the first
      month start past `e` is in the month after that of `e`, so exactly the
      months from that of `s` through that of `e` were collected. */
  lemma LoopExit(s: Moment, e: Moment, current: Moment, months: seq<(int, int)>)
    requires Stamp(current) > Stamp(e)
    requires MonthIndex(current.year, current.month) == MonthIndex(s.year, s.month) + |months|
    requires |months| == 0 ==> current == s
    requires |months| > 0 ==> current.day == 1 && current.hour == 0 && current.minute == 0
    requires |months| > 0 ==> Stamp(s) <= Stamp(e) && MonthIndex(s.year, s.month) + |months| - 1 <= MonthIndex(e.year, e.month)
    requires months == MonthsFrom(MonthIndex(s.year, s.month), |months|)
    ensures months == MonthsToCheck(s, e)
  {
    var k0, K := MonthIndex(s.year, s.month), MonthIndex(e.year, e.month);
    if |months| > 0 {
      var k := MonthIndex(current.year, current.month);
      MidnightFirstStamp(current);
      MonthStartBefore(k, e);
      assert |months| == K - k0 + 1;
      MonthsFromRange(k0, K);
    }
  }

  /** Midnight on the first of a month is that month's start. */
  lemma MidnightFirstStamp(t: Moment)
    requires t.day == 1 && t.hour == 0 && t.minute == 0
    ensures Stamp(t) == MonthStart(MonthIndex(t.year, t.month)) * 1440
  {
    MonthIndexSplit(t.year, t.month);
  }

  /** Collecting from `k0` through `k1` gives the month range. */
  lemma MonthsFromRange(k0: int, k1: int)
    requires k0 <= k1
    ensures MonthsFrom(k0, k1 - k0 + 1) == MonthRange(k0, k1)
  {
    MonthsFromElems(k0, k1 - k0 + 1);
  }

  method GetMonthsToCheck(s: Moment, e: Moment) returns (months: seq<(int, int)>)
    ensures months == MonthsToCheck(s, e)
  {
    var current;
    months, current := CollectMonths(s, e);
    LoopExit(s, e, current, months);
  }

  /** The pair the loop records for the month of `t`. */
  lemma EntryIsPair(t: Moment)
    ensures (t.month + 1, t.year) == MonthPair(MonthIndex(t.year, t.month))
  {
    MonthIndexSplit(t.year, t.month);
  }

  /** The pairs of the `n` months from month `k0` on, as the loop collects
      them. */
  function MonthsFrom(k0: int, n: nat): (r: seq<(int, int)>)
    ensures |r| == n
    decreases n
  {
    if n == 0 then [] else MonthsFrom(k0, n - 1) + [MonthPair(k0 + n - 1)]
  }

  lemma MonthsFromStep(k0: int, n: nat)
    ensures MonthsFrom(k0, n + 1) == MonthsFrom(k0, n) + [MonthPair(k0 + n)]
  {
  }

  lemma {:induction false} MonthsFromElems(k0: int, n: nat)
    ensures forall i :: 0 <= i < n ==> MonthsFrom(k0, n)[i] == MonthPair(k0 + i)
    decreases n
  {
    if n > 0 {
      MonthsFromElems(k0, n - 1);
    }
  }

  /** The next month's pair is not among those already collected, so the
      `includes` test in the loop always passes. */
  lemma MonthsFromFresh(k0: int, n: nat)
    ensures MonthPair(k0 + n) !in MonthsFrom(k0, n)
  {
    MonthsFromElems(k0, n);
    MonthPairIndex(k0 + n);
    forall i | 0 <= i < n
      ensures MonthsFrom(k0, n)[i] != MonthPair(k0 + n)
    {
      MonthPairIndex(k0 + i);
    }
  }

  /** The `while (current <= endDate)` loop, adding each month once and
      jumping to the first of the next month; it returns the list and the
      instant at which it stopped. */
  method CollectMonths(s: Moment, e: Moment) returns (months: seq<(int, int)>, current: Moment)
    ensures Stamp(current) > Stamp(e)
    ensures MonthIndex(current.year, current.month) == MonthIndex(s.year, s.month) + |months|
    ensures |months| == 0 ==> current == s
    ensures |months| > 0 ==> current.day == 1 && current.hour == 0 && current.minute == 0
    ensures |months| > 0 ==> Stamp(s) <= Stamp(e) && MonthIndex(s.year, s.month) + |months| - 1 <= MonthIndex(e.year, e.month)
    ensures months == MonthsFrom(MonthIndex(s.year, s.month), |months|)
  {
    months := [];
    current := s;
    ghost var k0 := MonthIndex(s.year, s.month);
    ghost var K := MonthIndex(e.year, e.month);
    while Stamp(current) <= Stamp(e)
      invariant MonthIndex(current.year, current.month) == k0 + |months|
      invariant |months| == 0 ==> current == s
      invariant |months| > 0 ==> current.day == 1 && current.hour == 0 && current.minute == 0
      invariant |months| > 0 ==> Stamp(s) <= Stamp(e) && k0 + |months| - 1 <= K
      invariant months == MonthsFrom(k0, |months|)
      decreases K + 1 - MonthIndex(current.year, current.month)
    {
      MonthIndexMono(current, e);
      var entry := (current.month + 1, current.year);
      EntryIsPair(current);
      MonthsFromFresh(k0, |months|);
      MonthsFromStep(k0, |months|);
      if entry !in months {
        months := months + [entry];
      } else {
        assert false;
      }
      current := NextMonthStart(current);
    }
  }

  // =====================================================================
  // Booked dates and the overlap test

  /** A booking as returned by the availability endpoint. */
  datatype Booking = Booking(start: Moment, end: Moment)

  /** The answer for one month: the request threw (with axios, any non-2xx
      reply or a failed token refresh), it resolved without a 200 status and
      an array body, or it gave that month's bookings. */
  datatype MonthAnswer = MonthThrew | MonthFailed | MonthBookings(bookings: seq<Booking>)

  /** The days `lo..hi`. */
  function DayRange(lo: int, hi: int): (r: set<int>)
    ensures forall d :: d in r <==> lo <= d <= hi
    decreases hi - lo
  {
    if lo > hi then {} else {lo} + DayRange(lo + 1, hi)
  }

  /** The last day whose start-time instant is not after the booking's end. */
  function LastBookedDay(b: Booking): (last: int)
    ensures forall d :: d <= last <==> d * 1440 + TimeOfDay(b.start) <= Stamp(b.end)
  {
    var x := Stamp(b.end) - TimeOfDay(b.start);
    var q, r := x / 1440, x % 1440;
    assert x == 1440 * q + r;
    q
  }

  /** The day numbers the expansion loop records for one booking: every day
      from the start's on whose instant at the start's time of day is not
      after the end. */
  function BookedDays(b: Booking): (r: set<int>)
    ensures forall d :: d in r <==> DayOf(b.start) <= d && d * 1440 + TimeOfDay(b.start) <= Stamp(b.end)
  {
    DayRange(DayOf(b.start), LastBookedDay(b))
  }

  /** The start day is always blocked, and the end day is blocked only when the
      booking ends no earlier in the day than it started. */
  lemma BookedDaysSpan(b: Booking)
    requires Stamp(b.start) <= Stamp(b.end)
    ensures DayOf(b.start) in BookedDays(b)
    ensures TimeOfDay(b.start) <= TimeOfDay(b.end) ==> BookedDays(b) == DayRange(DayOf(b.start), DayOf(b.end))
    ensures TimeOfDay(b.start) > TimeOfDay(b.end) ==> BookedDays(b) == DayRange(DayOf(b.start), DayOf(b.end) - 1)
  {
  }

  /** The `while (current <= end)` loop of the booked-dates expansion. */
  method ExpandBooking(b: Booking) returns (days: set<int>)
    ensures days == BookedDays(b)
  {
    days := {};
    var current := b.start;
    while Stamp(current) <= Stamp(b.end)
      invariant TimeOfDay(current) == TimeOfDay(b.start) && DayOf(current) >= DayOf(b.start)
      invariant forall d :: d in days <==> DayOf(b.start) <= d < DayOf(current)
      invariant DayOf(current) == DayOf(b.start) || Stamp(current) - 1440 <= Stamp(b.end)
      decreases Stamp(b.end) - Stamp(current)
    {
      days := days + {DayOf(current)};
      NextDayNumber(current);
      current := NextDay(current);
    }
    assert forall d :: d in days <==> d in BookedDays(b);
  }

  /** Union over all bookings. */
  function UnionBy(bookings: seq<Booking>, f: Booking -> set<int>): set<int>
    decreases |bookings|
  {
    if bookings == [] then {}
    else UnionBy(bookings[..|bookings| - 1], f) + f(bookings[|bookings| - 1])
  }

  lemma {:induction false} UnionByMembers(bookings: seq<Booking>, f: Booking -> set<int>, d: int)
    ensures d in UnionBy(bookings, f) <==> exists i :: 0 <= i < |bookings| && d in f(bookings[i])
    decreases |bookings|
  {
    if bookings != [] {
      var front := bookings[..|bookings| - 1];
      UnionByMembers(front, f, d);
      assert forall i :: 0 <= i < |front| ==> front[i] == bookings[i];
      if d in f(bookings[|bookings| - 1]) {
        assert 0 <= |bookings| - 1 < |bookings|;
      }
    }
  }

  function AllBookedDays(bookings: seq<Booking>): set<int> {
    UnionBy(bookings, BookedDays)
  }

  /** A day is booked exactly when some booking blocks it. */
  lemma AllBookedDaysMembers(bookings: seq<Booking>, d: int)
    ensures d in AllBookedDays(bookings) <==> exists i :: 0 <= i < |bookings| && d in BookedDays(bookings[i])
  {
    UnionByMembers(bookings, BookedDays, d);
  }

  method ExpandBookings(bookings: seq<Booking>) returns (dates: set<int>)
    ensures dates == AllBookedDays(bookings)
  {
    dates := {};
    var i := 0;
    while i < |bookings|
      invariant 0 <= i <= |bookings|
      invariant dates == AllBookedDays(bookings[..i])
    {
      var days := ExpandBooking(bookings[i]);
      assert bookings[..i + 1][..i] == bookings[..i];
      dates := dates + days;
      i := i + 1;
    }
    assert bookings[..|bookings|] == bookings;
  }

  /** Some month's request threw. */
  predicate AnyThrew(months: seq<(int, int)>, lookup: (int, int) -> MonthAnswer) {
    exists i :: 0 <= i < |months| && lookup(months[i].0, months[i].1).MonthThrew?
  }

  /** When no request throws, the prefetch keeps the bookings of every month
      that answered with them and skips the others. */
  function Gathered(months: seq<(int, int)>, lookup: (int, int) -> MonthAnswer): seq<Booking>
    decreases |months|
  {
    if months == [] then []
    else
      var last := months[|months| - 1];
      Gathered(months[..|months| - 1], lookup) +
        match lookup(last.0, last.1) case MonthBookings(bs) => bs case _ => []
  }

  /** The booked days shown on the calendar: bookings of every month from now
      through January of next year, expanded day by day. A request that throws
      leaves the loop for the screen's catch, and the booked days are not
      updated (`None`). */
  method FetchBookedDates(now: Moment, lookup: (int, int) -> MonthAnswer) returns (dates: Option<set<int>>)
    ensures dates.None? <==> AnyThrew(MonthsToCheck(now, DateTime(now.year + 1, 0, 1, 0, 0)), lookup)
    ensures dates.Some? ==>
              dates.value == AllBookedDays(Gathered(MonthsToCheck(now, DateTime(now.year + 1, 0, 1, 0, 0)), lookup))
  {
    var months := GetMonthsToCheck(now, DateTime(now.year + 1, 0, 1, 0, 0));
    var completed, allBookings := GatherBookings(months, lookup);
    if !completed {
      return None;
    }
    var days := ExpandBookings(allBookings);
    dates := Some(days);
  }

  /** The loop over the months of the prefetch; it stops at the first request
      that throws. */
  method GatherBookings(months: seq<(int, int)>, lookup: (int, int) -> MonthAnswer)
    returns (completed: bool, allBookings: seq<Booking>)
    ensures completed <==> !AnyThrew(months, lookup)
    ensures completed ==> allBookings == Gathered(months, lookup)
  {
    allBookings := [];
    var i := 0;
    while i < |months|
      invariant 0 <= i <= |months|
      invariant !AnyThrew(months[..i], lookup)
      invariant allBookings == Gathered(months[..i], lookup)
    {
      var answer := lookup(months[i].0, months[i].1);
      if answer.MonthThrew? {
        return false, allBookings;
      }
      assert months[..i + 1][..i] == months[..i];
      if answer.MonthBookings? {
        allBookings := allBookings + answer.bookings;
      }
      i := i + 1;
    }
    assert months[..|months|] == months;
    completed := true;
  }

  /** The conflict test of `checkAvailability`: the new rental starts before
      the booking ends and ends after it starts. */
  predicate Conflicts(start: Moment, end: Moment, b: Booking) {
    Stamp(start) < Stamp(b.end) && Stamp(end) > Stamp(b.start)
  }

  predicate Within(t: int, lo: int, hi: int) {
    lo <= t < hi
  }

  /** For proper intervals, a conflict is exactly a shared minute of the two
      half-open intervals; back-to-back rentals therefore never conflict. */
  lemma ConflictMeansSharedMinute(start: Moment, end: Moment, b: Booking)
    requires Stamp(start) < Stamp(end) && Stamp(b.start) < Stamp(b.end)
    ensures Conflicts(start, end, b) <==>
              exists t :: Within(t, Stamp(start), Stamp(end)) && Within(t, Stamp(b.start), Stamp(b.end))
    ensures Stamp(end) == Stamp(b.start) || Stamp(start) == Stamp(b.end) ==> !Conflicts(start, end, b)
  {
    if Conflicts(start, end, b) {
      var t := if Stamp(start) < Stamp(b.start) then Stamp(b.start) else Stamp(start);
      assert Within(t, Stamp(start), Stamp(end)) && Within(t, Stamp(b.start), Stamp(b.end));
    }
  }

  // =====================================================================
  // checkAvailability

  predicate AllAnswered(months: seq<(int, int)>, lookup: (int, int) -> MonthAnswer) {
    forall i :: 0 <= i < |months| ==> lookup(months[i].0, months[i].1).MonthBookings?
  }

  /** The bookings of the queried months, in query order. */
  function Collected(months: seq<(int, int)>, lookup: (int, int) -> MonthAnswer): seq<Booking>
    requires AllAnswered(months, lookup)
    decreases |months|
  {
    if months == [] then []
    else Collected(months[..|months| - 1], lookup) + lookup(months[|months| - 1].0, months[|months| - 1].1).bookings
  }

  /** What `checkAvailability` resolves to: false without a vehicle id or with
      a date missing, false when any month cannot be fetched, otherwise true
      exactly when no fetched booking conflicts. */
  function Available(vehicleId: Option<int>, start: Option<Moment>, end: Option<Moment>,
                     lookup: (int, int) -> MonthAnswer): bool
  {
    && TruthyInt(vehicleId) && start.Some? && end.Some?
    && var months := MonthsToCheck(start.value, end.value);
       AllAnswered(months, lookup) &&
       !exists b :: b in Collected(months, lookup) && Conflicts(start.value, end.value, b)
  }

  method CheckAvailability(vehicleId: Option<int>, start: Option<Moment>, end: Option<Moment>,
                           lookup: (int, int) -> MonthAnswer) returns (ok: bool)
    ensures ok == Available(vehicleId, start, end, lookup)
  {
    if !TruthyInt(vehicleId) || start.None? || end.None? {
      return false;
    }
    var months := GetMonthsToCheck(start.value, end.value);
    var answered, allBookings := CollectBookings(months, lookup);
    if !answered {
      return false;
    }
    var isBooked := exists b :: b in allBookings && Conflicts(start.value, end.value, b);
    ok := !isBooked;
  }

  /** One more answered month adds its bookings at the end. */
  lemma CollectedStep(months: seq<(int, int)>, lookup: (int, int) -> MonthAnswer, i: int)
    requires 0 <= i < |months| && AllAnswered(months[..i], lookup)
    requires lookup(months[i].0, months[i].1).MonthBookings?
    ensures AllAnswered(months[..i + 1], lookup)
    ensures Collected(months[..i + 1], lookup) == Collected(months[..i], lookup) + lookup(months[i].0, months[i].1).bookings
  {
    assert months[..i + 1][..i] == months[..i];
    assert forall j :: 0 <= j < i ==> months[..i][j] == months[..i + 1][j];
  }

  /** The month-by-month fetch loop of `checkAvailability`: it stops at the
      first month that cannot be fetched. */
  method CollectBookings(months: seq<(int, int)>, lookup: (int, int) -> MonthAnswer)
    returns (answered: bool, allBookings: seq<Booking>)
    ensures answered == AllAnswered(months, lookup)
    ensures answered ==> allBookings == Collected(months, lookup)
  {
    allBookings := [];
    var i := 0;
    while i < |months|
      invariant 0 <= i <= |months|
      invariant AllAnswered(months[..i], lookup)
      invariant allBookings == Collected(months[..i], lookup)
    {
      var answer := lookup(months[i].0, months[i].1);
      if !answer.MonthBookings? {
        assert !AllAnswered(months, lookup);
        return false, allBookings;
      }
      CollectedStep(months, lookup, i);
      allBookings := allBookings + answer.bookings;
      i := i + 1;
    }
    assert months[..|months|] == months;
    answered := true;
  }

  /** A true answer means no booking of any queried month conflicts. */
  lemma AvailableMeansNoConflict(vehicleId: Option<int>, start: Moment, end: Moment,
                                 lookup: (int, int) -> MonthAnswer, i: int, b: Booking)
    requires Available(vehicleId, Some(start), Some(end), lookup)
    requires 0 <= i < |MonthsToCheck(start, end)|
    requires b in lookup(MonthsToCheck(start, end)[i].0, MonthsToCheck(start, end)[i].1).bookings
    ensures !Conflicts(start, end, b)
  {
    CollectedContains(MonthsToCheck(start, end), lookup, i, b);
  }

  lemma {:induction false} CollectedContains(months: seq<(int, int)>, lookup: (int, int) -> MonthAnswer, i: int, b: Booking)
    requires AllAnswered(months, lookup) && 0 <= i < |months|
    requires b in lookup(months[i].0, months[i].1).bookings
    ensures b in Collected(months, lookup)
    decreases |months|
  {
    var front := months[..|months| - 1];
    assert AllAnswered(front, lookup) by {
      assert forall j :: 0 <= j < |front| ==> front[j] == months[j];
    }
    if i < |months| - 1 {
      assert front[i] == months[i];
      CollectedContains(front, lookup, i, b);
    }
  }

  // =====================================================================
  // calculateDays and totalPrice

  function Abs(x: int): nat {
    if x < 0 then -x else x
  }

  /** The rental length in days: the distance between the two dates rounded
      up to whole days, never less than 1, and 1 while a date is missing. */
  function CalculateDays(start: Option<Moment>, end: Option<Moment>): (r: int)
    ensures r >= 1
    ensures start.None? || end.None? ==> r == 1
    ensures start.Some? && end.Some? ==>
              var diff := Abs(Stamp(end.value) - Stamp(start.value));
              (diff == 0 ==> r == 1) && (diff > 0 ==> (r - 1) * 1440 < diff <= r * 1440)
  {
    if start.None? || end.None? then 1
    else
      var diff := Abs(Stamp(end.value) - Stamp(start.value));
      var days := (diff + 1439) / 1440;
      if days > 0 then days else 1
  }

  /** `vehicle.price * calculateDays()`, 0 without a vehicle. */
  function TotalPrice(price: Option<int>, start: Option<Moment>, end: Option<Moment>): (r: int)
    ensures price.None? ==> r == 0
    ensures price.Some? ==> r == price.value * CalculateDays(start, end)
  {
    if price.None? then 0 else price.value * CalculateDays(start, end)
  }

  /** A rental always costs at least one day's price. */
  lemma TotalAtLeastOneDay(price: int, start: Option<Moment>, end: Option<Moment>)
    requires price >= 0
    ensures TotalPrice(Some(price), start, end) >= price
  {
    AtLeastOnce(price, CalculateDays(start, end));
  }

  lemma {:induction false} AtLeastOnce(p: int, n: int)
    requires p >= 0 && n >= 1
    ensures p * n >= p
    decreases n
  {
    if n > 1 {
      AtLeastOnce(p, n - 1);
      assert p * n == p * (n - 1) + p;
    }
  }

  // =====================================================================
  // handleBookNow

  /** The fields of a vehicle that booking uses. */
  datatype Vehicle = Vehicle(
    id: Option<int>,
    title: string,
    price: int,
    timePickupStart: string,
    timePickupEnd: string,
    timeReturnStart: string,
    timeReturnEnd: string,
    imageFront: string)

  /** How "Book now" ends: one toast per failed check, the redirect to the
      level-2 upgrade, or the confirmation screen. */
  datatype BookNowOutcome =
    | MissingDates
    | EndNotAfterStart
    | PickupOutsideWindow
    | ReturnOutsideWindow
    | UpgradeRequired
    | Unavailable
    | Proceed(vehicleId: int, start: Moment, end: Moment)

  predicate DatesChosen(vehicle: Option<Vehicle>, start: Option<Moment>, end: Option<Moment>) {
    vehicle.Some? && start.Some? && end.Some?
  }

  /** The checks in the source's order; the first failure decides. */
  function BookNow(vehicle: Option<Vehicle>, start: Option<Moment>, end: Option<Moment>,
                   startTime: string, endTime: string, userLevel: Option<int>,
                   lookup: (int, int) -> MonthAnswer): BookNowOutcome
  {
    if !DatesChosen(vehicle, start, end) then MissingDates
    else
      var v := vehicle.value;
      if Stamp(end.value) <= Stamp(start.value) then EndNotAfterStart
      else if !ValidateTime(startTime, v.timePickupStart, v.timePickupEnd) then PickupOutsideWindow
      else if !ValidateTime(endTime, v.timeReturnStart, v.timeReturnEnd) then ReturnOutsideWindow
      else if userLevel == Some(1) then UpgradeRequired
      else if Available(v.id, start, end, lookup) then Proceed(v.id.value, start.value, end.value)
      else Unavailable
  }

  /** Each outcome implies that every earlier check passed, and the
      confirmation screen is reached exactly when all checks pass. */
  lemma BookNowOrder(vehicle: Option<Vehicle>, start: Option<Moment>, end: Option<Moment>,
                     startTime: string, endTime: string, userLevel: Option<int>,
                     lookup: (int, int) -> MonthAnswer)
    ensures var r := BookNow(vehicle, start, end, startTime, endTime, userLevel, lookup);
            && (r == MissingDates <==> !DatesChosen(vehicle, start, end))
            && (r != MissingDates ==> DatesChosen(vehicle, start, end))
            && (r == EndNotAfterStart <==>
                  DatesChosen(vehicle, start, end) && Stamp(end.value) <= Stamp(start.value))
            && (r.PickupOutsideWindow? || r.ReturnOutsideWindow? || r.UpgradeRequired? || r.Unavailable? || r.Proceed? ==>
                  Stamp(start.value) < Stamp(end.value))
            && (r.ReturnOutsideWindow? || r.UpgradeRequired? || r.Unavailable? || r.Proceed? ==>
                  ValidateTime(startTime, vehicle.value.timePickupStart, vehicle.value.timePickupEnd))
            && (r.UpgradeRequired? || r.Unavailable? || r.Proceed? ==>
                  ValidateTime(endTime, vehicle.value.timeReturnStart, vehicle.value.timeReturnEnd))
            && (r.Unavailable? || r.Proceed? ==> userLevel != Some(1))
            && (r.Proceed? <==>
                  && DatesChosen(vehicle, start, end) && Stamp(start.value) < Stamp(end.value)
                  && ValidateTime(startTime, vehicle.value.timePickupStart, vehicle.value.timePickupEnd)
                  && ValidateTime(endTime, vehicle.value.timeReturnStart, vehicle.value.timeReturnEnd)
                  && userLevel != Some(1)
                  && Available(vehicle.value.id, start, end, lookup))
  {
  }

  /** The toast each refusal shows (kind and text). */
  function BookNowToast(r: BookNowOutcome, v: Vehicle): (t: (string, string))
    ensures r.Proceed? <==> t.0 == ""
    ensures r == UpgradeRequired <==> t.0 == "info"
    ensures !r.Proceed? && r != UpgradeRequired ==> t.0 == "error" && t.1 != ""
  {
    match r
    case MissingDates => ("error", "Please select valid rental dates.")
    case EndNotAfterStart => ("error", "End date must be after start date.")
    case PickupOutsideWindow =>
      ("error", "Pickup time must be between " + v.timePickupStart + " and " + v.timePickupEnd + ".")
    case ReturnOutsideWindow =>
      ("error", "Return time must be between " + v.timeReturnStart + " and " + v.timeReturnEnd + ".")
    case UpgradeRequired => ("info", "You need to be at level 2 to book a vehicle. Please update your account.")
    case Unavailable => ("error", "Vehicle is not available for the selected dates.")
    case Proceed(_, _, _) => ("", "")
  }

  // =====================================================================
  // getErrorMessage and formatDateTime

  /** The delete-error table: four known codes, otherwise the error's own
      message, otherwise a generic text. Never empty. */
  function GetErrorMessage(code: Option<int>, message: string): (r: string)
    ensures r != ""
    ensures code == Some(2002) ==> r == "Vehicle not found."
    ensures code == Some(2005) ==> r == "You don't have permission to delete this vehicle."
    ensures code == Some(2017) ==> r == "Failed to delete vehicle."
    ensures code == Some(9001) ==> r == "Unknown error."
    ensures code !in {Some(2002), Some(2005), Some(2017), Some(9001)} ==>
              r == OrElse(message, "An unexpected error occurred.")
  {
    match code
    case Some(2002) => "Vehicle not found."
    case Some(2005) => "You don't have permission to delete this vehicle."
    case Some(2017) => "Failed to delete vehicle."
    case Some(9001) => "Unknown error."
    case _ => OrElse(message, "An unexpected error occurred.")
  }

  /** The four known codes get four different messages. */
  lemma KnownCodesDistinct()
    ensures var a, b, c, d := GetErrorMessage(Some(2002), ""), GetErrorMessage(Some(2005), ""),
                              GetErrorMessage(Some(2017), ""), GetErrorMessage(Some(9001), "");
            a != b && a != c && a != d && b != c && b != d && c != d
  {
    var a, b, c, d := GetErrorMessage(Some(2002), ""), GetErrorMessage(Some(2005), ""),
                      GetErrorMessage(Some(2017), ""), GetErrorMessage(Some(9001), "");
    assert |a| == 18 && |b| == 49 && |c| == 25 && |d| == 14;
  }

  /** `DD/MM/YYYY at HH:MM`, or '' without a date. */
  function FormatDateTime(d: Option<Moment>): string {
    if d.None? then ""
    else
      var t := d.value;
      Pad2(t.day) + "/" + Pad2(t.month + 1) + "/" + IntToString(t.year) + " at " + FormatClock(ClockTime(t.hour, t.minute))
  }

  /** Where the day and the month sit in a display, whatever the year and
      the clock text. */
  lemma DisplayOpens(dd: string, mm: string, yyyy: string, hm: string)
    requires |dd| == 2 && |mm| == 2
    ensures var r := dd + "/" + mm + "/" + yyyy + " at " + hm;
            |r| >= 5 && r[..2] == dd && r[2] == '/' && r[3..5] == mm
  {
    var r := dd + "/" + mm + "/" + yyyy + " at " + hm;
    assert r[..2] == dd;
    assert r[3..5] == mm;
  }

  /** The display is empty exactly without a date, and otherwise opens with
      the day and the one-based month as two-digit fields. */
  lemma FormatDateTimeDate(d: Option<Moment>)
    ensures d.None? <==> FormatDateTime(d) == ""
    ensures d.Some? ==>
              var r, t := FormatDateTime(d), d.value;
              && r[2] == '/'
              && AllDigits(r[..2]) && DigitsValue(r[..2]) == t.day
              && AllDigits(r[3..5]) && DigitsValue(r[3..5]) == t.month + 1
  {
    if d.Some? {
      var t := d.value;
      var dd, mm := Pad2(t.day), Pad2(t.month + 1);
      Pad2RoundTrip(t.day);
      Pad2RoundTrip(t.month + 1);
      var yyyy, hm := IntToString(t.year), FormatClock(ClockTime(t.hour, t.minute));
      DisplayOpens(dd, mm, yyyy, hm);
      assert FormatDateTime(d) == dd + "/" + mm + "/" + yyyy + " at " + hm;
    }
  }

  /** The last five characters of a display are the time of day, which
      parses back. */
  lemma FormatDateTimeTime(d: Option<Moment>)
    ensures d.Some? ==>
              var r, t := FormatDateTime(d), d.value;
              && |r| >= 5
              && r[|r| - 5..] == FormatClock(ClockTime(t.hour, t.minute))
              && ParseTime(r[|r| - 5..]) == Some(ClockTime(t.hour, t.minute))
  {
    if d.Some? {
      var t := d.value;
      var hm := FormatClock(ClockTime(t.hour, t.minute));
      TimeOfDayText(t.hour, t.minute);
      var r := FormatDateTime(d);
      assert r == (Pad2(t.day) + "/" + Pad2(t.month + 1) + "/" + IntToString(t.year) + " at ") + hm;
      assert r[|r| - 5..] == hm;
    }
  }

  lemma TimeOfDayText(h: nat, m: nat)
    requires h < 24 && m < 60
    ensures |FormatClock(ClockTime(h, m))| == 5
    ensures ParseTime(FormatClock(ClockTime(h, m))) == Some(ClockTime(h, m))
  {
    Pad2RoundTrip(h);
    Pad2RoundTrip(m);
    ParseFormat(ClockTime(h, m));
  }

  // =====================================================================
  // The date picker

  /** `renderCalendar`'s grid: `firstDay` blanks, then the days 1..n. */
  function CalendarGrid(year: int, month: int): (cells: seq<Option<int>>)
    requires 0 <= month < 12
  {
    var blanks := Weekday(DayNumber(year, month, 1));
    seq(blanks + DaysInMonth(year, month), i requires 0 <= i < blanks + DaysInMonth(year, month) =>
      if i < blanks then None else Some(i - blanks + 1))
  }

  /** Each day of the month appears once, in the column of its weekday. */
  lemma CalendarColumns(year: int, month: int)
    requires 0 <= month < 12
    ensures var g, first := CalendarGrid(year, month), Weekday(DayNumber(year, month, 1));
            && |g| == first + DaysInMonth(year, month)
            && (forall i :: 0 <= i < first ==> g[i] == None)
            && (forall d :: 1 <= d <= DaysInMonth(year, month) ==>
                  g[first + d - 1] == Some(d) && (first + d - 1) % 7 == Weekday(DayNumber(year, month, d)))
            && (forall i, j :: 0 <= i < j < |g| && g[i].Some? ==> g[i] != g[j])
  {
    forall d | 1 <= d <= DaysInMonth(year, month)
      ensures (Weekday(DayNumber(year, month, 1)) + d - 1) % 7 == Weekday(DayNumber(year, month, d))
    {
      WeekdayInMonth(year, month, d);
    }
  }

  method BuildCalendar(year: int, month: int) returns (daysArray: seq<Option<int>>)
    requires 0 <= month < 12
    ensures daysArray == CalendarGrid(year, month)
  {
    var daysInMonth := DaysInMonth(year, month);
    var firstDay := Weekday(DayNumber(year, month, 1));
    daysArray := [];
    for i := 0 to firstDay
      invariant |daysArray| == i && forall j :: 0 <= j < i ==> daysArray[j] == None
    {
      daysArray := daysArray + [None];
    }
    for day := 1 to daysInMonth + 1
      invariant |daysArray| == firstDay + day - 1
      invariant forall j :: 0 <= j < |daysArray| ==> daysArray[j] == CalendarGrid(year, month)[j]
    {
      daysArray := daysArray + [Some(day)];
    }
  }

  /** A day cell is disabled when it lies before today or is booked. */
  predicate CellDisabled(year: int, month: int, day: int, today: int, booked: set<int>)
    requires 0 <= month < 12
  {
    DayNumber(year, month, day) < today || DayNumber(year, month, day) in booked
  }

  /** No booking's blocked day can be pressed. */
  lemma BookedCellsDisabled(bookings: seq<Booking>, i: int, t: Moment, today: int)
    requires 0 <= i < |bookings|
    requires DayOf(bookings[i].start) <= DayOf(t)
    requires DayOf(t) * 1440 + TimeOfDay(bookings[i].start) <= Stamp(bookings[i].end)
    ensures CellDisabled(t.year, t.month, t.day, today, AllBookedDays(bookings))
  {
    assert DayOf(t) in BookedDays(bookings[i]);
    AllBookedDaysMembers(bookings, DayOf(t));
  }

  /** Month navigation with wrap-around at the ends of the year. */
  function PrevMonth(month: int, year: int): (r: (int, int))
    requires 0 <= month < 12
    ensures 0 <= r.0 < 12 && MonthIndex(r.1, r.0) == MonthIndex(year, month) - 1
  {
    if month == 0 then (11, year - 1) else (month - 1, year)
  }

  function NextMonth(month: int, year: int): (r: (int, int))
    requires 0 <= month < 12
    ensures 0 <= r.0 < 12 && MonthIndex(r.1, r.0) == MonthIndex(year, month) + 1
  {
    if month == 11 then (0, year + 1) else (month + 1, year)
  }

  /** Forward and back are inverse. */
  lemma MonthNavigationRoundTrip(month: int, year: int)
    requires 0 <= month < 12
    ensures NextMonth(PrevMonth(month, year).0, PrevMonth(month, year).1) == (month, year)
    ensures PrevMonth(NextMonth(month, year).0, NextMonth(month, year).1) == (month, year)
  {
  }

  /** The picker's state. */
  class DatePicker {
    var showDatePicker: bool
    var selectingStartDate: bool
    var startDate: Option<Moment>
    var endDate: Option<Moment>
    var startDay: Option<int>
    var endDay: Option<int>
    var currentMonth: int
    var currentYear: int
    var startTime: string
    var endTime: string

    ghost predicate Valid()
      reads this
    {
      0 <= currentMonth < 12
    }

    /** The initial state, with the times taken from the vehicle once it is
        loaded (`timePickupStart || '08:00'`, `timeReturnStart || '08:00'`). */
    constructor (today: Moment, v: Vehicle)
      ensures Valid()
      ensures !showDatePicker && selectingStartDate
      ensures startDate == None && endDate == None && startDay == None && endDay == None
      ensures currentMonth == today.month && currentYear == today.year
      ensures startTime == OrElse(v.timePickupStart, "08:00") && endTime == OrElse(v.timeReturnStart, "08:00")
    {
      showDatePicker := false;
      selectingStartDate := true;
      startDate := None;
      endDate := None;
      startDay := None;
      endDay := None;
      currentMonth := today.month;
      currentYear := today.year;
      startTime := OrElse(v.timePickupStart, "08:00");
      endTime := OrElse(v.timeReturnStart, "08:00");
    }

    /** `handleChooseTime`: open the picker on today's month, selecting the
        start again; chosen dates are kept. */
    method ChooseTime(today: Moment)
      modifies this
      ensures Valid()
      ensures showDatePicker && selectingStartDate
      ensures currentMonth == today.month && currentYear == today.year
      ensures startDate == old(startDate) && endDate == old(endDate)
      ensures startDay == old(startDay) && endDay == old(endDay)
      ensures startTime == old(startTime) && endTime == old(endTime)
    {
      showDatePicker := true;
      selectingStartDate := true;
      currentMonth := today.month;
      currentYear := today.year;
    }

    method GoToPrevMonth()
      requires Valid()
      modifies this
      ensures Valid()
      ensures (currentMonth, currentYear) == PrevMonth(old(currentMonth), old(currentYear))
      ensures startDate == old(startDate) && endDate == old(endDate) && selectingStartDate == old(selectingStartDate)
      ensures startDay == old(startDay) && endDay == old(endDay) && showDatePicker == old(showDatePicker)
      ensures startTime == old(startTime) && endTime == old(endTime)
    {
      if currentMonth == 0 {
        currentMonth := 11;
        currentYear := currentYear - 1;
      } else {
        currentMonth := currentMonth - 1;
      }
    }

    method GoToNextMonth()
      requires Valid()
      modifies this
      ensures Valid()
      ensures (currentMonth, currentYear) == NextMonth(old(currentMonth), old(currentYear))
      ensures startDate == old(startDate) && endDate == old(endDate) && selectingStartDate == old(selectingStartDate)
      ensures startDay == old(startDay) && endDay == old(endDay) && showDatePicker == old(showDatePicker)
      ensures startTime == old(startTime) && endTime == old(endTime)
    {
      if currentMonth == 11 {
        currentMonth := 0;
        currentYear := currentYear + 1;
      } else {
        currentMonth := currentMonth + 1;
      }
    }

    /** The picker's `onValueChange` for the pickup and return times. */
    method PickStartTime(value: string)
      modifies this
      ensures startTime == value && endTime == old(endTime)
      ensures startDate == old(startDate) && endDate == old(endDate)
      ensures currentMonth == old(currentMonth) && currentYear == old(currentYear)
      ensures selectingStartDate == old(selectingStartDate) && showDatePicker == old(showDatePicker)
      ensures startDay == old(startDay) && endDay == old(endDay)
    {
      startTime := value;
    }

    method PickEndTime(value: string)
      modifies this
      ensures endTime == value && startTime == old(startTime)
      ensures startDate == old(startDate) && endDate == old(endDate)
      ensures currentMonth == old(currentMonth) && currentYear == old(currentYear)
      ensures selectingStartDate == old(selectingStartDate) && showDatePicker == old(showDatePicker)
      ensures startDay == old(startDay) && endDay == old(endDay)
    {
      endTime := value;
    }

    /** The time of day the next pressed day gets. */
    function PendingTime(): Option<ClockTime>
      reads this
    {
      ParseTime(if selectingStartDate then startTime else endTime)
    }

    /** `handleDayPress(day)`: while selecting the start, the day (at the
        pickup time) becomes the start and selection moves to the end; after
        that each press sets the end unless it is not after the start, which
        shows an error toast and changes nothing. */
    method DayPress(day: int) returns (rejected: bool)
      requires Valid()
      requires ValidDate(currentYear, currentMonth, day)
      requires PendingTime().Some? && PendingTime().value.hours < 24 && PendingTime().value.minutes < 60
      modifies this
      ensures Valid()
      ensures var picked: Moment := DateTime(old(currentYear), old(currentMonth), day,
                                     old(PendingTime()).value.hours, old(PendingTime()).value.minutes);
              if old(selectingStartDate) then
                && !rejected && startDate == Some(picked) && startDay == Some(day) && !selectingStartDate
                && endDate == old(endDate) && endDay == old(endDay)
              else if old(startDate).Some? && Stamp(picked) <= Stamp(old(startDate).value) then
                && rejected && endDate == old(endDate) && endDay == old(endDay)
                && startDate == old(startDate) && !selectingStartDate
              else
                && !rejected && endDate == Some(picked) && endDay == Some(day)
                && startDate == old(startDate) && !selectingStartDate
      ensures currentMonth == old(currentMonth) && currentYear == old(currentYear)
      ensures startTime == old(startTime) && endTime == old(endTime)
      ensures showDatePicker == old(showDatePicker)
    {
      var time := PendingTime().value;
      var selected: Moment := DateTime(currentYear, currentMonth, day, time.hours, time.minutes);
      rejected := false;
      if selectingStartDate {
        startDate := Some(selected);
        startDay := Some(day);
        selectingStartDate := false;
      } else {
        if startDate.Some? && Stamp(selected) <= Stamp(startDate.value) {
          rejected := true;
          return;
        }
        endDate := Some(selected);
        endDay := Some(day);
      }
    }
  }

  /** Reopening the picker and choosing a later start keeps the earlier end
      date, so the picker alone does not keep the end after the start; it is
      the `endDate <= startDate` check of "Book now" that refuses it. */
  method StaleEndDateIsCaughtByBookNow(v: Vehicle, lookup: (int, int) -> MonthAnswer)
  {
    var today: Moment := DateTime(2025, 5, 1, 9, 0);
    ParseFormat(ClockTime(9, 0));
    assert FormatClock(ClockTime(9, 0)) == "09:00";
    var picker := new DatePicker(today, v.(timePickupStart := "09:00", timeReturnStart := "09:00"));
    picker.ChooseTime(today);
    var r := picker.DayPress(10);
    r := picker.DayPress(12);
    picker.ChooseTime(today);
    r := picker.DayPress(20);
    var start: Moment, end: Moment := DateTime(2025, 5, 20, 9, 0), DateTime(2025, 5, 12, 9, 0);
    assert picker.startDate == Some(start) && picker.endDate == Some(end);
    assert BookNow(Some(v), picker.startDate, picker.endDate, picker.startTime, picker.endTime, None, lookup)
           == EndNotAfterStart;
  }
}
