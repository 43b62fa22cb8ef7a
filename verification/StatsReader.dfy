/** internal/stats/reader.go: the read side of the statistics, over the tables the pipeline fills. */
module StatsReader {
  import opened Basics
  import opened ClickEvents
  import ClickPipeline

  const MAX_RANGE_DAYS := 366
  const BROWSER_TOP_N := 10
  const BROWSER_OTHER := "other"
  const NANOSECONDS_PER_HOUR := 3_600_000_000_000

  datatype Granularity = Day | Hour | Unknown

  datatype StatsError = InvalidRange | InvalidGranularity | ReadFailed

  /** One line of a breakdown. */
  datatype Line<K> = Line(key: K, clicks: nat)

  function Sum<K>(lines: seq<Line<K>>): nat {
    if lines == [] then 0 else Sum(lines[..|lines| - 1]) + lines[|lines| - 1].clicks
  }

  function InRange(table: set<ClickEvent>, url: Url, from: Instant, to: Instant): set<ClickEvent> {
    set ev | ev in table && ev.url == url && from <= ev.clickedAt < to
  }

  function Labelled<K(==)>(events: set<ClickEvent>, tag: ClickEvent -> K, key: K): set<ClickEvent> {
    set ev | ev in events && tag(ev) == key
  }

  function HourOf(t: Instant): int {
    t / NANOSECONDS_PER_HOUR
  }

  lemma HourIff(t: Instant, hour: int)
    ensures HourOf(t) == hour <==> hour * (60 * 60 * 1_000_000_000) <= t < (hour + 1) * (60 * 60 * 1_000_000_000)
  {
  }

  // What each Reader query promises.

  ghost predicate DistinctKeys<K>(lines: seq<Line<K>>) {
    forall i, j :: 0 <= i < j < |lines| ==> lines[i].key != lines[j].key
  }

  ghost predicate Covers<K>(events: set<ClickEvent>, tag: ClickEvent -> K, lines: seq<Line<K>>) {
    forall ev :: ev in events ==> exists i :: 0 <= i < |lines| && lines[i].key == tag(ev)
  }

  /** SELECT tag, COUNT(*) ... GROUP BY tag. */
  ghost predicate IsGroupBy<K>(events: set<ClickEvent>, tag: ClickEvent -> K, lines: seq<Line<K>>) {
    && DistinctKeys(lines)
    && (forall i :: 0 <= i < |lines| ==> lines[i].clicks == |Labelled(events, tag, lines[i].key)| > 0)
    && Covers(events, tag, lines)
  }

  ghost predicate Descending<K>(lines: seq<Line<K>>) {
    forall i, j :: 0 <= i < j < |lines| ==> lines[i].clicks >= lines[j].clicks
  }

  /** SELECT date, click_count FROM click_stats_daily WHERE date >= from AND date < to ORDER BY date. */
  ghost predicate IsDailyList(daily: Daily, url: Url, from: Instant, to: Instant, lines: seq<Line<int>>) {
    && (forall i, j :: 0 <= i < j < |lines| ==> lines[i].key < lines[j].key)
    && (forall i :: 0 <= i < |lines| ==>
          var key := DailyKey(url, lines[i].key);
          DayOf(from) <= lines[i].key < DayOf(to) && key in daily && lines[i].clicks == daily[key])
    && (forall day :: DayOf(from) <= day < DayOf(to) && DailyKey(url, day) in daily ==>
          exists i :: 0 <= i < |lines| && lines[i].key == day)
  }

  const Referrer := (ev: ClickEvent) => ev.referrerHost
  const Country := (ev: ClickEvent) => ev.country
  const Os := (ev: ClickEvent) => ev.os
  const Browser := (ev: ClickEvent) => ev.browser
  const HourLabel := (ev: ClickEvent) => HourOf(ev.clickedAt)
  const DayLabel := (ev: ClickEvent) => DayOf(ev.clickedAt)

  /** What the six queries answer for one url and range; each may fail. */
  datatype Reader = Reader(
    referrers: Result<seq<Line<string>>, ()>,
    countries: Result<seq<Line<string>>, ()>,
    oses: Result<seq<Line<string>>, ()>,
    browsers: Result<seq<Line<string>>, ()>,
    daily: Result<seq<Line<int>>, ()>,
    hourly: Result<seq<Line<int>>, ()>)

  ghost predicate ReaderContract(r: Reader, table: set<ClickEvent>, daily: Daily, url: Url, from: Instant,
                                 to: Instant) {
    var events := InRange(table, url, from, to);
    && (r.referrers.Ok? ==> IsGroupBy(events, Referrer, r.referrers.value))
    && (r.countries.Ok? ==> IsGroupBy(events, Country, r.countries.value))
    && (r.oses.Ok? ==> IsGroupBy(events, Os, r.oses.value))
    && (r.browsers.Ok? ==> IsGroupBy(events, Browser, r.browsers.value) && Descending(r.browsers.value))
    && (r.hourly.Ok? ==> IsGroupBy(events, HourLabel, r.hourly.value))
    && (r.daily.Ok? ==> IsDailyList(daily, url, from, to, r.daily.value))
  }

  datatype Summary = Summary(
    from: Instant,
    to: Instant,
    granularity: Granularity,
    daily: seq<Line<int>>,
    hourly: seq<Line<int>>,
    byReferrer: seq<Line<string>>,
    byCountry: seq<Line<string>>,
    byOs: seq<Line<string>>,
    byBrowser: seq<Line<string>>)

  lemma SumOfParts<K>(lines: seq<Line<K>>, n: nat)
    requires n < |lines|
    ensures Sum(lines[..n + 1]) == Sum(lines[..n]) + lines[n].clicks
  {
    assert lines[..n + 1][..n] == lines[..n];
  }

  /** The ten busiest lines as they are, and one line for what the others count, if they count anything. */
  ghost predicate IsTopTen(all: seq<Line<string>>, top: seq<Line<string>>) {
    if |all| <= 10 then top == all
    else
      && Sum(top) == Sum(all) && all[..10] <= top
      && (|top| == 10 || (|top| == 11 && top[10].key == "other" && top[10].clicks > 0))
  }

  /** No click is lost by folding, at most eleven lines come out, and no line kept is smaller than any folded away. */
  method BucketTopBrowsers(all: seq<Line<string>>) returns (result: seq<Line<string>>)
    ensures IsTopTen(all, result) && Sum(result) == Sum(all) && |result| <= 11
    ensures Descending(all) ==>
              forall i, j :: 0 <= i < |result| && i < 10 <= j < |all| ==> result[i].clicks >= all[j].clicks
  {
    if |all| <= BROWSER_TOP_N {
      return all;
    }
    result := [];
    var otherTotal: nat := 0;
    var i := 0;
    while i < |all|
      invariant 0 <= i <= |all|
      invariant result == if i <= BROWSER_TOP_N then all[..i] else all[..BROWSER_TOP_N]
      invariant Sum(result) + otherTotal == Sum(all[..i])
    {
      SumOfParts(all, i);
      if i < BROWSER_TOP_N {
        result := result + [all[i]];
      } else {
        otherTotal := otherTotal + all[i].clicks;
      }
      i := i + 1;
    }
    assert all[..|all|] == all;
    if otherTotal > 0 {
      ghost var kept := result;
      result := result + [Line(BROWSER_OTHER, otherTotal)];
      assert result[..|result| - 1] == kept;
    }
  }

  /** A summary whose every breakdown totals the clicks recorded in the range. */
  ghost predicate Conserves(s: Summary, events: set<ClickEvent>) {
    && Sum(s.byReferrer) == Sum(s.byCountry) == Sum(s.byOs) == Sum(s.byBrowser) == |events|
    && (s.granularity == Hour ==> Sum(s.hourly) == |events|)
  }

  class Service {
    constructor () {}

    /** Validates the range, reads the breakdowns in turn, and fails on the first read that does. */
    method GetStats(reader: Reader, ghost table: set<ClickEvent>, ghost daily: Daily, url: Url, from: Instant,
                    to: Instant, granularity: Granularity) returns (r: Result<Summary, StatsError>)
      requires ReaderContract(reader, table, daily, url, from, to)
      ensures r == Err(InvalidRange) <==> to < from || to - from > MAX_RANGE_DAYS * NANOSECONDS_PER_DAY
      ensures var inRange := from <= to <= from + MAX_RANGE_DAYS * NANOSECONDS_PER_DAY;
        var breakdowns := reader.referrers.Ok? && reader.countries.Ok? && reader.oses.Ok? && reader.browsers.Ok?;
        && (r == Err(InvalidGranularity) <==> inRange && breakdowns && granularity == Unknown)
        && (r == Err(ReadFailed) <==>
              && inRange
              && (!breakdowns || (granularity == Day && reader.daily.Err?) || (granularity == Hour && reader.hourly.Err?)))
      ensures r.Ok? <==>
                && from <= to <= from + MAX_RANGE_DAYS * NANOSECONDS_PER_DAY
                && reader.referrers.Ok? && reader.countries.Ok? && reader.oses.Ok? && reader.browsers.Ok?
                && ((granularity == Day && reader.daily.Ok?) || (granularity == Hour && reader.hourly.Ok?))
      ensures r.Ok? ==> var s := r.value;
        && s.from == from && s.to == to && s.granularity == granularity
        && s.byReferrer == reader.referrers.value && s.byCountry == reader.countries.value && s.byOs == reader.oses.value
        && IsTopTen(reader.browsers.value, s.byBrowser)
        && (granularity == Hour ==> s.hourly == reader.hourly.value)
      ensures r.Ok? ==> Conserves(r.value, InRange(table, url, from, to)) && |r.value.byBrowser| <= BROWSER_TOP_N + 1
      ensures r.Ok? && granularity == Day ==> IsDailyList(daily, url, from, to, r.value.daily) && r.value.hourly == []
      ensures r.Ok? && granularity == Hour ==> r.value.daily == []
    {
      if to < from || to - from > MAX_RANGE_DAYS * NANOSECONDS_PER_DAY {
        return Err(InvalidRange);
      }
      if reader.referrers.Err? || reader.countries.Err? || reader.oses.Err? || reader.browsers.Err? {
        return Err(ReadFailed);
      }
      ghost var events := InRange(table, url, from, to);
      GroupByConserves(events, Referrer, reader.referrers.value);
      GroupByConserves(events, Country, reader.countries.value);
      GroupByConserves(events, Os, reader.oses.value);
      GroupByConserves(events, Browser, reader.browsers.value);
      var byBrowser := BucketTopBrowsers(reader.browsers.value);
      var summary := Summary(from, to, granularity, [], [],
                             reader.referrers.value, reader.countries.value, reader.oses.value, byBrowser);
      match granularity {
        case Day =>
          if reader.daily.Err? {
            return Err(ReadFailed);
          }
          summary := summary.(daily := reader.daily.value);
        case Hour =>
          if reader.hourly.Err? {
            return Err(ReadFailed);
          }
          GroupByConserves(events, HourLabel, reader.hourly.value);
          summary := summary.(hourly := reader.hourly.value);
        case Unknown =>
          return Err(InvalidGranularity);
      }
      return Ok(summary);
    }
  }

  // ----- Breakdowns conserve clicks -----

  lemma LabelledAfterRemoval<K>(events: set<ClickEvent>, tag: ClickEvent -> K, removed: K, key: K)
    requires key != removed
    ensures Labelled(events - Labelled(events, tag, removed), tag, key) == Labelled(events, tag, key)
  {
  }

  /** Lines that count no more than their own events count no more than all events together. */
  lemma {:induction false} LinesWithinEvents<K>(events: set<ClickEvent>, tag: ClickEvent -> K, lines: seq<Line<K>>)
    requires DistinctKeys(lines)
    requires forall i :: 0 <= i < |lines| ==> lines[i].clicks <= |Labelled(events, tag, lines[i].key)|
    ensures Sum(lines) <= |events|
    decreases |lines|
  {
    if lines != [] {
      var n := |lines| - 1;
      var group := Labelled(events, tag, lines[n].key);
      forall i | 0 <= i < n ensures lines[..n][i].clicks <= |Labelled(events - group, tag, lines[..n][i].key)| {
        LabelledAfterRemoval(events, tag, lines[n].key, lines[i].key);
      }
      LinesWithinEvents(events - group, tag, lines[..n]);
      assert |events - group| == |events| - |group|;
    }
  }

  /** Lines that cover every event and count their own exactly total all events. */
  lemma {:induction false} LinesCountEvents<K>(events: set<ClickEvent>, tag: ClickEvent -> K, lines: seq<Line<K>>)
    requires DistinctKeys(lines) && Covers(events, tag, lines)
    requires forall i :: 0 <= i < |lines| ==> lines[i].clicks == |Labelled(events, tag, lines[i].key)|
    ensures Sum(lines) == |events|
    decreases |lines|
  {
    if lines == [] {
      assert events == {};
    } else {
      var n := |lines| - 1;
      var group := Labelled(events, tag, lines[n].key);
      forall i | 0 <= i < n ensures lines[..n][i].clicks == |Labelled(events - group, tag, lines[..n][i].key)| {
        LabelledAfterRemoval(events, tag, lines[n].key, lines[i].key);
      }
      forall ev | ev in events - group ensures exists i :: 0 <= i < n && lines[..n][i].key == tag(ev) {
        var i :| 0 <= i < |lines| && lines[i].key == tag(ev);
        assert lines[..n][i].key == tag(ev);
      }
      LinesCountEvents(events - group, tag, lines[..n]);
      assert |events - group| == |events| - |group|;
    }
  }

  lemma GroupByConserves<K>(events: set<ClickEvent>, tag: ClickEvent -> K, lines: seq<Line<K>>)
    requires IsGroupBy(events, tag, lines)
    ensures Sum(lines) == |events|
  {
    LinesCountEvents(events, tag, lines);
  }

  lemma LineOf<K>(events: set<ClickEvent>, tag: ClickEvent -> K, lines: seq<Line<K>>, ev: ClickEvent,
                  same: set<ClickEvent>)
    requires IsGroupBy(events, tag, lines) && ev in events
    requires forall e :: e in same <==> e in events && tag(e) == tag(ev)
    ensures Line(tag(ev), |same|) in lines
  {
    assert same == Labelled(events, tag, tag(ev));
    var i :| 0 <= i < |lines| && lines[i].key == tag(ev);
    assert lines[i] == Line(tag(ev), |same|);
  }

  /** A breakdown has, for each of its keys, a line with the number of this url's events in the range that share it. */
  lemma BreakdownsCountTheirKeys(r: Reader, table: set<ClickEvent>, daily: Daily, url: Url, from: Instant, to: Instant,
                                 ev: ClickEvent)
    requires ReaderContract(r, table, daily, url, from, to)
    requires ev in table && ev.url == url && from <= ev.clickedAt < to
    ensures var mine := set e | e in table && e.url == url && from <= e.clickedAt < to;
      && (r.referrers.Ok? ==>
            Line(ev.referrerHost, |set e | e in mine && e.referrerHost == ev.referrerHost|) in r.referrers.value)
      && (r.countries.Ok? ==> Line(ev.country, |set e | e in mine && e.country == ev.country|) in r.countries.value)
      && (r.oses.Ok? ==> Line(ev.os, |set e | e in mine && e.os == ev.os|) in r.oses.value)
      && (r.browsers.Ok? ==> Line(ev.browser, |set e | e in mine && e.browser == ev.browser|) in r.browsers.value)
  {
    var mine := InRange(table, url, from, to);
    assert mine == set e | e in table && e.url == url && from <= e.clickedAt < to;
    if r.referrers.Ok? {
      LineOf(mine, Referrer, r.referrers.value, ev, set e | e in mine && e.referrerHost == ev.referrerHost);
    }
    if r.countries.Ok? {
      LineOf(mine, Country, r.countries.value, ev, set e | e in mine && e.country == ev.country);
    }
    if r.oses.Ok? {
      LineOf(mine, Os, r.oses.value, ev, set e | e in mine && e.os == ev.os);
    }
    if r.browsers.Ok? {
      LineOf(mine, Browser, r.browsers.value, ev, set e | e in mine && e.browser == ev.browser);
    }
  }

  // ----- The daily series against the events -----

  function Table(rows: Rows): set<ClickEvent> {
    set rk | rk in rows :: rows[rk]
  }

  ghost predicate KeyedByEvent(rows: Rows) {
    forall rk :: rk in rows ==> RowKeyOf(rows[rk]) == rk
  }

  predicate DayAligned(t: Instant) {
    t % NANOSECONDS_PER_DAY == 0
  }

  /** Over whole days, one day's events in the range are the rows the rollup counts for that day. */
  lemma EventsOfDay(rows: Rows, url: Url, from: Instant, to: Instant, day: int)
    requires KeyedByEvent(rows) && DayAligned(from) && DayAligned(to) && DayOf(from) <= day < DayOf(to)
    ensures |Labelled(InRange(Table(rows), url, from, to), DayLabel, day)| == Count(rows, DailyKey(url, day))
  {
    var events := Labelled(InRange(Table(rows), url, from, to), DayLabel, day);
    var keys := RowsOn(rows, DailyKey(url, day));
    forall ev ensures ev in events <==> RowKeyOf(ev) in keys && rows[RowKeyOf(ev)] == ev {
      if RowKeyOf(ev) in keys && rows[RowKeyOf(ev)] == ev {
        DayBounds(ev.clickedAt, from, to);
      }
    }
    SameSize(rows, events, keys);
  }

  lemma DayBounds(t: Instant, from: Instant, to: Instant)
    requires DayAligned(from) && DayAligned(to) && DayOf(from) <= DayOf(t) < DayOf(to)
    ensures from <= t < to
  {
  }

  lemma {:induction false} SameSize(rows: Rows, events: set<ClickEvent>, keys: set<RowKey>)
    requires forall ev :: ev in events ==> RowKeyOf(ev) in keys
    requires forall rk :: rk in keys ==> rk in rows && rows[rk] in events && RowKeyOf(rows[rk]) == rk
    requires forall ev :: ev in events ==> RowKeyOf(ev) in rows && rows[RowKeyOf(ev)] == ev
    ensures |events| == |keys|
    decreases keys
  {
    if keys == {} {
      assert events == {};
    } else {
      var rk :| rk in keys;
      SameSize(rows, events - {rows[rk]}, keys - {rk});
    }
  }

  /** If no day's rollup exceeds its rows, the daily series never totals more than the events in range. */
  lemma DailyWithinEvents(rows: Rows, daily: Daily, url: Url, from: Instant, to: Instant, lines: seq<Line<int>>)
    requires KeyedByEvent(rows) && DayAligned(from) && DayAligned(to) && IsDailyList(daily, url, from, to, lines)
    requires forall key :: Total(daily, key) <= Count(rows, key)
    ensures Sum(lines) <= |InRange(Table(rows), url, from, to)|
  {
    var events := InRange(Table(rows), url, from, to);
    forall i | 0 <= i < |lines| ensures lines[i].clicks <= |Labelled(events, DayLabel, lines[i].key)| {
      EventsOfDay(rows, url, from, to, lines[i].key);
      assert Total(daily, DailyKey(url, lines[i].key)) <= Count(rows, DailyKey(url, lines[i].key));
    }
    LinesWithinEvents(events, DayLabel, lines);
  }

  /** If every day's rollup equals its rows, the daily series totals exactly the events in range. */
  lemma DailyEqualsEvents(rows: Rows, daily: Daily, url: Url, from: Instant, to: Instant, lines: seq<Line<int>>)
    requires KeyedByEvent(rows) && DayAligned(from) && DayAligned(to) && IsDailyList(daily, url, from, to, lines)
    requires forall key :: Total(daily, key) == Count(rows, key)
    ensures Sum(lines) == |InRange(Table(rows), url, from, to)|
  {
    var events := InRange(Table(rows), url, from, to);
    forall i | 0 <= i < |lines| ensures lines[i].clicks == |Labelled(events, DayLabel, lines[i].key)| {
      EventsOfDay(rows, url, from, to, lines[i].key);
      assert Total(daily, DailyKey(url, lines[i].key)) == Count(rows, DailyKey(url, lines[i].key));
    }
    forall ev | ev in events ensures exists i :: 0 <= i < |lines| && lines[i].key == DayLabel(ev) {
      var key := DailyKey(url, DayOf(ev.clickedAt));
      DayWithin(ev.clickedAt, from, to);
      EventsOfDay(rows, url, from, to, key.day);
      assert ev in Labelled(events, DayLabel, key.day);
      assert Total(daily, key) == Count(rows, key);
    }
    LinesCountEvents(events, DayLabel, lines);
  }

  lemma DayWithin(t: Instant, from: Instant, to: Instant)
    requires DayAligned(from) && DayAligned(to) && from <= t < to
    ensures DayOf(from) <= DayOf(t) < DayOf(to)
  {
  }

  // ----- Against everything the pipeline can produce -----

  /** The sum of a url's counts over the days from `lo` up to, not including, `hi`. */
  function OverDays(count: DailyKey -> nat, url: Url, lo: int, hi: int): nat
    decreases hi - lo
  {
    if hi <= lo then 0 else OverDays(count, url, lo, hi - 1) + count(DailyKey(url, hi - 1))
  }

  function TotalsOf(daily: Daily): DailyKey -> nat {
    key => Total(daily, key)
  }

  function CountsOf(rows: Rows): DailyKey -> nat {
    key => Count(rows, key)
  }

  function MissingOf(s: ClickPipeline.State): DailyKey -> nat {
    key => ClickPipeline.Held(s.calls, key) + Total(s.lost, key)
  }

  lemma {:induction false} OverDaysSplits(a: DailyKey -> nat, b: DailyKey -> nat, c: DailyKey -> nat,
                                          d: DailyKey -> nat, url: Url, lo: int, hi: int)
    requires forall key :: a(key) + b(key) == c(key) + d(key)
    ensures OverDays(a, url, lo, hi) + OverDays(b, url, lo, hi) == OverDays(c, url, lo, hi) + OverDays(d, url, lo, hi)
    decreases hi - lo
  {
    if lo < hi {
      OverDaysSplits(a, b, c, d, url, lo, hi - 1);
      assert a(DailyKey(url, hi - 1)) + b(DailyKey(url, hi - 1)) == c(DailyKey(url, hi - 1)) + d(DailyKey(url, hi - 1));
    }
  }

  /** A daily list as it reads for the days before `hi`. */
  ghost predicate IsDailyListTo(daily: Daily, url: Url, lo: int, hi: int, lines: seq<Line<int>>) {
    && (forall i, j :: 0 <= i < j < |lines| ==> lines[i].key < lines[j].key)
    && (forall i :: 0 <= i < |lines| ==>
          var key := DailyKey(url, lines[i].key);
          lo <= lines[i].key < hi && key in daily && lines[i].clicks == daily[key])
    && (forall day :: lo <= day < hi && DailyKey(url, day) in daily ==> exists i :: 0 <= i < |lines| && lines[i].key == day)
  }

  /** The daily series totals the rollup over the range's days. */
  lemma {:induction false} SeriesTotalsRollup(daily: Daily, url: Url, lo: int, hi: int, lines: seq<Line<int>>)
    requires IsDailyListTo(daily, url, lo, hi, lines)
    ensures Sum(lines) == OverDays(TotalsOf(daily), url, lo, hi)
    decreases hi - lo
  {
    if hi <= lo {
      assert lines == [];
    } else if DailyKey(url, hi - 1) in daily {
      LastDayIsLast(daily, url, lo, hi, lines);
      SeriesTotalsRollup(daily, url, lo, hi - 1, lines[..|lines| - 1]);
    } else {
      WithoutLastDay(daily, url, lo, hi, lines);
      SeriesTotalsRollup(daily, url, lo, hi - 1, lines);
    }
  }

  lemma WithoutLastDay(daily: Daily, url: Url, lo: int, hi: int, lines: seq<Line<int>>)
    requires IsDailyListTo(daily, url, lo, hi, lines) && DailyKey(url, hi - 1) !in daily
    ensures IsDailyListTo(daily, url, lo, hi - 1, lines)
  {
    forall i | 0 <= i < |lines| ensures lines[i].key < hi - 1 {
      assert DailyKey(url, lines[i].key) in daily;
    }
  }

  lemma LastDayIsLast(daily: Daily, url: Url, lo: int, hi: int, lines: seq<Line<int>>)
    requires lo < hi && IsDailyListTo(daily, url, lo, hi, lines) && DailyKey(url, hi - 1) in daily
    ensures lines != [] && lines[|lines| - 1] == Line(hi - 1, daily[DailyKey(url, hi - 1)])
    ensures IsDailyListTo(daily, url, lo, hi - 1, lines[..|lines| - 1])
  {
    var i :| 0 <= i < |lines| && lines[i].key == hi - 1;
    var n := |lines| - 1;
    assert lines[i].key <= lines[n].key;
    forall day | lo <= day < hi - 1 && DailyKey(url, day) in daily
      ensures exists j :: 0 <= j < n && lines[..n][j].key == day
    {
      var j :| 0 <= j < |lines| && lines[j].key == day;
      assert lines[..n][j].key == day;
    }
  }

  /** Over whole days, the events in range are the rows counted day by day. */
  lemma {:induction false} EventsDayByDay(rows: Rows, url: Url, from: Instant, to: Instant, hi: int)
    requires KeyedByEvent(rows) && DayAligned(from) && DayAligned(to) && DayOf(from) <= hi <= DayOf(to)
    ensures |BeforeDay(InRange(Table(rows), url, from, to), hi)| == OverDays(CountsOf(rows), url, DayOf(from), hi)
    decreases hi - DayOf(from)
  {
    var events := InRange(Table(rows), url, from, to);
    if hi == DayOf(from) {
      forall ev | ev in events ensures DayOf(ev.clickedAt) >= hi {
        DayWithin(ev.clickedAt, from, to);
      }
      assert BeforeDay(events, hi) == {};
    } else {
      var last := Labelled(events, DayLabel, hi - 1);
      EventsDayByDay(rows, url, from, to, hi - 1);
      EventsOfDay(rows, url, from, to, hi - 1);
      assert BeforeDay(events, hi) == BeforeDay(events, hi - 1) + last;
      assert BeforeDay(events, hi - 1) !! last;
    }
  }

  function BeforeDay(events: set<ClickEvent>, day: int): set<ClickEvent> {
    set ev | ev in events && DayOf(ev.clickedAt) < day
  }

  lemma EventsOverDays(rows: Rows, url: Url, from: Instant, to: Instant)
    requires KeyedByEvent(rows) && DayAligned(from) && DayAligned(to) && from <= to
    ensures |InRange(Table(rows), url, from, to)| == OverDays(CountsOf(rows), url, DayOf(from), DayOf(to))
  {
    var events := InRange(Table(rows), url, from, to);
    EventsDayByDay(rows, url, from, to, DayOf(to));
    forall ev | ev in events ensures DayOf(ev.clickedAt) < DayOf(to) {
      DayWithin(ev.clickedAt, from, to);
    }
    assert BeforeDay(events, DayOf(to)) == events;
  }

  /** What the range's days had before the first click, from an import. */
  function Baseline(base: Daily, url: Url, from: Instant, to: Instant): nat {
    OverDays(TotalsOf(base), url, DayOf(from), DayOf(to))
  }

  /** Clicks of the range's days that calls in progress still hold, or that calls cut off have dropped. */
  function Missing(s: ClickPipeline.State, url: Url, from: Instant, to: Instant): nat {
    OverDays(MissingOf(s), url, DayOf(from), DayOf(to))
  }

  /** On every run and over whatever baseline, the daily series and the breakdowns differ by exactly the
      imported clicks on one side and the missing ones on the other. */
  lemma SeriesAgainstEvents(workers: nat, base: Daily, actions: seq<ClickPipeline.Action>, url: Url, from: Instant,
                            to: Instant, lines: seq<Line<int>>)
    requires DayAligned(from) && DayAligned(to) && from <= to
    requires IsDailyList(ClickPipeline.Run(ClickPipeline.Init(workers, base), actions).daily, url, from, to, lines)
    ensures var s := ClickPipeline.Run(ClickPipeline.Init(workers, base), actions);
      Sum(lines) + Missing(s, url, from, to) == |InRange(Table(s.rows), url, from, to)| + Baseline(base, url, from, to)
  {
    var s := ClickPipeline.Run(ClickPipeline.Init(workers, base), actions);
    var lo, hi := DayOf(from), DayOf(to);
    ClickPipeline.DeliveryInvRun(workers, base, actions);
    SeriesTotalsRollup(s.daily, url, lo, hi, lines);
    EventsOverDays(s.rows, url, from, to);
    forall key ensures TotalsOf(s.daily)(key) + MissingOf(s)(key) == CountsOf(s.rows)(key) + TotalsOf(base)(key) {
      ClickPipeline.RollupDeficit(workers, base, actions, key);
    }
    OverDaysSplits(TotalsOf(s.daily), MissingOf(s), CountsOf(s.rows), TotalsOf(base), url, lo, hi);
  }

  /** So the daily series claims no more clicks than the breakdowns if and only if no more were imported into the
      range than are missing from it, and the two agree if and only if these are as many. */
  lemma PipelineStatsAreConsistent(workers: nat, base: Daily, actions: seq<ClickPipeline.Action>, url: Url,
                                   from: Instant, to: Instant, lines: seq<Line<int>>)
    requires DayAligned(from) && DayAligned(to) && from <= to
    requires IsDailyList(ClickPipeline.Run(ClickPipeline.Init(workers, base), actions).daily, url, from, to, lines)
    ensures var s := ClickPipeline.Run(ClickPipeline.Init(workers, base), actions);
      var events := |InRange(Table(s.rows), url, from, to)|;
      var imported, missing := Baseline(base, url, from, to), Missing(s, url, from, to);
      && (Sum(lines) <= events <==> imported <= missing)
      && (Sum(lines) == events <==> imported == missing)
  {
    SeriesAgainstEvents(workers, base, actions, url, from, to, lines);
  }

  lemma {:induction false} OverDaysOfNothing(count: DailyKey -> nat, url: Url, lo: int, hi: int)
    requires forall key :: count(key) == 0
    ensures OverDays(count, url, lo, hi) == 0
    decreases hi - lo
  {
    if lo < hi {
      OverDaysOfNothing(count, url, lo, hi - 1);
    }
  }

  /** Without an import the daily series never exceeds the breakdowns, and equals them when no call was cut off
      part-way and none is running. */
  lemma NativeStatsAreConsistent(workers: nat, actions: seq<ClickPipeline.Action>, url: Url, from: Instant, to: Instant,
                                 lines: seq<Line<int>>)
    requires DayAligned(from) && DayAligned(to) && from <= to
    requires IsDailyList(ClickPipeline.Run(ClickPipeline.Init(workers, map[]), actions).daily, url, from, to, lines)
    ensures var s := ClickPipeline.Run(ClickPipeline.Init(workers, map[]), actions);
      && Sum(lines) <= |InRange(Table(s.rows), url, from, to)|
      && (ClickPipeline.Quiet(s) && (forall key :: Total(s.lost, key) == 0) ==>
            Sum(lines) == |InRange(Table(s.rows), url, from, to)|)
  {
    var s := ClickPipeline.Run(ClickPipeline.Init(workers, map[]), actions);
    SeriesAgainstEvents(workers, map[], actions, url, from, to, lines);
    OverDaysOfNothing(TotalsOf(map[]), url, DayOf(from), DayOf(to));
    if ClickPipeline.Quiet(s) && forall key :: Total(s.lost, key) == 0 {
      NothingMissing(s, url, from, to);
    }
  }

  lemma NothingMissing(s: ClickPipeline.State, url: Url, from: Instant, to: Instant)
    requires ClickPipeline.Quiet(s) && forall key :: Total(s.lost, key) == 0
    ensures Missing(s, url, from, to) == 0
  {
    forall key ensures MissingOf(s)(key) == 0 {
      ClickPipeline.HeldOfIdle(s.calls, key);
      assert Total(s.lost, key) == 0;
    }
    OverDaysOfNothing(MissingOf(s), url, DayOf(from), DayOf(to));
  }

  /** The failing input: an imported total of one day, and no click at all. */
  lemma ImportedTotalsExceedEvents(url: Url, total: nat)
    requires total > 0
    ensures var base := map[DailyKey(url, 0) := total];
      var s := ClickPipeline.Run(ClickPipeline.Init(1, base), []);
      && IsDailyList(s.daily, url, 0, NANOSECONDS_PER_DAY, [Line(0, total)])
      && Sum([Line(0, total)]) > |InRange(Table(s.rows), url, 0, NANOSECONDS_PER_DAY)|
  {
    assert [Line(0, total)][..0] == [];
    assert [Line(0, total)][0].key == 0;
    assert InRange(Table(map[]), url, 0, NANOSECONDS_PER_DAY) == {};
  }
}
