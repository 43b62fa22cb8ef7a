/** The click_events table, its day rollup, and the decoding of stream entries. */
module ClickEvents {
  import opened Basics

  type Url = nat

  /** Nanoseconds since the Unix epoch. */
  type Instant = int

  const NANOSECONDS_PER_DAY := 86_400_000_000_000

  /** The UTC calendar day of an instant; division rounds down before the epoch too, as Truncate does. */
  function DayOf(t: Instant): int {
    t / NANOSECONDS_PER_DAY
  }

  /** One stream entry as cmd/redirect pushes it. A field that is missing or does not parse is None. */
  datatype Message = Message(
    shortUrlId: Option<Url>,
    clickedAt: Option<Instant>,
    referrerHost: string,
    country: string,
    os: string,
    browser: string)

  datatype ClickEvent = ClickEvent(
    streamId: nat,
    url: Url,
    clickedAt: Instant,
    referrerHost: string,
    country: string,
    os: string,
    browser: string)

  datatype ParseError = InvalidShortUrlId | InvalidClickedAt

  function ParseClickEvent(id: nat, msg: Message): (r: Result<ClickEvent, ParseError>)
    ensures r.Ok? <==> msg.shortUrlId.Some? && msg.clickedAt.Some?
    ensures r == Err(InvalidShortUrlId) <==> msg.shortUrlId.None?
    ensures r == Err(InvalidClickedAt) <==> msg.shortUrlId.Some? && msg.clickedAt.None?
    ensures r.Ok? ==>
              && r.value.streamId == id && Some(r.value.url) == msg.shortUrlId && Some(r.value.clickedAt) == msg.clickedAt
              && r.value.referrerHost == msg.referrerHost && r.value.country == msg.country
              && r.value.os == msg.os && r.value.browser == msg.browser
  {
    if msg.shortUrlId.None? then Err(InvalidShortUrlId)
    else if msg.clickedAt.None? then Err(InvalidClickedAt)
    else Ok(ClickEvent(id, msg.shortUrlId.value, msg.clickedAt.value,
                       msg.referrerHost, msg.country, msg.os, msg.browser))
  }

  /** The unique index of click_events: (clicked_at, stream_id). */
  datatype RowKey = RowKey(clickedAt: Instant, streamId: nat)

  datatype DailyKey = DailyKey(url: Url, day: int)

  type Rows = map<RowKey, ClickEvent>
  type Daily = map<DailyKey, nat>

  function RowKeyOf(ev: ClickEvent): RowKey {
    RowKey(ev.clickedAt, ev.streamId)
  }

  function DailyKeyOf(ev: ClickEvent): DailyKey {
    DailyKey(ev.url, DayOf(ev.clickedAt))
  }

  /** Two events collide exactly when both halves of the index agree, and count together exactly when url and UTC
      day do. */
  lemma KeysIff(a: ClickEvent, b: ClickEvent)
    ensures RowKeyOf(a) == RowKeyOf(b) <==> a.clickedAt == b.clickedAt && a.streamId == b.streamId
    ensures DailyKeyOf(a) == DailyKeyOf(b) <==> a.url == b.url && DayOf(a.clickedAt) == DayOf(b.clickedAt)
  {
  }

  lemma DayIff(t: Instant, day: int)
    ensures DayOf(t) == day <==> day * (24 * 60 * 60 * 1_000_000_000) <= t < (day + 1) * (24 * 60 * 60 * 1_000_000_000)
  {
  }

  /** INSERT ... ON CONFLICT (clicked_at, stream_id) DO NOTHING. */
  function InsertRow(rows: Rows, ev: ClickEvent): Rows {
    if RowKeyOf(ev) in rows then rows else rows[RowKeyOf(ev) := ev]
  }

  function InsertAll(rows: Rows, events: seq<ClickEvent>): Rows {
    if events == [] then rows
    else InsertRow(InsertAll(rows, events[..|events| - 1]), events[|events| - 1])
  }

  /** INSERT ... ON CONFLICT DO UPDATE SET click_count = click_count + delta. */
  function AddCount(daily: Daily, key: DailyKey, delta: nat): Daily {
    daily[key := Total(daily, key) + delta]
  }

  function Total(daily: Daily, key: DailyKey): nat {
    if key in daily then daily[key] else 0
  }

  function RowsOn(rows: Rows, key: DailyKey): set<RowKey> {
    set rk | rk in rows && DailyKeyOf(rows[rk]) == key
  }

  /** How many recorded clicks a url has on a day. */
  function Count(rows: Rows, key: DailyKey): nat {
    |RowsOn(rows, key)|
  }

  ghost predicate NoZeroes(daily: Daily) {
    forall key :: key in daily ==> daily[key] > 0
  }

  lemma CountAfterInsert(rows: Rows, ev: ClickEvent, key: DailyKey)
    ensures Count(InsertRow(rows, ev), key) ==
            Count(rows, key) + (if RowKeyOf(ev) !in rows && DailyKeyOf(ev) == key then 1 else 0)
  {
    var rk := RowKeyOf(ev);
    if rk !in rows {
      var after := InsertRow(rows, ev);
      if DailyKeyOf(ev) == key {
        assert RowsOn(after, key) == RowsOn(rows, key) + {rk};
      } else {
        assert RowsOn(after, key) == RowsOn(rows, key);
      }
    }
  }

  /** Inserting keeps every old row, and adds only rows that come from the given events. */
  lemma {:induction false} InsertAllExtends(rows: Rows, events: seq<ClickEvent>)
    ensures forall rk :: rk in rows ==> rk in InsertAll(rows, events) && InsertAll(rows, events)[rk] == rows[rk]
    ensures forall rk :: rk in InsertAll(rows, events) && rk !in rows ==>
              InsertAll(rows, events)[rk] in events && RowKeyOf(InsertAll(rows, events)[rk]) == rk
    ensures forall ev :: ev in events ==> RowKeyOf(ev) in InsertAll(rows, events)
  {
    if events != [] {
      var n := |events| - 1;
      InsertAllExtends(rows, events[..n]);
      assert events == events[..n] + [events[n]];
    }
  }

  lemma InsertAllStep(rows: Rows, events: seq<ClickEvent>, i: nat)
    requires i < |events|
    ensures InsertAll(rows, events[..i + 1]) == InsertRow(InsertAll(rows, events[..i]), events[i])
  {
    assert events[..i + 1][..i] == events[..i];
  }
}
