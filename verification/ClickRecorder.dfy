/** internal/stats/click_recorder.go and the batch half of cmd/worker/consumer.go. */
module ClickRecorder {
  import opened Basics
  import opened ClickEvents

  /** The two tables behind the Store port. `faults` scripts how the coming calls end. */
  class ClickStore {
    var rows: Rows
    var daily: Daily
    var faults: seq<Fault>

    method TakeFault() returns (f: Fault)
      modifies this`faults
      ensures f == NextFault(old(faults)) && faults == LaterFaults(old(faults))
    {
      f := NextFault(faults);
      faults := LaterFaults(faults);
    }

    method InsertClickEvent(ev: ClickEvent) returns (inserted: bool, err: bool)
      modifies this`rows, this`faults
      ensures (err <==> NextFault(old(faults)) != NoFault) && faults == LaterFaults(old(faults))
      ensures rows == if NextFault(old(faults)).TookEffect() then InsertRow(old(rows), ev) else old(rows)
      ensures inserted <==> !err && RowKeyOf(ev) !in old(rows)
    {
      var f := TakeFault();
      err := f != NoFault;
      inserted := !err && RowKeyOf(ev) !in rows;
      if f.TookEffect() {
        rows := InsertRow(rows, ev);
      }
    }

    method UpsertDailyCount(key: DailyKey, delta: nat) returns (err: bool)
      modifies this`daily, this`faults
      ensures (err <==> NextFault(old(faults)) != NoFault) && faults == LaterFaults(old(faults))
      ensures daily == if NextFault(old(faults)).TookEffect() then AddCount(old(daily), key, delta) else old(daily)
    {
      var f := TakeFault();
      err := f != NoFault;
      if f.TookEffect() {
        daily := AddCount(daily, key, delta);
      }
    }
  }

  /** `deltas` is exactly what the rows gained since rows0, per url and day. */
  ghost predicate Gained(rows0: Rows, rows: Rows, deltas: Daily) {
    NoZeroes(deltas) && forall key :: Count(rows, key) == Count(rows0, key) + Total(deltas, key)
  }

  lemma GainedByInsert(rows0: Rows, rows: Rows, deltas: Daily, ev: ClickEvent)
    requires Gained(rows0, rows, deltas)
    ensures RowKeyOf(ev) !in rows ==> Gained(rows0, InsertRow(rows, ev), AddCount(deltas, DailyKeyOf(ev), 1))
    ensures RowKeyOf(ev) in rows ==> Gained(rows0, InsertRow(rows, ev), deltas)
  {
    forall key {
      CountAfterInsert(rows, ev, key);
    }
  }

  /** Each delta has been added to the rollup whole, or is still pending. */
  ghost predicate PartlyAdded(daily0: Daily, daily: Daily, deltas: Daily, pending: Daily) {
    && (forall key :: key in pending ==> key in deltas && pending[key] == deltas[key])
    && daily.Keys == daily0.Keys + (deltas.Keys - pending.Keys)
    && (forall key :: Total(daily, key) == Total(daily0, key) + (if key in pending then 0 else Total(deltas, key)))
  }

  lemma PartlyAddedByUpsert(daily0: Daily, daily: Daily, deltas: Daily, pending: Daily, key: DailyKey)
    requires PartlyAdded(daily0, daily, deltas, pending) && key in pending
    ensures PartlyAdded(daily0, AddCount(daily, key, pending[key]), deltas, pending - {key})
  {
    var daily', pending' := AddCount(daily, key, pending[key]), pending - {key};
    forall k ensures Total(daily', k) == Total(daily0, k) + (if k in pending' then 0 else Total(deltas, k)) {
      assert Total(daily, k) == Total(daily0, k) + (if k in pending then 0 else Total(deltas, k));
    }
    assert daily'.Keys == daily.Keys + {key};
  }

  /** Everything one call can do to the two tables: it inserts the first n events and, once all are in, adds
      some of the deltas they make, each whole; all events and all deltas if it reports no error. */
  ghost predicate BatchOutcome(rows0: Rows, rows: Rows, daily0: Daily, daily: Daily, events: seq<ClickEvent>,
                               err: bool) {
    exists n: nat, deltas: Daily, pending: Daily ::
      OutcomeWith(rows0, rows, daily0, daily, events, err, n, deltas, pending)
  }

  ghost predicate OutcomeWith(rows0: Rows, rows: Rows, daily0: Daily, daily: Daily, events: seq<ClickEvent>, err: bool,
                              n: nat, deltas: Daily, pending: Daily)
  {
    && n <= |events|
    && rows == InsertAll(rows0, events[..n])
    && Gained(rows0, rows, deltas)
    && PartlyAdded(daily0, daily, deltas, pending)
    && (n < |events| ==> err && pending == deltas)
    && (!err ==> pending == map[])
  }

  /** What RecordBatch leaves behind however it ends: no key counted beyond the rows gained, none lowered. */
  ghost predicate NeverOvercounts(rows0: Rows, rows: Rows, daily0: Daily, daily: Daily) {
    forall key :: 0 <= Total(daily, key) - Total(daily0, key) <= Count(rows, key) - Count(rows0, key)
  }

  ghost predicate CountsExactly(rows0: Rows, rows: Rows, daily0: Daily, daily: Daily) {
    forall key :: Total(daily, key) - Total(daily0, key) == Count(rows, key) - Count(rows0, key)
  }

  lemma GainedNeverOvercounts(rows0: Rows, rows: Rows, daily0: Daily, daily: Daily, deltas: Daily, pending: Daily)
    requires Gained(rows0, rows, deltas) && PartlyAdded(daily0, daily, deltas, pending)
    ensures NeverOvercounts(rows0, rows, daily0, daily)
    ensures pending == map[] ==> CountsExactly(rows0, rows, daily0, daily)
  {
    forall key
      ensures 0 <= Total(daily, key) - Total(daily0, key) <= Count(rows, key) - Count(rows0, key)
      ensures pending == map[] ==> Total(daily, key) - Total(daily0, key) == Count(rows, key) - Count(rows0, key)
    {
      assert Count(rows, key) == Count(rows0, key) + Total(deltas, key);
      assert Total(daily, key) == Total(daily0, key) + (if key in pending then 0 else Total(deltas, key));
    }
  }

  /** However a call ends, each (url, day) count grows by at most the rows gained, and by exactly that when it
      reports no error, with every event stored; and no key enters the rollup at zero. */
  lemma OutcomeNeverOvercounts(rows0: Rows, rows: Rows, daily0: Daily, daily: Daily, events: seq<ClickEvent>, err: bool)
    requires BatchOutcome(rows0, rows, daily0, daily, events, err)
    ensures NeverOvercounts(rows0, rows, daily0, daily)
    ensures !err ==> CountsExactly(rows0, rows, daily0, daily) && forall ev :: ev in events ==> RowKeyOf(ev) in rows
    ensures forall key :: key in daily && key !in daily0 ==> daily[key] > 0
    ensures forall rk :: rk in rows0 ==> rk in rows && rows[rk] == rows0[rk]
  {
    var n: nat, deltas, pending :| OutcomeWith(rows0, rows, daily0, daily, events, err, n, deltas, pending);
    InsertAllExtends(rows0, events[..n]);
    GainedNeverOvercounts(rows0, rows, daily0, daily, deltas, pending);
    forall key | key in daily && key !in daily0 ensures daily[key] > 0 {
      assert Total(daily, key) == Total(daily0, key) + (if key in pending then 0 else Total(deltas, key));
    }
    if !err {
      assert events[..n] == events;
    }
  }

  /** The first n events are in, and `deltas` is what they made. */
  ghost predicate InsertedSoFar(rows0: Rows, rows: Rows, events: seq<ClickEvent>, n: nat, deltas: Daily) {
    n <= |events| && rows == InsertAll(rows0, events[..n]) && Gained(rows0, rows, deltas)
  }

  /** All events are in, and `pending` is what is left of their deltas. */
  ghost predicate AddedSoFar(rows0: Rows, rows: Rows, daily0: Daily, daily: Daily, events: seq<ClickEvent>,
                             pending: Daily) {
    exists deltas :: InsertedSoFar(rows0, rows, events, |events|, deltas) && PartlyAdded(daily0, daily, deltas, pending)
  }

  lemma NothingInserted(rows: Rows, events: seq<ClickEvent>)
    ensures InsertedSoFar(rows, rows, events, 0, map[])
  {
  }

  lemma InsertedOneMore(rows0: Rows, rows: Rows, events: seq<ClickEvent>, n: nat, deltas: Daily)
    requires n < |events| && InsertedSoFar(rows0, rows, events, n, deltas)
    ensures var ev := events[n];
      InsertedSoFar(rows0, InsertRow(rows, ev), events, n + 1,
                    if RowKeyOf(ev) !in rows then AddCount(deltas, DailyKeyOf(ev), 1) else deltas)
  {
    InsertAllStep(rows0, events, n);
    GainedByInsert(rows0, rows, deltas, events[n]);
  }

  lemma NothingAdded(rows0: Rows, rows: Rows, daily: Daily, events: seq<ClickEvent>, deltas: Daily)
    requires InsertedSoFar(rows0, rows, events, |events|, deltas)
    ensures AddedSoFar(rows0, rows, daily, daily, events, deltas)
  {
    assert PartlyAdded(daily, daily, deltas, deltas);
  }

  lemma AddedOneMore(rows0: Rows, rows: Rows, daily0: Daily, daily: Daily, events: seq<ClickEvent>, pending: Daily,
                     key: DailyKey)
    requires AddedSoFar(rows0, rows, daily0, daily, events, pending) && key in pending
    ensures AddedSoFar(rows0, rows, daily0, AddCount(daily, key, pending[key]), events, pending - {key})
  {
    var deltas :| InsertedSoFar(rows0, rows, events, |events|, deltas) && PartlyAdded(daily0, daily, deltas, pending);
    PartlyAddedByUpsert(daily0, daily, deltas, pending, key);
  }

  /** A call that ends while inserting has done as much. */
  lemma EndsInserting(rows0: Rows, rows: Rows, daily: Daily, events: seq<ClickEvent>, n: nat, deltas: Daily)
    requires InsertedSoFar(rows0, rows, events, n, deltas)
    ensures BatchOutcome(rows0, rows, daily, daily, events, true)
  {
    assert OutcomeWith(rows0, rows, daily, daily, events, true, n, deltas, deltas);
  }

  lemma EndsAdding(rows0: Rows, rows: Rows, daily0: Daily, daily: Daily, events: seq<ClickEvent>, pending: Daily,
                   err: bool)
    requires AddedSoFar(rows0, rows, daily0, daily, events, pending) && (err || pending == map[])
    ensures BatchOutcome(rows0, rows, daily0, daily, events, err)
  {
    var deltas :| InsertedSoFar(rows0, rows, events, |events|, deltas) && PartlyAdded(daily0, daily, deltas, pending);
    assert OutcomeWith(rows0, rows, daily0, daily, events, err, |events|, deltas, pending);
  }

  /** An insert that fails may have gone in, and then its click is one more dropped delta. */
  lemma InsertCutOff(rows0: Rows, before: Rows, rows: Rows, daily: Daily, events: seq<ClickEvent>, n: nat,
                     deltas: Daily)
    requires n < |events| && InsertedSoFar(rows0, before, events, n, deltas)
    requires rows == before || rows == InsertRow(before, events[n])
    ensures BatchOutcome(rows0, rows, daily, daily, events, true)
  {
    var ev := events[n];
    InsertedOneMore(rows0, before, events, n, deltas);
    if rows == before {
      EndsInserting(rows0, rows, daily, events, n, deltas);
    } else {
      var dropped := if RowKeyOf(ev) !in before then AddCount(deltas, DailyKeyOf(ev), 1) else deltas;
      EndsInserting(rows0, rows, daily, events, n + 1, dropped);
    }
  }

  /** An upsert that fails may have gone in. */
  lemma UpsertCutOff(rows0: Rows, rows: Rows, daily0: Daily, before: Daily, daily: Daily, events: seq<ClickEvent>,
                     pending: Daily, key: DailyKey)
    requires AddedSoFar(rows0, rows, daily0, before, events, pending) && key in pending
    requires daily == before || daily == AddCount(before, key, pending[key])
    ensures BatchOutcome(rows0, rows, daily0, daily, events, true)
  {
    AddedOneMore(rows0, rows, daily0, before, events, pending, key);
    EndsAdding(rows0, rows, daily0, daily, events, if daily == before then pending else pending - {key}, true);
  }

  lemma FailedSomewhere(faults: seq<Fault>, later: seq<Fault>)
    requires Follows(later, faults) && !Succeeded(faults, later)
    ensures !NoneFails(faults)
  {
  }

  class Recorder {
    const store: ClickStore

    constructor (store: ClickStore)
      ensures this.store == store
    {
      this.store := store;
    }

    /** Inserts the events one by one and counts the new ones by url and day. */
    method InsertEvents(events: seq<ClickEvent>) returns (deltas: Daily, err: bool)
      modifies store`rows, store`faults
      ensures !err ==> InsertedSoFar(old(store.rows), store.rows, events, |events|, deltas)
      ensures err ==> BatchOutcome(old(store.rows), store.rows, store.daily, store.daily, events, true)
      ensures Follows(store.faults, old(store.faults)) && (err <==> !Succeeded(old(store.faults), store.faults))
    {
      ghost var rows0, faults0 := store.rows, store.faults;
      deltas := map[];
      var i := 0;
      NothingInserted(rows0, events);
      NoCallYet(faults0);
      while i < |events|
        invariant InsertedSoFar(rows0, store.rows, events, i, deltas)
        invariant Succeeded(faults0, store.faults)
      {
        var ev := events[i];
        ghost var before := store.rows;
        OneCallMore(faults0, store.faults);
        var inserted, insertErr := store.InsertClickEvent(ev);
        if insertErr {
          InsertCutOff(rows0, before, store.rows, store.daily, events, i, deltas);
          return deltas, true;
        }
        InsertedOneMore(rows0, before, events, i, deltas);
        if inserted {
          deltas := AddCount(deltas, DailyKeyOf(ev), 1);
        }
        i := i + 1;
      }
      return deltas, false;
    }

    /** Adds the deltas in whatever order the map yields them. */
    method AddDeltas(deltas: Daily, ghost rows0: Rows, ghost events: seq<ClickEvent>) returns (err: bool)
      requires InsertedSoFar(rows0, store.rows, events, |events|, deltas)
      modifies store`daily, store`faults
      ensures BatchOutcome(rows0, store.rows, old(store.daily), store.daily, events, err)
      ensures Follows(store.faults, old(store.faults)) && (err <==> !Succeeded(old(store.faults), store.faults))
    {
      ghost var rows, daily0, faults0 := store.rows, store.daily, store.faults;
      var pending := deltas;
      NothingAdded(rows0, rows, daily0, events, deltas);
      NoCallYet(faults0);
      while pending != map[]
        invariant AddedSoFar(rows0, rows, daily0, store.daily, events, pending)
        invariant Succeeded(faults0, store.faults)
        decreases |pending|
      {
        var key :| key in pending;
        ghost var before := store.daily;
        OneCallMore(faults0, store.faults);
        var upsertErr := store.UpsertDailyCount(key, pending[key]);
        if upsertErr {
          UpsertCutOff(rows0, rows, daily0, before, store.daily, events, pending, key);
          return true;
        }
        AddedOneMore(rows0, rows, daily0, before, events, pending, key);
        pending := pending - {key};
      }
      EndsAdding(rows0, rows, daily0, store.daily, events, pending, false);
      return false;
    }

    /** Both loops in turn, up to the first store error: deltas are only added once every event is in. The call
        fails exactly if a store call of it does; if none can, every event has its row and each (url, day) count
        grows by exactly the rows gained. */
    method RecordBatch(events: seq<ClickEvent>) returns (err: bool)
      modifies store
      ensures BatchOutcome(old(store.rows), store.rows, old(store.daily), store.daily, events, err)
      ensures Follows(store.faults, old(store.faults)) && (err <==> !Succeeded(old(store.faults), store.faults))
      ensures NoneFails(old(store.faults)) ==>
                && !err
                && (forall ev :: ev in events ==> RowKeyOf(ev) in store.rows)
                && CountsExactly(old(store.rows), store.rows, old(store.daily), store.daily)
    {
      ghost var rows0, daily0, faults0 := store.rows, store.daily, store.faults;
      var deltas, insertErr := InsertEvents(events);
      ghost var middle := store.faults;
      if insertErr {
        FailedSomewhere(faults0, middle);
        return true;
      }
      err := AddDeltas(deltas, rows0, events);
      MoreCalls(faults0, middle, store.faults);
      if NoneFails(faults0) {
        NoneFailsMeansSuccess(faults0, store.faults);
        OutcomeNeverOvercounts(rows0, store.rows, daily0, store.daily, events, false);
      }
    }
  }

  /** The consumer group's pending list, as XACK sees it. */
  class ConsumerGroup {
    var pending: set<nat>

    method Ack(ids: set<nat>, fault: Fault)
      modifies this
      ensures pending == if fault.TookEffect() then old(pending) - ids else old(pending)
    {
      if fault.TookEffect() {
        pending := pending - ids;
      }
    }
  }

  ghost predicate Recorded(rows: Rows, id: nat, msg: Message) {
    ParseClickEvent(id, msg).Ok? ==> RowKeyOf(ParseClickEvent(id, msg).value) in rows
  }

  /** The events of a batch: the entries that parse, in order. */
  function EventsOf(messages: seq<(nat, Message)>): (events: seq<ClickEvent>)
    ensures forall m :: m in messages && ParseClickEvent(m.0, m.1).Ok? ==> ParseClickEvent(m.0, m.1).value in events
    ensures forall ev :: ev in events ==> exists m :: m in messages && ParseClickEvent(m.0, m.1) == Ok(ev)
  {
    if messages == [] then []
    else
      var (id, msg) := messages[|messages| - 1];
      var before := EventsOf(messages[..|messages| - 1]);
      assert messages == messages[..|messages| - 1] + [messages[|messages| - 1]];
      if ParseClickEvent(id, msg).Ok? then before + [ParseClickEvent(id, msg).value] else before
  }

  /** cmd/worker's processBatch: parse, record, and acknowledge every id if the batch was recorded without error, or
      else none. `failed` says whether a store call failed. */
  method ProcessBatch(recorder: Recorder, group: ConsumerGroup, messages: seq<(nat, Message)>, ackFault: Fault)
    returns (ghost failed: bool)
    modifies recorder.store, group
    ensures BatchOutcome(old(recorder.store.rows), recorder.store.rows,
                         old(recorder.store.daily), recorder.store.daily, EventsOf(messages), failed)
    ensures group.pending == if !failed && ackFault.TookEffect()
                             then old(group.pending) - (set m | m in messages :: m.0) else old(group.pending)
    ensures failed <==> !Succeeded(old(recorder.store.faults), recorder.store.faults)
    ensures NoneFails(old(recorder.store.faults)) ==> !failed
  {
    failed := false;
    NoCallYet(recorder.store.faults);
    if messages == [] {
      NothingRecorded(recorder.store.rows, recorder.store.daily);
      assert EventsOf(messages) == [];
      return;
    }
    var events: seq<ClickEvent> := [];
    var ids: set<nat> := {};
    var i := 0;
    while i < |messages|
      invariant 0 <= i <= |messages|
      invariant ids == set j | 0 <= j < i :: messages[j].0
      invariant events == EventsOf(messages[..i])
    {
      assert messages[..i + 1][..i] == messages[..i];
      ids := ids + {messages[i].0};
      var r := ParseClickEvent(messages[i].0, messages[i].1);
      if r.Ok? {
        events := events + [r.value];
      }
      i := i + 1;
    }
    assert messages[..|messages|] == messages;
    assert ids == set m | m in messages :: m.0;
    if |events| > 0 {
      var err := recorder.RecordBatch(events);
      failed := err;
      if err {
        return;
      }
    } else {
      NothingRecorded(recorder.store.rows, recorder.store.daily);
    }
    group.Ack(ids, ackFault);
  }

  /** A batch recorded without error may be acknowledged: every entry of it that parses has its row. */
  lemma RecordedBatchIsStored(rows0: Rows, rows: Rows, daily0: Daily, daily: Daily, messages: seq<(nat, Message)>)
    requires BatchOutcome(rows0, rows, daily0, daily, EventsOf(messages), false)
    ensures forall m :: m in messages ==> Recorded(rows, m.0, m.1)
  {
    OutcomeNeverOvercounts(rows0, rows, daily0, daily, EventsOf(messages), false);
  }

  lemma NothingRecorded(rows: Rows, daily: Daily)
    ensures BatchOutcome(rows, rows, daily, daily, [], false)
  {
    assert OutcomeWith(rows, rows, daily, daily, [], false, 0, map[], map[]);
  }
}
