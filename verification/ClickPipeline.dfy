/** The whole ingestion protocol as a transition system: cmd/redirect appends to the stream, any number of
    cmd/worker instances read, reclaim, record and acknowledge, and each store or Redis call can fail,
    succeed with its reply lost, or be cut off by a crash. */
module ClickPipeline {
  import opened Basics
  import opened ClickEvents
  import opened ClickRecorder

  /** Where one worker stands inside processBatch. `ids` is what it will acknowledge. */
  datatype Call =
    | Idle
    | Inserting(ids: set<nat>, todo: seq<nat>, deltas: Daily)
    | Upserting(ids: set<nat>, deltas: Daily)
    | Acking(ids: set<nat>)

  /** `log` is the stream, an entry's position its stream id. `acked` and `lost` are history: the ids ever
      acknowledged, and the deltas held by calls that ended before adding them to the rollup. */
  datatype State = State(
    log: seq<Message>,
    delivered: nat,
    pending: set<nat>,
    acked: set<nat>,
    rows: Rows,
    daily: Daily,
    calls: seq<Call>,
    lost: Daily)

  /** Read is XREADGROUP ">"; Claim is XAUTOCLAIM, over any pending entries, whoever holds them. */
  datatype Action =
    | Produce(msg: Message)
    | Read(w: nat, count: nat)
    | Claim(w: nat, claimed: seq<nat>)
    | InsertNext(w: nat, fault: Fault)
    | UpsertOne(w: nat, key: DailyKey, fault: Fault)
    | Ack(w: nat, fault: Fault)
    | Crash(w: nat)

  /** The group starts at "0" on an empty click_events table; `base` is what a migration may have put in
      the rollup before the first click. */
  function Init(workers: nat, base: Daily): State {
    State([], 0, {}, {}, map[], base, seq(workers, _ => Idle), map[])
  }

  function Ids(from: nat, count: nat): seq<nat> {
    seq(count, i => from + i)
  }

  /** The entries of a batch that parse, in order: what processBatch hands to RecordBatch. */
  function WellFormed(log: seq<Message>, ids: seq<nat>): (todo: seq<nat>)
    requires forall i :: 0 <= i < |ids| ==> ids[i] < |log|
    ensures forall id: nat :: id in todo <==> id in ids && ParseClickEvent(id, log[id]).Ok?
  {
    if ids == [] then []
    else
      var rest := WellFormed(log, ids[1..]);
      if ParseClickEvent(ids[0], log[ids[0]]).Ok? then [ids[0]] + rest else rest
  }

  /** The next thing a call does once some inserts and upserts are behind it. */
  function Resume(ids: set<nat>, todo: seq<nat>, deltas: Daily): Call {
    if todo != [] then Inserting(ids, todo, deltas)
    else if deltas != map[] then Upserting(ids, deltas)
    else Acking(ids)
  }

  function StartBatch(s: State, w: nat, ids: seq<nat>): Call
    requires forall i :: 0 <= i < |ids| ==> ids[i] < |s.log|
  {
    Resume((set id | id in ids), WellFormed(s.log, ids), map[])
  }

  function Deltas(call: Call): Daily {
    match call
    case Inserting(_, _, deltas) => deltas
    case Upserting(_, deltas) => deltas
    case _ => map[]
  }

  function Merge(a: Daily, b: Daily): Daily {
    map key | key in a.Keys + b.Keys :: Total(a, key) + Total(b, key)
  }

  /** The call ends without adding `held` to the rollup. */
  function Abandon(s: State, w: nat, held: Daily): State
    requires w < |s.calls|
  {
    s.(calls := s.calls[w := Idle], lost := Merge(s.lost, held))
  }

  predicate Enabled(s: State, a: Action) {
    match a
    case Produce(_) => true
    case Read(w, count) => w < |s.calls| && s.calls[w].Idle? && 0 < count && s.delivered + count <= |s.log|
    case Claim(w, claimed) =>
      && w < |s.calls| && s.calls[w].Idle? && claimed != []
      && (forall i :: 0 <= i < |claimed| ==> claimed[i] in s.pending && claimed[i] < |s.log|)
    case InsertNext(w, _) =>
      && w < |s.calls| && s.calls[w].Inserting? && s.calls[w].todo != []
      && s.calls[w].todo[0] < |s.log|
      && ParseClickEvent(s.calls[w].todo[0], s.log[s.calls[w].todo[0]]).Ok?
    case UpsertOne(w, key, _) => w < |s.calls| && s.calls[w].Upserting? && key in s.calls[w].deltas
    case Ack(w, _) => w < |s.calls| && s.calls[w].Acking?
    case Crash(w) => w < |s.calls|
  }

  function Apply(s: State, a: Action): State
    requires Enabled(s, a)
  {
    match a
    case Produce(msg) => s.(log := s.log + [msg])
    case Read(w, count) =>
      var ids := Ids(s.delivered, count);
      s.(delivered := s.delivered + count,
         pending := s.pending + (set id | id in ids),
         calls := s.calls[w := StartBatch(s, w, ids)])
    case Claim(w, claimed) => s.(calls := s.calls[w := StartBatch(s, w, claimed)])
    case InsertNext(w, fault) => ApplyInsert(s, w, fault)
    case UpsertOne(w, key, fault) => ApplyUpsert(s, w, key, fault)
    case Ack(w, fault) =>
      var ids := s.calls[w].ids;
      var s' := s.(calls := s.calls[w := Idle]);
      if fault.TookEffect() then s'.(pending := s.pending - ids, acked := s.acked + ids) else s'
    case Crash(w) => Abandon(s, w, Deltas(s.calls[w]))
  }

  function EventAt(s: State, id: nat): ClickEvent
    requires id < |s.log| && ParseClickEvent(id, s.log[id]).Ok?
  {
    ParseClickEvent(id, s.log[id]).value
  }

  /** One InsertClickEvent call. If it reports an error RecordBatch returns, dropping its deltas, and
      with them the click of a row that went in although the call failed. */
  function ApplyInsert(s: State, w: nat, fault: Fault): State
    requires Enabled(s, InsertNext(w, fault))
  {
    var Inserting(ids, todo, deltas) := s.calls[w];
    var ev := EventAt(s, todo[0]);
    var s' := if fault.TookEffect() then s.(rows := InsertRow(s.rows, ev)) else s;
    var deltas' := if fault.TookEffect() && RowKeyOf(ev) !in s.rows then AddCount(deltas, DailyKeyOf(ev), 1) else deltas;
    if fault == NoFault then s'.(calls := s.calls[w := Resume(ids, todo[1..], deltas')])
    else Abandon(s', w, deltas')
  }

  /** One UpsertDailyCount call, for any key the map iteration yields next. */
  function ApplyUpsert(s: State, w: nat, key: DailyKey, fault: Fault): State
    requires Enabled(s, UpsertOne(w, key, fault))
  {
    var Upserting(ids, deltas) := s.calls[w];
    var s' := if fault.TookEffect() then s.(daily := AddCount(s.daily, key, deltas[key])) else s;
    var deltas' := if fault.TookEffect() then deltas - {key} else deltas;
    if fault == NoFault then s'.(calls := s.calls[w := Resume(ids, [], deltas')])
    else Abandon(s', w, deltas')
  }

  function Step(s: State, a: Action): State {
    if Enabled(s, a) then Apply(s, a) else s
  }

  /** A store call that reports an error ends its batch at once, taken or not, with everything still to be added lost;
      a call that succeeds never does, loses nothing, and what it added is added. */
  lemma StoreErrorEndsTheBatch(s: State, a: Action, key: DailyKey)
    requires Enabled(s, a) && (a.InsertNext? || a.UpsertOne?)
    ensures var s' := Step(s, a);
      && (s'.calls[a.w].Idle? <==> a.fault != NoFault)
      && s'.pending == s.pending && s'.acked == s.acked
      && (a.fault == NoFault ==> s'.lost == s.lost)
      && (a.fault == FailedBefore ==>
            && s'.rows == s.rows && s'.daily == s.daily
            && Total(s'.lost, key) == Total(s.lost, key) + Total(Deltas(s.calls[a.w]), key))
      && (a.UpsertOne? && a.fault.TookEffect() ==>
            Total(s'.daily, key) == Total(s.daily, key) + if key == a.key then Total(Deltas(s.calls[a.w]), key) else 0)
  {
  }

  function Run(s: State, actions: seq<Action>): State {
    if actions == [] then s
    else Step(Run(s, actions[..|actions| - 1]), actions[|actions| - 1])
  }

  lemma RunSnoc(s: State, actions: seq<Action>, a: Action)
    ensures Run(s, actions + [a]) == Step(Run(s, actions), a)
  {
    assert (actions + [a])[..|actions|] == actions;
  }

  lemma {:induction false} RunConcat(s: State, first: seq<Action>, second: seq<Action>)
    ensures Run(s, first + second) == Run(Run(s, first), second)
    decreases |second|
  {
    if second == [] {
      assert first + second == first;
    } else {
      var n := |second| - 1;
      assert |second[..n]| == n && second == second[..n] + [second[n]];
      assert first + second == first + second[..n] + [second[n]];
      RunConcat(s, first, second[..n]);
      RunSnoc(s, first + second[..n], second[n]);
      RunSnoc(Run(s, first), second[..n], second[n]);
    }
  }

  // ----- No click is lost -----

  ghost predicate RecordedAt(s: State, id: nat) {
    id < |s.log| && Recorded(s.rows, id, s.log[id])
  }

  /** Every id of the batch not still to be inserted has its row. */
  ghost predicate CallSound(s: State, call: Call) {
    match call
    case Idle => true
    case Inserting(ids, todo, _) =>
      && (forall id: nat :: id in ids ==> id < s.delivered)
      && (forall id: nat :: id in todo ==> id in ids)
      && (forall id: nat :: id in ids && id !in todo ==> RecordedAt(s, id))
    case Upserting(ids, _) => forall id: nat :: id in ids ==> id < s.delivered && RecordedAt(s, id)
    case Acking(ids) => forall id: nat :: id in ids ==> id < s.delivered && RecordedAt(s, id)
  }

  /** Delivery bookkeeping: what was delivered is pending or acknowledged, never both. */
  ghost predicate Partitioned(s: State) {
    && s.delivered <= |s.log|
    && s.pending !! s.acked
    && (forall id: nat :: id in s.pending || id in s.acked <==> id < s.delivered)
  }

  ghost predicate RowsComeFromLog(s: State) {
    forall rk :: rk in s.rows ==>
      && rk.streamId < s.delivered <= |s.log|
      && ParseClickEvent(rk.streamId, s.log[rk.streamId]) == Ok(s.rows[rk])
      && RowKeyOf(s.rows[rk]) == rk
  }

  ghost predicate DeliveryInv(s: State) {
    && Partitioned(s)
    && RowsComeFromLog(s)
    && (forall id: nat :: id in s.acked ==> RecordedAt(s, id))
    && (forall w :: 0 <= w < |s.calls| ==> CallSound(s, s.calls[w]))
  }

  /** Growing the log and the table keeps every entry that was recorded recorded. */
  lemma RecordedStays(s: State, s': State)
    requires s.log <= s'.log && s.delivered <= s'.delivered
    requires forall rk :: rk in s.rows ==> rk in s'.rows
    ensures forall id: nat :: RecordedAt(s, id) ==> RecordedAt(s', id)
    ensures forall call :: CallSound(s, call) ==> CallSound(s', call)
  {
  }

  lemma StartBatchSound(s: State, w: nat, ids: seq<nat>)
    requires s.delivered <= |s.log|
    requires forall i :: 0 <= i < |ids| ==> ids[i] < s.delivered
    ensures CallSound(s, StartBatch(s, w, ids))
  {
    assert forall id: nat :: id in ids ==> id < s.delivered;
  }

  lemma DeliveryInvInsert(s: State, w: nat, fault: Fault)
    requires DeliveryInv(s) && Enabled(s, InsertNext(w, fault))
    ensures DeliveryInv(ApplyInsert(s, w, fault))
  {
    var s' := ApplyInsert(s, w, fault);
    RecordedStays(s, s');
    var Inserting(ids, todo, deltas) := s.calls[w];
    assert CallSound(s, s.calls[w]);
    assert todo[0] in todo;
    if fault == NoFault {
      assert RecordedAt(s', todo[0]);
      forall id: nat | id in ids && id !in todo[1..] ensures RecordedAt(s', id) {
        assert id == todo[0] || id !in todo;
      }
      assert CallSound(s', s'.calls[w]);
    }
  }

  lemma DeliveryInvRead(s: State, w: nat, count: nat)
    requires DeliveryInv(s) && Enabled(s, Read(w, count))
    ensures DeliveryInv(Apply(s, Read(w, count)))
  {
    var s' := Apply(s, Read(w, count));
    var ids := Ids(s.delivered, count);
    RecordedStays(s, s');
    StartBatchSound(s', w, ids);
    forall id: nat ensures id in s'.pending || id in s'.acked <==> id < s'.delivered {
      if s.delivered <= id < s'.delivered {
        assert ids[id - s.delivered] == id;
      }
    }
    assert s'.pending !! s'.acked;
    assert s'.calls[w] == StartBatch(s', w, ids);
  }

  lemma DeliveryInvClaim(s: State, w: nat, claimed: seq<nat>)
    requires DeliveryInv(s) && Enabled(s, Claim(w, claimed))
    ensures DeliveryInv(Apply(s, Claim(w, claimed)))
  {
    var s' := Apply(s, Claim(w, claimed));
    RecordedStays(s, s');
    StartBatchSound(s', w, claimed);
    assert s'.calls[w] == StartBatch(s', w, claimed);
  }

  lemma DeliveryInvUpsert(s: State, w: nat, key: DailyKey, fault: Fault)
    requires DeliveryInv(s) && Enabled(s, UpsertOne(w, key, fault))
    ensures DeliveryInv(ApplyUpsert(s, w, key, fault))
  {
    RecordedStays(s, ApplyUpsert(s, w, key, fault));
    assert CallSound(s, s.calls[w]);
  }

  lemma DeliveryInvAck(s: State, w: nat, fault: Fault)
    requires DeliveryInv(s) && Enabled(s, Ack(w, fault))
    ensures DeliveryInv(Apply(s, Ack(w, fault)))
  {
    RecordedStays(s, Apply(s, Ack(w, fault)));
    assert CallSound(s, s.calls[w]);
  }

  lemma DeliveryInvStep(s: State, a: Action)
    requires DeliveryInv(s)
    ensures DeliveryInv(Step(s, a))
  {
    if Enabled(s, a) {
      match a
      case Produce(_) => RecordedStays(s, Apply(s, a));
      case Read(w, count) => DeliveryInvRead(s, w, count);
      case Claim(w, claimed) => DeliveryInvClaim(s, w, claimed);
      case InsertNext(w, fault) => DeliveryInvInsert(s, w, fault);
      case UpsertOne(w, key, fault) => DeliveryInvUpsert(s, w, key, fault);
      case Ack(w, fault) => DeliveryInvAck(s, w, fault);
      case Crash(w) => RecordedStays(s, Apply(s, a));
    }
  }

  lemma {:induction false} DeliveryInvRunFrom(s: State, actions: seq<Action>)
    requires DeliveryInv(s)
    ensures DeliveryInv(Run(s, actions))
  {
    if actions != [] {
      var n := |actions| - 1;
      DeliveryInvRunFrom(s, actions[..n]);
      DeliveryInvStep(Run(s, actions[..n]), actions[n]);
    }
  }

  lemma DeliveryInvRun(workers: nat, base: Daily, actions: seq<Action>)
    ensures DeliveryInv(Run(Init(workers, base), actions))
  {
    DeliveryInvRunFrom(Init(workers, base), actions);
  }

  /** In every reachable state each stream entry is exactly one of undelivered, pending or acknowledged,
      and an acknowledged entry that parses has its own row, holding what it says. */
  lemma NoClickIsLost(workers: nat, base: Daily, actions: seq<Action>, id: nat)
    requires id < |Run(Init(workers, base), actions).log|
    ensures var s := Run(Init(workers, base), actions);
      && (id >= s.delivered <==> id !in s.pending && id !in s.acked)
      && !(id in s.pending && id in s.acked)
      && (id in s.acked && ParseClickEvent(id, s.log[id]).Ok? ==>
            var ev := EventAt(s, id); RowKeyOf(ev) in s.rows && s.rows[RowKeyOf(ev)] == ev)
  {
    DeliveryInvRun(workers, base, actions);
  }

  /** The table keys rows by (clicked_at, stream_id), yet no stream entry ever gets two rows. */
  lemma OneRowPerEntry(workers: nat, base: Daily, actions: seq<Action>, rk: RowKey, rk': RowKey)
    requires rk in Run(Init(workers, base), actions).rows && rk' in Run(Init(workers, base), actions).rows
    requires rk.streamId == rk'.streamId
    ensures rk == rk'
  {
    DeliveryInvRun(workers, base, actions);
  }

  // ----- Rollup accounting -----

  /** What the calls in progress have inserted but not yet added to the rollup. */
  function Held(calls: seq<Call>, key: DailyKey): nat {
    if calls == [] then 0 else Held(calls[..|calls| - 1], key) + Total(Deltas(calls[|calls| - 1]), key)
  }

  lemma {:induction false} HeldAfterUpdate(calls: seq<Call>, w: nat, call: Call, key: DailyKey)
    requires w < |calls|
    ensures Held(calls[w := call], key) + Total(Deltas(calls[w]), key) == Held(calls, key) + Total(Deltas(call), key)
  {
    var n := |calls| - 1;
    if w == n {
      assert calls[w := call][..n] == calls[..n];
    } else {
      assert calls[w := call][..n] == calls[..n][w := call];
      HeldAfterUpdate(calls[..n], w, call, key);
    }
  }

  lemma {:induction false} HeldOfIdle(calls: seq<Call>, key: DailyKey)
    requires forall w :: 0 <= w < |calls| ==> calls[w].Idle?
    ensures Held(calls, key) == 0
  {
    if calls != [] {
      HeldOfIdle(calls[..|calls| - 1], key);
    }
  }

  ghost predicate AccountedFor(s: State, base: Daily, key: DailyKey) {
    Total(base, key) + Count(s.rows, key) == Total(s.daily, key) + Held(s.calls, key) + Total(s.lost, key)
  }

  /** Only positive counts are held or stored, and the rollup never drops a key. */
  ghost predicate TidyCounts(s: State, base: Daily) {
    && (forall w :: 0 <= w < |s.calls| ==> NoZeroes(Deltas(s.calls[w])))
    && (forall key :: key in s.daily && key !in base ==> s.daily[key] > 0)
    && (forall key :: key in base ==> key in s.daily)
  }

  ghost predicate AccountInv(s: State, base: Daily) {
    (forall key :: AccountedFor(s, base, key)) && TidyCounts(s, base)
  }

  /** One call of a worker moves clicks between rows, held, added and lost, and makes none vanish. */
  ghost predicate Conserves(s: State, s': State, w: nat, key: DailyKey)
    requires w < |s.calls| == |s'.calls|
  {
    Count(s'.rows, key) - Count(s.rows, key) ==
    (Total(s'.daily, key) - Total(s.daily, key)) + (Total(s'.lost, key) - Total(s.lost, key))
      + (Total(Deltas(s'.calls[w]), key) - Total(Deltas(s.calls[w]), key))
  }

  lemma InsertConserves(s: State, w: nat, fault: Fault, key: DailyKey)
    requires Enabled(s, InsertNext(w, fault))
    ensures Conserves(s, ApplyInsert(s, w, fault), w, key)
  {
    CountAfterInsert(s.rows, EventAt(s, s.calls[w].todo[0]), key);
  }

  lemma UpsertConserves(s: State, w: nat, k: DailyKey, fault: Fault, key: DailyKey)
    requires Enabled(s, UpsertOne(w, k, fault))
    ensures Conserves(s, ApplyUpsert(s, w, k, fault), w, key)
  {
  }

  lemma OneCallChanges(s: State, a: Action)
    requires Enabled(s, a) && !a.Produce?
    ensures |Apply(s, a).calls| == |s.calls| && Apply(s, a).calls == s.calls[a.w := Apply(s, a).calls[a.w]]
  {
  }

  lemma CallConserves(s: State, a: Action, key: DailyKey)
    requires Enabled(s, a) && !a.Produce?
    ensures |Apply(s, a).calls| == |s.calls| && Conserves(s, Apply(s, a), a.w, key)
  {
    if a.InsertNext? {
      InsertConserves(s, a.w, a.fault, key);
    } else if a.UpsertOne? {
      UpsertConserves(s, a.w, a.key, a.fault, key);
    }
  }

  lemma AccountStep(s: State, base: Daily, a: Action, key: DailyKey)
    requires AccountedFor(s, base, key) && Enabled(s, a)
    ensures AccountedFor(Apply(s, a), base, key)
  {
    var s' := Apply(s, a);
    if !a.Produce? {
      OneCallChanges(s, a);
      CallConserves(s, a, key);
      HeldAfterUpdate(s.calls, a.w, s'.calls[a.w], key);
    }
  }

  lemma InsertTidy(s: State, base: Daily, w: nat, fault: Fault)
    requires TidyCounts(s, base) && Enabled(s, InsertNext(w, fault))
    ensures TidyCounts(ApplyInsert(s, w, fault), base)
  {
    assert NoZeroes(s.calls[w].deltas);
    assert NoZeroes(AddCount(s.calls[w].deltas, DailyKeyOf(EventAt(s, s.calls[w].todo[0])), 1));
    var s' := ApplyInsert(s, w, fault);
    assert NoZeroes(Deltas(s'.calls[w]));
  }

  lemma UpsertTidy(s: State, base: Daily, w: nat, key: DailyKey, fault: Fault)
    requires TidyCounts(s, base) && Enabled(s, UpsertOne(w, key, fault))
    ensures TidyCounts(ApplyUpsert(s, w, key, fault), base)
  {
    assert NoZeroes(Deltas(s.calls[w]));
    var s' := ApplyUpsert(s, w, key, fault);
    assert NoZeroes(Deltas(s'.calls[w]));
  }

  lemma TidyCountsStep(s: State, base: Daily, a: Action)
    requires TidyCounts(s, base) && Enabled(s, a)
    ensures TidyCounts(Apply(s, a), base)
  {
    match a
    case Produce(_) =>
    case InsertNext(w, fault) => InsertTidy(s, base, w, fault);
    case UpsertOne(w, key, fault) => UpsertTidy(s, base, w, key, fault);
    case _ => assert NoZeroes(Deltas(Apply(s, a).calls[a.w]));
  }

  lemma AccountInvStep(s: State, base: Daily, a: Action)
    requires AccountInv(s, base)
    ensures AccountInv(Step(s, a), base)
  {
    if Enabled(s, a) {
      TidyCountsStep(s, base, a);
      forall key ensures AccountedFor(Apply(s, a), base, key) {
        AccountStep(s, base, a, key);
      }
    }
  }

  lemma {:induction false} AccountInvRun(workers: nat, base: Daily, actions: seq<Action>)
    ensures AccountInv(Run(Init(workers, base), actions), base)
  {
    if actions == [] {
      forall key ensures AccountedFor(Init(workers, base), base, key) {
        HeldOfIdle(Init(workers, base).calls, key);
        assert RowsOn(map[], key) == {};
      }
    } else {
      var n := |actions| - 1;
      AccountInvRun(workers, base, actions[..n]);
      AccountInvStep(Run(Init(workers, base), actions[..n]), base, actions[n]);
    }
  }

  /** The exact deficit: rows on a day, less what the rollup gained, is what calls in progress still hold
      plus what calls that failed or died part-way took with them. So the rollup never runs ahead. */
  lemma RollupDeficit(workers: nat, base: Daily, actions: seq<Action>, key: DailyKey)
    ensures var s := Run(Init(workers, base), actions);
      && Count(s.rows, key) - (Total(s.daily, key) - Total(base, key)) == Held(s.calls, key) + Total(s.lost, key)
      && Total(s.daily, key) - Total(base, key) <= Count(s.rows, key)
  {
    AccountInvRun(workers, base, actions);
    assert AccountedFor(Run(Init(workers, base), actions), base, key);
  }

  ghost predicate Quiet(s: State) {
    forall w :: 0 <= w < |s.calls| ==> s.calls[w].Idle?
  }

  /** With no call in progress, the rollup is exact for a url and day if and only if no call was cut off
      holding a delta for it. */
  lemma QuietRollupExactIff(workers: nat, base: Daily, actions: seq<Action>, key: DailyKey)
    requires Quiet(Run(Init(workers, base), actions))
    ensures var s := Run(Init(workers, base), actions);
      Total(s.daily, key) == Total(base, key) + Count(s.rows, key) <==> Total(s.lost, key) == 0
  {
    RollupDeficit(workers, base, actions, key);
    HeldOfIdle(Run(Init(workers, base), actions).calls, key);
  }

  lemma ReadTheOnlyEntry(msg: Message)
    requires ParseClickEvent(0, msg).Ok?
    ensures Run(Init(2, map[]), [Produce(msg), Read(0, 1)]) ==
            State([msg], 1, {0}, {}, map[], map[], [Inserting({0}, [0], map[]), Idle], map[])
  {
    var s0 := Init(2, map[]);
    assert s0.calls == [Idle, Idle];
    assert Run(s0, []) == s0;
    RunSnoc(s0, [], Produce(msg));
    assert [] + [Produce(msg)] == [Produce(msg)];
    assert Run(s0, [Produce(msg)]) == State([msg], 0, {}, {}, map[], map[], [Idle, Idle], map[]);
    RunSnoc(s0, [Produce(msg)], Read(0, 1));
    ReadOne(msg);
    assert [Produce(msg)] + [Read(0, 1)] == [Produce(msg), Read(0, 1)];
  }

  lemma ReadOne(msg: Message)
    requires ParseClickEvent(0, msg).Ok?
    ensures Step(State([msg], 0, {}, {}, map[], map[], [Idle, Idle], map[]), Read(0, 1)) ==
            State([msg], 1, {0}, {}, map[], map[], [Inserting({0}, [0], map[]), Idle], map[])
  {
    var s1 := State([msg], 0, {}, {}, map[], map[], [Idle, Idle], map[]);
    assert Ids(0, 1) == [0] && WellFormed([msg], [0]) == [0];
    assert Step(s1, Read(0, 1)).pending == {0};
    assert Step(s1, Read(0, 1)).calls[0].ids == {0};
    assert Step(s1, Read(0, 1)).calls == [Inserting({0}, [0], map[]), Idle];
  }

  /** One worker reads and stores the only entry, then dies before the rollup. */
  lemma CrashAfterInsert(msg: Message)
    requires ParseClickEvent(0, msg).Ok?
    ensures var ev := ParseClickEvent(0, msg).value;
      Run(Init(2, map[]), [Produce(msg), Read(0, 1), InsertNext(0, NoFault), Crash(0)]) ==
      State([msg], 1, {0}, {}, map[RowKeyOf(ev) := ev], map[], [Idle, Idle], map[DailyKeyOf(ev) := 1])
  {
    var ev := ParseClickEvent(0, msg).value;
    var s0, read := Init(2, map[]), [Produce(msg), Read(0, 1)];
    ReadTheOnlyEntry(msg);
    RunSnoc(s0, read, InsertNext(0, NoFault));
    RunSnoc(s0, read + [InsertNext(0, NoFault)], Crash(0));
    assert read + [InsertNext(0, NoFault)] + [Crash(0)] ==
           [Produce(msg), Read(0, 1), InsertNext(0, NoFault), Crash(0)];
    InsertThenCrash(msg);
  }

  lemma InsertThenCrash(msg: Message)
    requires ParseClickEvent(0, msg).Ok?
    ensures var ev := ParseClickEvent(0, msg).value;
      var read := State([msg], 1, {0}, {}, map[], map[], [Inserting({0}, [0], map[]), Idle], map[]);
      Step(Step(read, InsertNext(0, NoFault)), Crash(0)) ==
      State([msg], 1, {0}, {}, map[RowKeyOf(ev) := ev], map[], [Idle, Idle], map[DailyKeyOf(ev) := 1])
  {
    var ev := ParseClickEvent(0, msg).value;
    var read := State([msg], 1, {0}, {}, map[], map[], [Inserting({0}, [0], map[]), Idle], map[]);
    var s3 := Step(read, InsertNext(0, NoFault));
    assert s3.calls == [Upserting({0}, map[DailyKeyOf(ev) := 1]), Idle];
    assert Step(s3, Crash(0)).calls == [Idle, Idle];
    assert Step(s3, Crash(0)).lost == map[DailyKeyOf(ev) := 1];
  }

  /** The deficit is real and redelivery does not repair it: after that crash, a clean second delivery
      leaves the click stored and acknowledged, and still out of the rollup. */
  lemma CrashBetweenInsertAndUpsertLosesACount(msg: Message)
    requires ParseClickEvent(0, msg).Ok?
    ensures var s := Run(Init(2, map[]), [Produce(msg), Read(0, 1), InsertNext(0, NoFault), Crash(0),
                                          Claim(1, [0]), InsertNext(1, NoFault), Ack(1, NoFault)]);
      && s.acked == {0} && s.pending == {} && Quiet(s)
      && Count(s.rows, DailyKeyOf(ParseClickEvent(0, msg).value)) == 1
      && s.daily == map[]
  {
    var ev := ParseClickEvent(0, msg).value;
    var key := DailyKeyOf(ev);
    var s0 := Init(2, map[]);
    var crashed := [Produce(msg), Read(0, 1), InsertNext(0, NoFault), Crash(0)];
    CrashAfterInsert(msg);
    RunSnoc(s0, crashed, Claim(1, [0]));
    RunSnoc(s0, crashed + [Claim(1, [0])], InsertNext(1, NoFault));
    RunSnoc(s0, crashed + [Claim(1, [0]), InsertNext(1, NoFault)], Ack(1, NoFault));
    assert WellFormed([msg], [0]) == [0];
    var s5 := Step(Run(s0, crashed), Claim(1, [0]));
    assert s5.calls[1].ids == {0};
    assert s5.calls == [Idle, Inserting({0}, [0], map[])];
    var s6 := Step(s5, InsertNext(1, NoFault));
    assert s6.calls == [Idle, Acking({0})] && s6.rows == s5.rows;
    assert RowsOn(s6.rows, key) == {RowKeyOf(ev)};
    assert crashed + [Claim(1, [0]), InsertNext(1, NoFault)] + [Ack(1, NoFault)] ==
           [Produce(msg), Read(0, 1), InsertNext(0, NoFault), Crash(0),
            Claim(1, [0]), InsertNext(1, NoFault), Ack(1, NoFault)];
    assert crashed + [Claim(1, [0])] + [InsertNext(1, NoFault)] == crashed + [Claim(1, [0]), InsertNext(1, NoFault)];
  }

  // ----- Batching is invisible -----

  /** The tables a single pass over the stream would build, one entry at a time. */
  function FoldRows(log: seq<Message>): Rows {
    if log == [] then map[]
    else
      var n := |log| - 1;
      match ParseClickEvent(n, log[n])
      case Ok(ev) => InsertRow(FoldRows(log[..n]), ev)
      case Err(_) => FoldRows(log[..n])
  }

  function FoldDaily(log: seq<Message>): Daily {
    if log == [] then map[]
    else
      var n := |log| - 1;
      match ParseClickEvent(n, log[n])
      case Ok(ev) => AddCount(FoldDaily(log[..n]), DailyKeyOf(ev), 1)
      case Err(_) => FoldDaily(log[..n])
  }

  lemma {:induction false} FoldRowsAre(log: seq<Message>)
    ensures forall rk :: rk in FoldRows(log) ==>
              rk.streamId < |log| && ParseClickEvent(rk.streamId, log[rk.streamId]) == Ok(FoldRows(log)[rk])
    ensures forall id: nat :: 0 <= id < |log| ==> Recorded(FoldRows(log), id, log[id])
    ensures forall rk :: rk in FoldRows(log) ==> RowKeyOf(FoldRows(log)[rk]) == rk
  {
    if log != [] {
      FoldRowsAre(log[..|log| - 1]);
    }
  }

  lemma {:induction false} FoldDailyCounts(log: seq<Message>)
    ensures NoZeroes(FoldDaily(log))
    ensures forall key :: Total(FoldDaily(log), key) == Count(FoldRows(log), key)
  {
    if log == [] {
      forall key ensures Count(map[], key) == 0 {
        assert RowsOn(map[], key) == {};
      }
    } else {
      var n := |log| - 1;
      FoldDailyCounts(log[..n]);
      FoldRowsAre(log[..n]);
      match ParseClickEvent(n, log[n])
      case Ok(ev) =>
        forall key ensures Total(FoldDaily(log), key) == Count(FoldRows(log), key) {
          CountAfterInsert(FoldRows(log[..n]), ev, key);
        }
      case Err(_) =>
    }
  }

  lemma SameCountsSameRollup(a: Daily, b: Daily)
    requires NoZeroes(a) && NoZeroes(b)
    requires forall key :: Total(a, key) == Total(b, key)
    ensures a == b
  {
    forall key ensures key in a <==> key in b {
      assert Total(a, key) == Total(b, key);
    }
    forall key | key in a ensures a[key] == b[key] {
      assert Total(a, key) == Total(b, key);
    }
  }

  ghost predicate Drained(s: State) {
    Quiet(s) && s.delivered == |s.log| && s.pending == {}
  }

  lemma DrainedRows(workers: nat, base: Daily, actions: seq<Action>)
    requires Drained(Run(Init(workers, base), actions))
    ensures var s := Run(Init(workers, base), actions); s.rows == FoldRows(s.log)
  {
    var s := Run(Init(workers, base), actions);
    DeliveryInvRun(workers, base, actions);
    FoldRowsAre(s.log);
    forall rk ensures rk in s.rows <==> rk in FoldRows(s.log) {
      if rk in FoldRows(s.log) {
        assert rk.streamId in s.acked;
        assert RecordedAt(s, rk.streamId);
      }
      if rk in s.rows {
        assert Recorded(FoldRows(s.log), rk.streamId, s.log[rk.streamId]);
      }
    }
  }

  lemma SameTotalsOverBase(daily: Daily, base: Daily, counted: Daily)
    requires NoZeroes(counted) && (forall key :: key in base ==> key in daily)
    requires forall key :: key in daily && key !in base ==> daily[key] > 0
    requires forall key :: Total(daily, key) == Total(base, key) + Total(counted, key)
    ensures daily == Merge(base, counted)
  {
    var merged := Merge(base, counted);
    forall key ensures (key in daily <==> key in merged) && Total(daily, key) == Total(merged, key) {
      assert Total(daily, key) == Total(base, key) + Total(counted, key);
    }
    forall key | key in daily ensures daily[key] == merged[key] {
      assert Total(daily, key) == Total(merged, key);
    }
  }

  /** Once every entry is acknowledged, the rows are those a single pass over the distinct stream entries
      builds, whatever the batches, order, redelivery or iteration order; and the rollup is the baseline plus
      that pass's if and only if no call dropped a delta. */
  lemma BatchingIsInvisible(workers: nat, base: Daily, actions: seq<Action>)
    requires Drained(Run(Init(workers, base), actions))
    ensures var s := Run(Init(workers, base), actions);
      && s.rows == FoldRows(s.log)
      && (s.daily == Merge(base, FoldDaily(s.log)) <==> forall key :: Total(s.lost, key) == 0)
  {
    var s := Run(Init(workers, base), actions);
    DrainedRows(workers, base, actions);
    AccountInvRun(workers, base, actions);
    FoldDailyCounts(s.log);
    var counted := FoldDaily(s.log);
    forall key
      ensures Total(s.daily, key) == Total(base, key) + Total(counted, key) <==> Total(s.lost, key) == 0
    {
      QuietRollupExactIff(workers, base, actions, key);
    }
    if forall key :: Total(s.lost, key) == 0 {
      forall key ensures Total(s.daily, key) == Total(base, key) + Total(counted, key) {
        assert Total(s.lost, key) == 0;
      }
      SameTotalsOverBase(s.daily, base, counted);
    }
    if s.daily == Merge(base, counted) {
      forall key ensures Total(s.lost, key) == 0 {
        assert Total(s.daily, key) == Total(base, key) + Total(counted, key);
      }
    }
  }

  // ----- Recovery is always possible -----

  /** `s'` is `s` with worker w idle and `id` acknowledged. */
  ghost predicate Settled(s: State, s': State, w: nat, id: nat)
    requires w < |s.calls|
  {
    && s'.log == s.log && s'.delivered == s.delivered
    && s'.pending == s.pending - {id}
    && s'.calls == s.calls[w := Idle]
  }

  /** A worker holding a one-entry batch can settle it when its calls succeed. */
  lemma SettleOne(s: State, w: nat, id: nat) returns (actions: seq<Action>)
    requires w < |s.calls| && id < |s.log| && s.calls[w] == StartBatch(s, w, [id])
    ensures Settled(s, Run(s, actions), w, id)
  {
    assert WellFormed(s.log, [id]) == if ParseClickEvent(id, s.log[id]).Ok? then [id] else [] by {
      assert [id][1..] == [];
    }
    assert s.calls[w].ids == {id};
    actions := [];
    if s.calls[w].Inserting? {
      actions := [InsertNext(w, NoFault)];
      RunSnoc(s, [], InsertNext(w, NoFault));
      var s1 := Run(s, actions);
      if s1.calls[w].Upserting? {
        var key := DailyKeyOf(EventAt(s, id));
        RunSnoc(s, actions, UpsertOne(w, key, NoFault));
        actions := actions + [UpsertOne(w, key, NoFault)];
        assert s1.calls[w].deltas - {key} == map[];
      }
    }
    AckSettles(s, Run(s, actions), w, id);
    RunSnoc(s, actions, Ack(w, NoFault));
    actions := actions + [Ack(w, NoFault)];
  }

  lemma AckSettles(s: State, s2: State, w: nat, id: nat)
    requires w < |s.calls| && s2.calls == s.calls[w := Acking({id})]
    requires s2.log == s.log && s2.delivered == s.delivered && s2.pending == s.pending
    ensures Settled(s, Step(s2, Ack(w, NoFault)), w, id)
  {
    assert Step(s2, Ack(w, NoFault)).calls == s.calls[w := Idle];
  }

  lemma {:induction false} CrashAll(s: State, n: nat) returns (actions: seq<Action>)
    requires n <= |s.calls|
    ensures var s' := Run(s, actions);
      && s'.log == s.log && s'.delivered == s.delivered && s'.pending == s.pending
      && |s'.calls| == |s.calls| && forall w :: 0 <= w < n ==> s'.calls[w].Idle?
  {
    actions := [];
    if n > 0 {
      actions := CrashAll(s, n - 1);
      RunSnoc(s, actions, Crash(n - 1));
      actions := actions + [Crash(n - 1)];
    }
  }

  lemma {:induction false} DrainPending(s: State) returns (actions: seq<Action>)
    requires DeliveryInv(s) && Quiet(s) && |s.calls| > 0
    ensures var s' := Run(s, actions);
      DeliveryInv(s') && Quiet(s') && |s'.calls| > 0 && s'.log == s.log && s'.delivered == s.delivered && s'.pending == {}
    decreases |s.pending|
  {
    actions := [];
    if s.pending != {} {
      var id :| id in s.pending;
      RunSnoc(s, [], Claim(0, [id]));
      DeliveryInvStep(s, Claim(0, [id]));
      var s1 := Step(s, Claim(0, [id]));
      assert s1.calls[0] == StartBatch(s1, 0, [id]);
      var settle := SettleOne(s1, 0, id);
      DeliveryInvRunFrom(s1, settle);
      assert s1.calls[0 := Idle] == s.calls;
      var s2 := Run(s1, settle);
      var rest := DrainPending(s2);
      RunConcat(s, [] + [Claim(0, [id])], settle);
      RunConcat(s, [Claim(0, [id])] + settle, rest);
      actions := [Claim(0, [id])] + settle + rest;
    }
  }

  /** From every reachable state, whatever failed before, some continuation acknowledges every entry of the
      stream and, by NoClickIsLost, has stored each one that parses: failures only ever defer work. */
  lemma AlwaysRecoverable(workers: nat, base: Daily, actions: seq<Action>) returns (more: seq<Action>)
    requires workers > 0
    ensures var s := Run(Init(workers, base), actions + more);
      Drained(s) && s.log == Run(Init(workers, base), actions).log
  {
    var s := Run(Init(workers, base), actions);
    DeliveryInvRun(workers, base, actions);
    CallCount(Init(workers, base), actions);
    more := DrainAll(s);
    RunConcat(Init(workers, base), actions, more);
  }

  /** Whatever is in progress dies, then everything not yet delivered is read. */
  lemma ReadAll(s: State) returns (actions: seq<Action>)
    requires DeliveryInv(s) && |s.calls| > 0
    ensures var s' := Run(s, actions);
      DeliveryInv(s') && Quiet(s') && |s'.calls| > 0 && s'.log == s.log && s'.delivered == |s.log|
  {
    var crash := CrashAll(s, |s.calls|);
    DeliveryInvRunFrom(s, crash);
    var s1, rest := Run(s, crash), |s.log| - s.delivered;
    var s2 := Step(s1, Read(0, rest));
    RunSnoc(s, crash, Read(0, rest));
    RunSnoc(s, crash + [Read(0, rest)], Crash(0));
    actions := crash + [Read(0, rest)] + [Crash(0)];
    DeliveryInvStep(s1, Read(0, rest));
    DeliveryInvStep(s2, Crash(0));
  }

  lemma DrainAll(s: State) returns (actions: seq<Action>)
    requires DeliveryInv(s) && |s.calls| > 0
    ensures Drained(Run(s, actions)) && Run(s, actions).log == s.log
  {
    var read := ReadAll(s);
    var rest := DrainPending(Run(s, read));
    RunConcat(s, read, rest);
    actions := read + rest;
  }

  lemma {:induction false} CallCount(s: State, actions: seq<Action>)
    ensures |Run(s, actions).calls| == |s.calls|
  {
    if actions != [] {
      CallCount(s, actions[..|actions| - 1]);
    }
  }
}
