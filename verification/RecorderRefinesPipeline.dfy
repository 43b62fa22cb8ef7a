/** ProcessBatch against the transition system: whatever one call of it does to the tables, the pending list
    and the rollup is a run of ClickPipeline by that worker, so its theorems over runs hold of the code. */
module RecorderRefinesPipeline {
  import opened Basics
  import opened ClickEvents
  import opened ClickRecorder
  import opened ClickPipeline

  /** The batch a worker holds, as processBatch receives it. */
  function Batch(log: seq<Message>, ids: seq<nat>): seq<(nat, Message)>
    requires forall i :: 0 <= i < |ids| ==> ids[i] < |log|
  {
    seq(|ids|, i requires 0 <= i < |ids| => (ids[i], log[ids[i]]))
  }

  ghost predicate AllParse(log: seq<Message>, todo: seq<nat>) {
    forall i :: 0 <= i < |todo| ==> todo[i] < |log| && ParseClickEvent(todo[i], log[todo[i]]).Ok?
  }

  function Events(log: seq<Message>, todo: seq<nat>): (events: seq<ClickEvent>)
    requires AllParse(log, todo)
    ensures |events| == |todo|
  {
    seq(|todo|, i requires 0 <= i < |todo| => ParseClickEvent(todo[i], log[todo[i]]).value)
  }

  lemma WellFormedSnoc(log: seq<Message>, ids: seq<nat>, id: nat)
    requires (forall i :: 0 <= i < |ids| ==> ids[i] < |log|) && id < |log|
    ensures WellFormed(log, ids + [id]) == WellFormed(log, ids) + (if ParseClickEvent(id, log[id]).Ok? then [id] else [])
  {
    if ids != [] {
      assert (ids + [id])[1..] == ids[1..] + [id];
      WellFormedSnoc(log, ids[1..], id);
    } else {
      assert ([] + [id])[1..] == [];
    }
  }

  lemma WellFormedParses(log: seq<Message>, ids: seq<nat>)
    requires forall i :: 0 <= i < |ids| ==> ids[i] < |log|
    ensures AllParse(log, WellFormed(log, ids))
  {
    var todo := WellFormed(log, ids);
    forall i | 0 <= i < |todo| ensures todo[i] < |log| && ParseClickEvent(todo[i], log[todo[i]]).Ok? {
      assert todo[i] in todo;
    }
  }

  /** The code's loop over messages and the machine's list of ids describe the same events. */
  lemma {:induction false} SameEvents(log: seq<Message>, ids: seq<nat>)
    requires forall i :: 0 <= i < |ids| ==> ids[i] < |log|
    ensures AllParse(log, WellFormed(log, ids))
    ensures EventsOf(Batch(log, ids)) == Events(log, WellFormed(log, ids))
    decreases |ids|
  {
    WellFormedParses(log, ids);
    if ids != [] {
      var n := |ids| - 1;
      assert ids == ids[..n] + [ids[n]] && |ids[..n]| == n;
      SameEvents(log, ids[..n]);
      WellFormedSnoc(log, ids[..n], ids[n]);
      WellFormedParses(log, ids[..n]);
      assert Batch(log, ids)[..n] == Batch(log, ids[..n]) && Batch(log, ids)[n] == (ids[n], log[ids[n]]);
    }
  }

  /** `s` with worker w's call and the tables as given. */
  function Moved(s: State, w: nat, rows: Rows, daily: Daily, call: Call): State
    requires w < |s.calls|
  {
    s.(rows := rows, daily := daily, calls := s.calls[w := call])
  }

  /** n inserts in a row. */
  lemma {:induction false} InsertsAreSteps(s: State, w: nat, ids: set<nat>, todo: seq<nat>, n: nat)
    returns (actions: seq<Action>, deltas: Daily)
    requires w < |s.calls| && AllParse(s.log, todo) && n <= |todo| && s.calls[w] == Resume(ids, todo, map[])
    ensures var rows := InsertAll(s.rows, Events(s.log, todo)[..n]);
      Run(s, actions) == Moved(s, w, rows, s.daily, Resume(ids, todo[n..], deltas)) && Gained(s.rows, rows, deltas)
    decreases n
  {
    actions, deltas := [], map[];
    if n == 0 {
      assert todo[0..] == todo && s.calls[w := s.calls[w]] == s.calls;
    } else {
      actions, deltas := InsertsAreSteps(s, w, ids, todo, n - 1);
      var s1 := Run(s, actions);
      var ev := Events(s.log, todo)[n - 1];
      InsertAllStep(s.rows, Events(s.log, todo), n - 1);
      assert todo[n - 1..][0] == todo[n - 1] && todo[n - 1..][1..] == todo[n..];
      GainedByInsert(s.rows, s1.rows, deltas, ev);
      var deltas' := if RowKeyOf(ev) !in s1.rows then AddCount(deltas, DailyKeyOf(ev), 1) else deltas;
      RunSnoc(s, actions, InsertNext(w, NoFault));
      assert Step(s1, InsertNext(w, NoFault)).calls == s.calls[w := Resume(ids, todo[n..], deltas')];
      actions, deltas := actions + [InsertNext(w, NoFault)], deltas';
    }
  }

  /** Adding deltas one key at a time until only `pending` is left. */
  lemma {:induction false} UpsertsAreSteps(s: State, w: nat, ids: set<nat>, deltas: Daily, daily: Daily, pending: Daily)
    returns (actions: seq<Action>)
    requires w < |s.calls| && s.calls[w] == Resume(ids, [], deltas)
    requires PartlyAdded(s.daily, daily, deltas, pending)
    ensures Run(s, actions) == Moved(s, w, s.rows, daily, Resume(ids, [], pending))
    decreases |deltas|
  {
    actions := [];
    if deltas.Keys <= pending.Keys {
      NothingToAdd(s, w, deltas, daily, pending);
    } else {
      var key :| key in deltas && key !in pending;
      var s1 := OneUpsert(s, w, ids, deltas, key);
      OneLessToAdd(s.daily, daily, deltas, pending, key);
      var rest := UpsertsAreSteps(s1, w, ids, deltas - {key}, daily, pending);
      RunConcat(s, [UpsertOne(w, key, NoFault)], rest);
      actions := [UpsertOne(w, key, NoFault)] + rest;
      assert s1.calls[w := Resume(ids, [], pending)] == s.calls[w := Resume(ids, [], pending)];
    }
  }

  lemma NothingToAdd(s: State, w: nat, deltas: Daily, daily: Daily, pending: Daily)
    requires w < |s.calls| && PartlyAdded(s.daily, daily, deltas, pending) && deltas.Keys <= pending.Keys
    ensures deltas == pending && Moved(s, w, s.rows, daily, s.calls[w]) == s
  {
    SameRollup(daily, s.daily);
    assert s.calls[w := s.calls[w]] == s.calls;
  }

  lemma OneUpsert(s: State, w: nat, ids: set<nat>, deltas: Daily, key: DailyKey) returns (s1: State)
    requires w < |s.calls| && s.calls[w] == Resume(ids, [], deltas) && key in deltas
    ensures s1 == Run(s, [UpsertOne(w, key, NoFault)])
    ensures s1 == Moved(s, w, s.rows, AddCount(s.daily, key, deltas[key]), Resume(ids, [], deltas - {key}))
  {
    RunSnoc(s, [], UpsertOne(w, key, NoFault));
    assert [] + [UpsertOne(w, key, NoFault)] == [UpsertOne(w, key, NoFault)];
    s1 := Step(s, UpsertOne(w, key, NoFault));
  }

  lemma SameRollup(a: Daily, b: Daily)
    requires a.Keys == b.Keys && forall key :: Total(a, key) == Total(b, key)
    ensures a == b
  {
    forall key | key in a ensures a[key] == b[key] {
      assert Total(a, key) == Total(b, key);
    }
  }

  lemma OneLessToAdd(daily0: Daily, daily: Daily, deltas: Daily, pending: Daily, key: DailyKey)
    requires PartlyAdded(daily0, daily, deltas, pending) && key in deltas && key !in pending
    ensures PartlyAdded(AddCount(daily0, key, deltas[key]), daily, deltas - {key}, pending)
  {
    var daily1, rest := AddCount(daily0, key, deltas[key]), deltas - {key};
    assert daily.Keys == daily1.Keys + (rest.Keys - pending.Keys);
    forall k ensures Total(daily, k) == Total(daily1, k) + (if k in pending then 0 else Total(rest, k)) {
      assert Total(daily, k) == Total(daily0, k) + (if k in pending then 0 else Total(deltas, k));
    }
  }

  lemma GainedIsUnique(rows0: Rows, rows: Rows, a: Daily, b: Daily)
    requires Gained(rows0, rows, a) && Gained(rows0, rows, b)
    ensures a == b
  {
    forall key ensures Total(a, key) == Total(b, key) {
      assert Count(rows, key) == Count(rows0, key) + Total(a, key);
      assert Count(rows, key) == Count(rows0, key) + Total(b, key);
    }
    SameCountsSameRollup(a, b);
  }

  /** What a call leaves of the state the theorems speak of, history aside. */
  ghost predicate SameTables(s: State, s': State, w: nat, rows: Rows, daily: Daily, pending: set<nat>)
    requires w < |s.calls|
  {
    && s'.log == s.log && s'.delivered == s.delivered
    && s'.rows == rows && s'.daily == daily && s'.pending == pending
    && s'.calls == s.calls[w := Idle]
  }

  /** The inserts and upserts of one call. */
  lemma TableWork(s: State, w: nat, held: set<nat>, todo: seq<nat>, rows: Rows, daily: Daily, err: bool,
                  n: nat, deltas: Daily, left: Daily) returns (actions: seq<Action>)
    requires w < |s.calls| && AllParse(s.log, todo) && s.calls[w] == Resume(held, todo, map[])
    requires OutcomeWith(s.rows, rows, s.daily, daily, Events(s.log, todo), err, n, deltas, left)
    ensures Run(s, actions) == Moved(s, w, rows, daily, Resume(held, todo[n..], left))
  {
    var inserts, found := InsertsAreSteps(s, w, held, todo, n);
    GainedIsUnique(s.rows, rows, found, deltas);
    if n < |todo| {
      SameRollup(daily, s.daily);
      actions := inserts;
    } else {
      assert todo[n..] == [];
      var s1 := Run(s, inserts);
      var upserts := UpsertsAreSteps(s1, w, held, deltas, daily, left);
      RunConcat(s, inserts, upserts);
      actions := inserts + upserts;
      MovedTwice(s, w, rows, s.daily, s1.calls[w], daily, Resume(held, [], left));
    }
  }

  lemma MovedTwice(s: State, w: nat, rows: Rows, daily1: Daily, call1: Call, daily2: Daily, call2: Call)
    requires w < |s.calls|
    ensures Moved(Moved(s, w, rows, daily1, call1), w, rows, daily2, call2) == Moved(s, w, rows, daily2, call2)
  {
    assert s.calls[w := call1][w := call2] == s.calls[w := call2];
  }

  /** Every outcome ProcessBatch allows, from the moment a worker holds a batch, is a run of that worker in the
      machine: the same rows, the same rollup, the same pending list, and the worker idle again. */
  lemma ProcessBatchIsARun(s: State, w: nat, ids: seq<nat>, rows: Rows, daily: Daily, err: bool, acked: bool)
    returns (actions: seq<Action>)
    requires w < |s.calls| && (forall i :: 0 <= i < |ids| ==> ids[i] < |s.log|) && s.calls[w] == StartBatch(s, w, ids)
    requires BatchOutcome(s.rows, rows, s.daily, daily, EventsOf(Batch(s.log, ids)), err) && !(err && acked)
    ensures SameTables(s, Run(s, actions), w, rows, daily, if acked then s.pending - (set id | id in ids) else s.pending)
  {
    SameEvents(s.log, ids);
    var todo, held := WellFormed(s.log, ids), (set id | id in ids);
    var n: nat, deltas, left :| OutcomeWith(s.rows, rows, s.daily, daily, Events(s.log, todo), err, n, deltas, left);
    var work := TableWork(s, w, held, todo, rows, daily, err, n, deltas, left);
    assert !err ==> todo[n..] == [];
    var last := LastStep(s, w, held, rows, daily, Resume(held, todo[n..], left), err, acked);
    RunSnoc(s, work, last);
    actions := work + [last];
  }

  lemma LastStep(s: State, w: nat, held: set<nat>, rows: Rows, daily: Daily, call: Call, err: bool, acked: bool)
    returns (last: Action)
    requires w < |s.calls| && !(err && acked) && (!err ==> call == Acking(held))
    ensures SameTables(s, Step(Moved(s, w, rows, daily, call), last), w, rows, daily,
                       if acked then s.pending - held else s.pending)
  {
    last := if err then Crash(w) else Ack(w, if acked then NoFault else FailedBefore);
    assert s.calls[w := call][w := Idle] == s.calls[w := Idle];
  }
}
