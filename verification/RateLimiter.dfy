/** cmd/redirect/ratelimit.go: one token bucket per client address, and a sweeper that forgets idle ones.
    Times are seconds as reals; a bucket follows golang.org/x/time/rate. */
module RateLimiter {
  type Ip = string

  /** `burst` tokens at most, refilled at `rps` tokens a second; entries idle longer than `idle` are swept. */
  datatype Config = Config(rps: real, burst: nat, idle: real) {
    ghost predicate Valid() { rps >= 0.0 && idle >= 0.0 }
  }

  datatype Bucket = Bucket(tokens: real, last: real)

  datatype Entry = Entry(bucket: Bucket, lastSeen: real)

  type Limiters = map<Ip, Entry>

  function Min(a: real, b: real): real {
    if a <= b then a else b
  }

  function Max(a: real, b: real): real {
    if a <= b then b else a
  }

  /** A new limiter is full. */
  function NewBucket(cfg: Config, at: real): Bucket {
    Bucket(cfg.burst as real, at)
  }

  function TokensAt(cfg: Config, b: Bucket, at: real): real {
    Min(cfg.burst as real, b.tokens + Max(0.0, at - b.last) * cfg.rps)
  }

  predicate Admits(cfg: Config, b: Bucket, at: real) {
    TokensAt(cfg, b, at) >= 1.0
  }

  /** An admitted request takes a token; a refused one leaves the bucket as it was. */
  function Take(cfg: Config, b: Bucket, at: real): Bucket {
    if Admits(cfg, b, at) then Bucket(TokensAt(cfg, b, at) - 1.0, at) else b
  }

  function BucketOf(cfg: Config, m: Limiters, ip: Ip, at: real): Bucket {
    if ip in m then m[ip].bucket else NewBucket(cfg, at)
  }

  /** allow reads the clock twice: `seen` goes into lastSeen, `at` is when the bucket is asked. */
  function AllowStep(cfg: Config, m: Limiters, ip: Ip, seen: real, at: real): Limiters {
    m[ip := Entry(Take(cfg, BucketOf(cfg, m, ip, at), at), seen)]
  }

  /** The sweep's clock reading `now` may be older than the moment it gets the lock. */
  function SweepStep(cfg: Config, m: Limiters, now: real): Limiters {
    map ip | ip in m && m[ip].lastSeen >= now - cfg.idle :: m[ip]
  }

  /** The limiter itself: a map updated in place, one entry at a time. */
  class IpRateLimiter {
    var limiters: Limiters
    const cfg: Config

    constructor (cfg: Config)
      ensures limiters == map[] && this.cfg == cfg
    {
      this.cfg := cfg;
      limiters := map[];
    }

    method Allow(ip: Ip, seen: real, at: real) returns (ok: bool)
      modifies this
      ensures ok <==> Admits(cfg, BucketOf(cfg, old(limiters), ip, at), at)
      ensures limiters == AllowStep(cfg, old(limiters), ip, seen, at)
    {
      if ip !in limiters {
        limiters := limiters[ip := Entry(NewBucket(cfg, at), seen)];
      }
      var entry := limiters[ip].(lastSeen := seen);
      ok := Admits(cfg, entry.bucket, at);
      limiters := limiters[ip := entry.(bucket := Take(cfg, entry.bucket, at))];
    }

    /** One tick of cleanupLoop: the entries idle beyond the cutoff go, in any order, and no other. */
    method Sweep(now: real)
      modifies this
      ensures limiters == SweepStep(cfg, old(limiters), now)
    {
      var cutoff := now - cfg.idle;
      var todo := limiters.Keys;
      while todo != {}
        invariant todo <= limiters.Keys <= old(limiters).Keys
        invariant forall ip :: ip in limiters ==> limiters[ip] == old(limiters)[ip]
        invariant forall ip :: ip in old(limiters) && ip !in todo ==>
                    (ip in limiters <==> old(limiters)[ip].lastSeen >= cutoff)
        decreases todo
      {
        var ip :| ip in todo;
        if limiters[ip].lastSeen < cutoff {
          limiters := limiters - {ip};
        }
        todo := todo - {ip};
      }
    }
  }

  // ----- Runs -----

  datatype Event =
    | Request(ip: Ip, seen: real, at: real)
    | Sweep(now: real, done: real)

  /** The limiter that sweeps, and the one that never does. */
  function Next(cfg: Config, sweeps: bool, m: Limiters, e: Event): Limiters {
    match e
    case Request(ip, seen, at) => AllowStep(cfg, m, ip, seen, at)
    case Sweep(now, _) => if sweeps then SweepStep(cfg, m, now) else m
  }

  predicate Decision(cfg: Config, m: Limiters, e: Event) {
    e.Request? && Admits(cfg, BucketOf(cfg, m, e.ip, e.at), e.at)
  }

  /** One decision per event; a sweep counts as false. */
  function Decisions(cfg: Config, sweeps: bool, m: Limiters, events: seq<Event>): (ds: seq<bool>)
    ensures |ds| == |events|
    decreases |events|
  {
    if events == [] then []
    else [Decision(cfg, m, events[0])] + Decisions(cfg, sweeps, Next(cfg, sweeps, m, events[0]), events[1..])
  }

  function TimeAfter(e: Event): real {
    if e.Request? then e.at else e.done
  }

  /** The mutex orders the events, the clock never runs back, and within one allow the two clock
      readings are at most `skew` apart. */
  predicate Plausible(events: seq<Event>, from: real, skew: real) {
    events == [] ||
    (match events[0]
     case Request(_, seen, at) => from <= seen <= at <= seen + skew && Plausible(events[1..], at, skew)
     case Sweep(now, done) => now <= done && from <= done && Plausible(events[1..], done, skew))
  }

  // ----- Evicting idle limiters is unobservable -----

  ghost predicate SoundBucket(cfg: Config, b: Bucket, now: real) {
    0.0 <= b.tokens <= cfg.burst as real && b.last <= now
  }

  ghost predicate Full(cfg: Config, b: Bucket, at: real) {
    TokensAt(cfg, b, at) == cfg.burst as real
  }

  lemma ScaleMonotone(x: real, y: real, rps: real)
    requires x <= y && rps >= 0.0
    ensures x * rps <= y * rps
  {
  }

  lemma ScaleNonNegative(x: real, rps: real)
    requires x >= 0.0 && rps >= 0.0
    ensures x * rps >= 0.0
  {
  }

  lemma FullStaysFull(cfg: Config, b: Bucket, at: real, later: real)
    requires cfg.Valid() && Full(cfg, b, at) && at <= later
    ensures Full(cfg, b, later)
  {
    ScaleMonotone(Max(0.0, at - b.last), Max(0.0, later - b.last), cfg.rps);
  }

  lemma NewBucketIsFull(cfg: Config, at: real)
    requires cfg.Valid()
    ensures Full(cfg, NewBucket(cfg, at), at)
  {
  }

  lemma TakeSound(cfg: Config, b: Bucket, from: real, at: real)
    requires cfg.Valid() && SoundBucket(cfg, b, from) && from <= at
    ensures SoundBucket(cfg, Take(cfg, b, at), at)
  {
    ScaleNonNegative(at - b.last, cfg.rps);
  }

  /** Between the two clock readings of a call up to `skew` passes, which starts the refill later than the idle
      period. A bucket that was drained can gain at most one token by it, the one it then hands out; a bucket
      that was full only lacks that one. An idle period has to make up for both. */
  ghost predicate IdleCoversSkew(cfg: Config, skew: real) {
    cfg.burst == 0 ||
    (cfg.idle * cfg.rps >= cfg.burst as real + Min(1.0, skew * cfg.rps) && (cfg.idle - skew) * cfg.rps >= 1.0)
  }

  /** How long the bucket has refilled when the sweeper may first forget it. */
  function IdleSpan(cfg: Config, entry: Entry): real {
    entry.lastSeen + cfg.idle - entry.bucket.last
  }

  /** By then it is full. */
  ghost predicate FullWhenIdle(cfg: Config, entry: Entry) {
    entry.bucket.tokens + IdleSpan(cfg, entry) * cfg.rps >= cfg.burst as real
  }

  /** How the sweeping limiter `m` and the other one `all` may differ: entries only `all` keeps are full. */
  ghost predicate Agree(cfg: Config, m: Limiters, all: Limiters, now: real) {
    && (forall ip :: ip in m ==> ip in all && m[ip].lastSeen == all[ip].lastSeen
                                 && (m[ip].bucket == all[ip].bucket || cfg.burst == 0))
    && (forall ip :: ip in all && ip !in m ==> Full(cfg, all[ip].bucket, now))
    && (forall ip :: ip in m ==> SoundBucket(cfg, m[ip].bucket, now))
    && (forall ip :: ip in all ==> SoundBucket(cfg, all[ip].bucket, now) && (cfg.burst > 0 ==> FullWhenIdle(cfg, all[ip])))
  }

  lemma NoTokensEver(cfg: Config, b: Bucket, from: real, at: real)
    requires cfg.Valid() && cfg.burst == 0 && SoundBucket(cfg, b, from) && from <= at
    ensures !Admits(cfg, b, at) && Full(cfg, b, at)
  {
    ScaleNonNegative(at - b.last, cfg.rps);
  }

  lemma ScaleSum(x: real, y: real, rps: real)
    ensures (x + y) * rps == x * rps + y * rps
  {
  }

  lemma ScaleDifference(x: real, y: real, rps: real)
    ensures (x - y) * rps == x * rps - y * rps
  {
  }

  /** The settings over plain numbers: what an idle period refills, what the largest clock gap would, and what is
      left of the idle period after that gap. */
  ghost predicate Covers(burst: real, idle: real, most: real, left: real) {
    idle >= burst + Min(1.0, most) && left >= 1.0
  }

  lemma CoversInReals(cfg: Config, skew: real)
    requires cfg.burst > 0
    ensures IdleCoversSkew(cfg, skew) <==>
              Covers(cfg.burst as real, cfg.idle * cfg.rps, skew * cfg.rps, (cfg.idle - skew) * cfg.rps)
  {
  }

  /** The tokens `have` before the request, the `lost` refill of its own clock gap, `refill` that of the span until
      it may be forgotten. */
  lemma TakenTokenIsMadeUp(burst: real, idle: real, most: real, left: real, lost: real, have: real, refill: real)
    requires burst >= 1.0 && Covers(burst, idle, most, left) && left == idle - most
    requires lost <= most && have >= 1.0 && (have >= lost || have == burst) && refill >= idle - lost
    ensures have - 1.0 + refill >= burst
  {
  }

  lemma KeptTokensAreEnough(burst: real, idle: real, most: real, left: real, tokens: real, refill: real)
    requires Covers(burst, idle, most, left) && most >= 0.0 && tokens >= 0.0 && refill >= idle
    ensures tokens + refill >= burst
  {
  }

  lemma GapRefillsAtLeast(cfg: Config, b: Bucket, seen: real, at: real)
    requires cfg.Valid() && seen <= at && 0.0 <= b.tokens && (b.last <= seen || b == NewBucket(cfg, at))
    ensures TokensAt(cfg, b, at) >= (at - seen) * cfg.rps || TokensAt(cfg, b, at) == cfg.burst as real
  {
    if b.last <= seen {
      ScaleMonotone(at - seen, Max(0.0, at - b.last), cfg.rps);
    } else {
      NewBucketIsFull(cfg, at);
    }
  }

  /** `have` tokens were there, one was taken. */
  lemma AdmittedLeavesFullWhenIdle(cfg: Config, have: real, seen: real, at: real, skew: real)
    requires cfg.Valid() && cfg.burst > 0 && IdleCoversSkew(cfg, skew) && seen <= at <= seen + skew
    requires have >= 1.0 && (have >= (at - seen) * cfg.rps || have == cfg.burst as real)
    ensures FullWhenIdle(cfg, Entry(Bucket(have - 1.0, at), seen))
  {
    var gap, span := at - seen, IdleSpan(cfg, Entry(Bucket(have - 1.0, at), seen));
    ScaleMonotone(gap, skew, cfg.rps);
    ScaleDifference(cfg.idle, gap, cfg.rps);
    ScaleDifference(cfg.idle, skew, cfg.rps);
    ScaleMonotone(cfg.idle - gap, span, cfg.rps);
    CoversInReals(cfg, skew);
    TakenTokenIsMadeUp(cfg.burst as real, cfg.idle * cfg.rps, skew * cfg.rps, (cfg.idle - skew) * cfg.rps, gap * cfg.rps,
                       have, span * cfg.rps);
  }

  lemma RefusedLeavesFullWhenIdle(cfg: Config, b: Bucket, seen: real, at: real, skew: real)
    requires cfg.Valid() && cfg.burst > 0 && IdleCoversSkew(cfg, skew)
    requires seen <= at <= seen + skew && 0.0 <= b.tokens && b.last <= seen
    ensures FullWhenIdle(cfg, Entry(b, seen))
  {
    var span := IdleSpan(cfg, Entry(b, seen));
    ScaleMonotone(cfg.idle, span, cfg.rps);
    ScaleNonNegative(skew, cfg.rps);
    CoversInReals(cfg, skew);
    KeptTokensAreEnough(cfg.burst as real, cfg.idle * cfg.rps, skew * cfg.rps, (cfg.idle - skew) * cfg.rps,
                        b.tokens, span * cfg.rps);
  }

  /** Whether the request was admitted on a full bucket, admitted on a refilling one, or refused, its entry
      will be full when it may be forgotten. */
  lemma RequestLeavesFullWhenIdle(cfg: Config, b: Bucket, seen: real, at: real, skew: real)
    requires cfg.Valid() && cfg.burst > 0 && IdleCoversSkew(cfg, skew)
    requires seen <= at <= seen + skew && 0.0 <= b.tokens <= cfg.burst as real
    requires b.last <= seen || b == NewBucket(cfg, at)
    ensures FullWhenIdle(cfg, Entry(Take(cfg, b, at), seen))
  {
    NewBucketIsFull(cfg, at);
    if Admits(cfg, b, at) {
      GapRefillsAtLeast(cfg, b, seen, at);
      AdmittedLeavesFullWhenIdle(cfg, TokensAt(cfg, b, at), seen, at, skew);
    } else {
      RefusedLeavesFullWhenIdle(cfg, b, seen, at, skew);
    }
  }

  lemma AgreeOnRequest(cfg: Config, m: Limiters, all: Limiters, from: real, skew: real, e: Event)
    requires cfg.Valid() && IdleCoversSkew(cfg, skew) && Agree(cfg, m, all, from)
    requires e.Request? && from <= e.seen <= e.at <= e.seen + skew
    ensures Decision(cfg, m, e) == Decision(cfg, all, e)
    ensures Agree(cfg, Next(cfg, true, m, e), Next(cfg, false, all, e), e.at)
  {
    var Request(ip, seen, at) := e;
    var b, b' := BucketOf(cfg, m, ip, at), BucketOf(cfg, all, ip, at);
    if ip !in m && ip in all {
      FullStaysFull(cfg, b', from, at);
    }
    NewBucketIsFull(cfg, at);
    if cfg.burst == 0 {
      NoTokensEver(cfg, b, at, at);
      NoTokensEver(cfg, b', at, at);
    } else {
      RequestLeavesFullWhenIdle(cfg, b', seen, at, skew);
    }
    TakeSound(cfg, b, at, at);
    TakeSound(cfg, b', at, at);
    var m', all' := Next(cfg, true, m, e), Next(cfg, false, all, e);
    forall x | x in all' && x !in m' ensures Full(cfg, all'[x].bucket, at) {
      FullStaysFull(cfg, all[x].bucket, from, at);
    }
  }

  /** An entry swept by the idle rule has refilled completely. */
  lemma SweptIsFull(cfg: Config, entry: Entry, now: real, done: real)
    requires cfg.Valid() && FullWhenIdle(cfg, entry)
    requires entry.lastSeen < now - cfg.idle && now <= done
    ensures Full(cfg, entry.bucket, done)
  {
    ScaleMonotone(IdleSpan(cfg, entry), Max(0.0, done - entry.bucket.last), cfg.rps);
  }

  lemma AgreeOnSweep(cfg: Config, m: Limiters, all: Limiters, from: real, e: Event)
    requires cfg.Valid() && Agree(cfg, m, all, from)
    requires e.Sweep? && e.now <= e.done && from <= e.done
    ensures Agree(cfg, Next(cfg, true, m, e), Next(cfg, false, all, e), e.done)
  {
    var m' := Next(cfg, true, m, e);
    forall ip | ip in all && ip !in m' ensures Full(cfg, all[ip].bucket, e.done) {
      if cfg.burst == 0 {
        NoTokensEver(cfg, all[ip].bucket, from, e.done);
      } else if ip in m {
        SweptIsFull(cfg, all[ip], e.now, e.done);
      } else {
        FullStaysFull(cfg, all[ip].bucket, from, e.done);
      }
    }
  }

  lemma {:induction false} AgreeingRuns(cfg: Config, m: Limiters, all: Limiters, from: real, skew: real,
                                        events: seq<Event>)
    requires cfg.Valid() && IdleCoversSkew(cfg, skew)
    requires Agree(cfg, m, all, from) && Plausible(events, from, skew)
    ensures Decisions(cfg, true, m, events) == Decisions(cfg, false, all, events)
    decreases |events|
  {
    if events != [] {
      var e := events[0];
      if e.Request? {
        AgreeOnRequest(cfg, m, all, from, skew, e);
      } else {
        AgreeOnSweep(cfg, m, all, from, e);
      }
      AgreeingRuns(cfg, Next(cfg, true, m, e), Next(cfg, false, all, e), TimeAfter(e), skew, events[1..]);
    }
  }

  /** If an idle period makes up for the clock gap, then on every run every decision is the one a limiter that
      never forgets would have made. */
  lemma EvictionIsUnobservable(cfg: Config, from: real, skew: real, events: seq<Event>)
    requires cfg.Valid() && Plausible(events, from, skew) && IdleCoversSkew(cfg, skew)
    ensures Decisions(cfg, true, map[], events) == Decisions(cfg, false, map[], events)
  {
    AgreeingRuns(cfg, map[], map[], from, skew, events);
  }

  /** idle * rps >= burst alone is not enough: the two clock readings of one call can straddle it. */
  lemma SkewCanMakeEvictionObservable()
    ensures var cfg := Config(1.0, 1, 1.0);
            var events := [Request("a", 0.0, 0.5), Sweep(1.25, 1.25), Request("a", 1.25, 1.25)];
      && cfg.idle * cfg.rps >= cfg.burst as real && Plausible(events, 0.0, 0.5)
      && Decisions(cfg, true, map[], events) == [true, false, true]
      && Decisions(cfg, false, map[], events) == [true, false, false]
  {
    var cfg := Config(1.0, 1, 1.0);
    var e0, e1, e2 := Request("a", 0.0, 0.5), Sweep(1.25, 1.25), Request("a", 1.25, 1.25);
    var events := [e0, e1, e2];
    assert events[1..] == [e1, e2] && [e1, e2][1..] == [e2] && [e2][1..] == [];
    var m := Next(cfg, true, map[], e0);
    assert m == map["a" := Entry(Bucket(0.0, 0.5), 0.0)];
    assert Next(cfg, true, m, e1) == map[];
    calc {
      Decisions(cfg, true, map[], events);
      [true] + Decisions(cfg, true, m, [e1, e2]);
      [true] + ([false] + Decisions(cfg, true, map[], [e2]));
      { assert Decisions(cfg, true, map[], [e2]) == [true] + Decisions(cfg, true, Next(cfg, true, map[], e2), []); }
      [true, false, true];
    }
    calc {
      Decisions(cfg, false, map[], events);
      [true] + Decisions(cfg, false, m, [e1, e2]);
      [true] + ([false] + Decisions(cfg, false, m, [e2]));
      { assert Decisions(cfg, false, m, [e2]) == [false] + Decisions(cfg, false, Next(cfg, false, m, e2), []); }
      [true, false, false];
    }
    assert Plausible([e2], 1.25, 0.5) && Plausible([e1, e2], 0.5, 0.5);
  }

  // ----- Exactly when forgetting one bucket shows -----

  /** What a bucket answers to requests at the given moments. */
  function Answers(cfg: Config, b: Bucket, times: seq<real>): (answers: seq<bool>)
    ensures |answers| == |times|
    decreases |times|
  {
    if times == [] then []
    else [Admits(cfg, b, times[0])] + Answers(cfg, Take(cfg, b, times[0]), times[1..])
  }

  predicate Ascending(times: seq<real>, from: real) {
    times == [] || (from <= times[0] && Ascending(times[1..], times[0]))
  }

  ghost predicate ForgettingShows(cfg: Config, b: Bucket, at: real, times: seq<real>) {
    Answers(cfg, b, times) != Answers(cfg, NewBucket(cfg, at), times)
  }

  ghost predicate AllAdmitted(answers: seq<bool>) {
    forall i :: 0 <= i < |answers| ==> answers[i]
  }

  lemma TokensNotNegative(cfg: Config, b: Bucket, at: real)
    requires cfg.Valid() && SoundBucket(cfg, b, at)
    ensures TokensAt(cfg, b, at) >= 0.0
  {
    var span := Max(0.0, at - b.last);
    ScaleNonNegative(span, cfg.rps);
    var refill := span * cfg.rps;
    assert b.tokens + refill >= 0.0;
  }

  /** `n` requests at one moment are all admitted if and only if there are that many tokens. */
  lemma {:induction false} BurstOfRequests(cfg: Config, b: Bucket, at: real, n: nat)
    requires cfg.Valid() && SoundBucket(cfg, b, at)
    ensures n as real <= TokensAt(cfg, b, at) <==> AllAdmitted(Answers(cfg, b, seq(n, _ => at)))
    decreases n
  {
    if n == 0 {
      TokensNotNegative(cfg, b, at);
    } else {
      var times, rest := seq(n, _ => at), seq(n - 1, _ => at);
      assert times[1..] == rest;
      var b' := Take(cfg, b, at);
      var answers := Answers(cfg, b, times);
      assert answers == [Admits(cfg, b, at)] + Answers(cfg, b', rest);
      TakeSound(cfg, b, at, at);
      BurstOfRequests(cfg, b', at, n - 1);
      if Admits(cfg, b, at) {
        assert AllAdmitted(answers) <==> AllAdmitted(answers[1..]) by {
          assert forall i :: 0 <= i < n - 1 ==> answers[1..][i] == answers[i + 1];
          assert answers[0];
          assert AllAdmitted(answers[1..]) ==> forall i :: 1 <= i < n ==> answers[i] == answers[1..][i - 1];
        }
      } else {
        assert !answers[0];
      }
    }
  }

  lemma AscendingRepeat(at: real, n: nat)
    ensures Ascending(seq(n, _ => at), at)
    decreases n
  {
    if n > 0 {
      assert seq(n, _ => at)[1..] == seq(n - 1, _ => at);
      AscendingRepeat(at, n - 1);
    }
  }

  lemma {:induction false} SameAnswersWhenFull(cfg: Config, b: Bucket, c: Bucket, from: real, times: seq<real>)
    requires cfg.Valid() && SoundBucket(cfg, b, from) && SoundBucket(cfg, c, from)
    requires Full(cfg, b, from) && Full(cfg, c, from) && Ascending(times, from)
    ensures Answers(cfg, b, times) == Answers(cfg, c, times)
    decreases |times|
  {
    if times != [] {
      FullStaysFull(cfg, b, from, times[0]);
      FullStaysFull(cfg, c, from, times[0]);
      if !Admits(cfg, b, times[0]) {
        SameAnswersWhenFull(cfg, b, c, times[0], times[1..]);
      }
    }
  }

  /** Deleting a bucket at a moment goes unnoticed by every later sequence of requests if and only if the
      bucket is full at that moment. */
  lemma ForgettingIsUnobservableIff(cfg: Config, b: Bucket, at: real)
    requires cfg.Valid() && SoundBucket(cfg, b, at)
    ensures (forall times :: Ascending(times, at) ==> !ForgettingShows(cfg, b, at, times)) <==> Full(cfg, b, at)
  {
    NewBucketIsFull(cfg, at);
    if Full(cfg, b, at) {
      forall times | Ascending(times, at) ensures !ForgettingShows(cfg, b, at, times) {
        SameAnswersWhenFull(cfg, b, NewBucket(cfg, at), at, times);
      }
    } else {
      var times := seq(cfg.burst, _ => at);
      AscendingRepeat(at, cfg.burst);
      BurstOfRequests(cfg, b, at, cfg.burst);
      BurstOfRequests(cfg, NewBucket(cfg, at), at, cfg.burst);
      assert ForgettingShows(cfg, b, at, times);
    }
  }

  // ----- Many requests at one moment -----

  function Repeat(ip: Ip, at: real, n: nat): seq<Event> {
    seq(n, _ => Request(ip, at, at))
  }

  function TakeAll(cfg: Config, b: Bucket, at: real, n: nat): Bucket
    decreases n
  {
    if n == 0 then b else TakeAll(cfg, Take(cfg, b, at), at, n - 1)
  }

  function MapAfter(cfg: Config, m: Limiters, ip: Ip, at: real, n: nat): Limiters {
    if n == 0 then m else m[ip := Entry(TakeAll(cfg, BucketOf(cfg, m, ip, at), at, n), at)]
  }

  lemma MapAfterStep(cfg: Config, m: Limiters, ip: Ip, at: real, n: nat)
    requires n > 0
    ensures MapAfter(cfg, AllowStep(cfg, m, ip, at, at), ip, at, n - 1) == MapAfter(cfg, m, ip, at, n)
  {
    var b := Take(cfg, BucketOf(cfg, m, ip, at), at);
    assert BucketOf(cfg, AllowStep(cfg, m, ip, at, at), ip, at) == b;
    assert TakeAll(cfg, b, at, 0) == b;
  }

  lemma {:induction false} DecisionsOnRepeat(cfg: Config, sweeps: bool, m: Limiters, ip: Ip, at: real, n: nat,
                                             rest: seq<Event>)
    ensures Decisions(cfg, sweeps, m, Repeat(ip, at, n) + rest) ==
            Answers(cfg, BucketOf(cfg, m, ip, at), seq(n, _ => at))
              + Decisions(cfg, sweeps, MapAfter(cfg, m, ip, at, n), rest)
    decreases n
  {
    if n == 0 {
      assert Repeat(ip, at, n) + rest == rest;
    } else {
      DecisionsOnRepeat(cfg, sweeps, AllowStep(cfg, m, ip, at, at), ip, at, n - 1, rest);
      MapAfterStep(cfg, m, ip, at, n);
      FirstOfRepeat(cfg, sweeps, m, ip, at, n, rest);
    }
  }

  lemma FirstOfRepeat(cfg: Config, sweeps: bool, m: Limiters, ip: Ip, at: real, n: nat, rest: seq<Event>)
    requires n > 0
    ensures var m' := AllowStep(cfg, m, ip, at, at); var b := BucketOf(cfg, m, ip, at);
      && Decisions(cfg, sweeps, m, Repeat(ip, at, n) + rest) ==
           [Admits(cfg, b, at)] + Decisions(cfg, sweeps, m', Repeat(ip, at, n - 1) + rest)
      && Answers(cfg, b, seq(n, _ => at)) ==
           [Admits(cfg, b, at)] + Answers(cfg, BucketOf(cfg, m', ip, at), seq(n - 1, _ => at))
  {
    var events := Repeat(ip, at, n) + rest;
    assert events[0] == Request(ip, at, at);
    assert events[1..] == Repeat(ip, at, n - 1) + rest;
    assert seq(n, _ => at)[1..] == seq(n - 1, _ => at);
    assert BucketOf(cfg, AllowStep(cfg, m, ip, at, at), ip, at) == Take(cfg, BucketOf(cfg, m, ip, at), at);
  }

  lemma {:induction false} DrainedBucket(cfg: Config, b: Bucket, at: real, n: nat)
    requires cfg.Valid() && b.last == at && n as real <= b.tokens <= cfg.burst as real
    ensures TakeAll(cfg, b, at, n) == Bucket(b.tokens - n as real, at)
    decreases n
  {
    if n > 0 {
      DrainedBucket(cfg, Take(cfg, b, at), at, n - 1);
    }
  }

  lemma {:induction false} PlausibleRepeat(ip: Ip, from: real, at: real, n: nat, rest: seq<Event>, skew: real)
    requires from <= at && skew >= 0.0 && Plausible(rest, at, skew)
    ensures Plausible(Repeat(ip, at, n) + rest, from, skew) || n == 0
    decreases n
  {
    if n > 0 {
      var events := Repeat(ip, at, n) + rest;
      assert events[1..] == Repeat(ip, at, n - 1) + rest;
      if n == 1 {
        assert Repeat(ip, at, 0) + rest == rest;
      } else {
        PlausibleRepeat(ip, at, at, n - 1, rest, skew);
      }
    }
  }

  // ----- Exactly which settings are safe -----

  /** The entry is swept `gap` after its bucket was last used, and a whole burst follows at once. */
  function SweepAndBurst(cfg: Config, entry: Entry, gap: real): seq<Event> {
    var c := entry.bucket.last + gap;
    [Sweep(c, c)] + Repeat("a", c, cfg.burst)
  }

  /** Not yet full when it may be forgotten. */
  ghost predicate ForgottenTooEarly(cfg: Config, entry: Entry, gap: real) {
    && gap > 0.0 && cfg.burst > 0
    && SoundBucket(cfg, entry.bucket, entry.bucket.last)
    && entry.lastSeen + cfg.idle < entry.bucket.last + gap
    && entry.bucket.tokens + gap * cfg.rps < cfg.burst as real
  }

  /** A new bucket admits the whole burst, the one that was swept would not have. */
  lemma BurstShowsSweep(cfg: Config, entry: Entry, gap: real)
    requires cfg.Valid() && ForgottenTooEarly(cfg, entry, gap)
    ensures var c := entry.bucket.last + gap; var times := seq(cfg.burst, _ => c);
      AllAdmitted(Answers(cfg, NewBucket(cfg, c), times)) && !AllAdmitted(Answers(cfg, entry.bucket, times))
  {
    var c := entry.bucket.last + gap;
    NewBucketIsFull(cfg, c);
    BurstOfRequests(cfg, NewBucket(cfg, c), c, cfg.burst);
    BurstOfRequests(cfg, entry.bucket, c, cfg.burst);
  }

  /** The sweeping limiter answers as a new bucket, the other one as the old. */
  lemma SweepAndBurstDecisions(cfg: Config, entry: Entry, gap: real)
    requires cfg.Valid() && ForgottenTooEarly(cfg, entry, gap)
    ensures var c, tail := entry.bucket.last + gap, SweepAndBurst(cfg, entry, gap);
      var m: Limiters := map["a" := entry]; var times := seq(cfg.burst, _ => c);
      && Decisions(cfg, true, m, tail) == [false] + Answers(cfg, NewBucket(cfg, c), times)
      && Decisions(cfg, false, m, tail) == [false] + Answers(cfg, entry.bucket, times)
  {
    var c, tail := entry.bucket.last + gap, SweepAndBurst(cfg, entry, gap);
    var m: Limiters := map["a" := entry];
    var burst, times := Repeat("a", c, cfg.burst), seq(cfg.burst, _ => c);
    assert tail[1..] == burst && burst + [] == burst;
    assert SweepStep(cfg, m, c) == map[];
    DecisionsOnRepeat(cfg, true, map[], "a", c, cfg.burst, []);
    DecisionsOnRepeat(cfg, false, m, "a", c, cfg.burst, []);
    assert Answers(cfg, NewBucket(cfg, c), times) + [] == Answers(cfg, NewBucket(cfg, c), times);
    assert Answers(cfg, entry.bucket, times) + [] == Answers(cfg, entry.bucket, times);
  }

  /** The sweeping limiter admits that whole burst, the other one does not. */
  lemma SweepShows(cfg: Config, entry: Entry, gap: real)
    requires cfg.Valid() && ForgottenTooEarly(cfg, entry, gap)
    ensures var c, tail := entry.bucket.last + gap, SweepAndBurst(cfg, entry, gap);
      var m: Limiters := map["a" := entry];
      var forgot := Answers(cfg, NewBucket(cfg, c), seq(cfg.burst, _ => c));
      && Decisions(cfg, true, m, tail) == [false] + forgot && AllAdmitted(forgot)
      && Decisions(cfg, false, m, tail) != [false] + forgot
  {
    var c := entry.bucket.last + gap;
    var times := seq(cfg.burst, _ => c);
    SweepAndBurstDecisions(cfg, entry, gap);
    BurstShowsSweep(cfg, entry, gap);
    var forgot, kept := Answers(cfg, NewBucket(cfg, c), times), Answers(cfg, entry.bucket, times);
    assert ([false] + kept)[1..] == kept && ([false] + forgot)[1..] == forgot;
  }

  lemma SweepAndBurstPlausible(cfg: Config, entry: Entry, gap: real, skew: real)
    requires ForgottenTooEarly(cfg, entry, gap) && skew >= 0.0
    ensures Plausible(SweepAndBurst(cfg, entry, gap), entry.bucket.last, skew)
  {
    var c, tail := entry.bucket.last + gap, SweepAndBurst(cfg, entry, gap);
    assert tail[1..] == Repeat("a", c, cfg.burst) + [];
    PlausibleRepeat("a", c, c, cfg.burst, [], skew);
  }

  /** A moment a little past x at which the product is still below y. */
  lemma SlightlyLater(x: real, rps: real, y: real) returns (z: real)
    requires rps >= 0.0 && x * rps < y
    ensures x < z && z * rps < y
  {
    if rps == 0.0 {
      z := x + 1.0;
    } else {
      var d := (y - x * rps) / 2.0 / rps;
      assert d * rps == (y - x * rps) / 2.0;
      assert d > 0.0 by {
        if d <= 0.0 {
          ScaleMonotone(d, 0.0, rps);
        }
      }
      z := x + d;
      ScaleSum(x, d, rps);
    }
  }

  // First case: the idle period, less the clock gap, does not even bring back one token.

  function LateEntry(cfg: Config, skew: real): Entry {
    Entry(Bucket(cfg.burst as real - 1.0, skew), 0.0)
  }

  /** One request whose two clock readings are `skew` apart. */
  function LateFirst(cfg: Config, skew: real, gap: real): seq<Event> {
    [Request("a", 0.0, skew)] + SweepAndBurst(cfg, LateEntry(cfg, skew), gap)
  }

  lemma LateEntryForgotten(cfg: Config, skew: real) returns (gap: real)
    requires cfg.Valid() && skew >= 0.0 && cfg.burst > 0 && (cfg.idle - skew) * cfg.rps < 1.0
    ensures ForgottenTooEarly(cfg, LateEntry(cfg, skew), gap) && gap * cfg.rps < 1.0
  {
    gap := SlightlyLater(Max(cfg.idle - skew, 0.0), cfg.rps, 1.0);
  }

  lemma LateFirstDecisions(cfg: Config, sweeps: bool, skew: real, gap: real)
    requires cfg.Valid() && skew >= 0.0 && cfg.burst > 0
    ensures Decisions(cfg, sweeps, map[], LateFirst(cfg, skew, gap)) ==
            [true] + Decisions(cfg, sweeps, map["a" := LateEntry(cfg, skew)], SweepAndBurst(cfg, LateEntry(cfg, skew), gap))
  {
    var events := LateFirst(cfg, skew, gap);
    NewBucketIsFull(cfg, skew);
    assert events[1..] == SweepAndBurst(cfg, LateEntry(cfg, skew), gap);
    assert Next(cfg, sweeps, map[], events[0]) == map["a" := LateEntry(cfg, skew)];
  }

  // Second case: it brings back less than a burst and the token the clock gap can earn.

  function Token(cfg: Config): real
    requires cfg.rps > 0.0
  {
    1.0 / cfg.rps
  }

  function DrainedEntry(cfg: Config, skew: real): Entry
    requires cfg.rps > 0.0
  {
    Entry(Bucket(0.0, Token(cfg)), Token(cfg) - Min(skew, Token(cfg)))
  }

  /** A whole burst, then a request that is seen early enough and asked late enough to get the first new token. */
  function DrainFirst(cfg: Config, skew: real, gap: real): seq<Event>
    requires cfg.rps > 0.0
  {
    var entry := DrainedEntry(cfg, skew);
    Repeat("a", 0.0, cfg.burst)
      + ([Request("a", entry.lastSeen, entry.bucket.last)] + SweepAndBurst(cfg, entry, gap))
  }

  lemma TokenEarnsOne(cfg: Config, skew: real)
    requires cfg.rps > 0.0 && skew >= 0.0
    ensures Token(cfg) > 0.0 && Token(cfg) * cfg.rps == 1.0
    ensures Min(skew, Token(cfg)) * cfg.rps == Min(1.0, skew * cfg.rps)
  {
    var t := Token(cfg);
    assert t * cfg.rps == 1.0;
    if t <= 0.0 {
      ScaleMonotone(t, 0.0, cfg.rps);
    }
    if skew <= t {
      ScaleMonotone(skew, t, cfg.rps);
    } else {
      ScaleMonotone(t, skew, cfg.rps);
    }
  }

  lemma DrainedEntryForgotten(cfg: Config, skew: real) returns (gap: real)
    requires cfg.Valid() && skew >= 0.0 && cfg.rps > 0.0 && cfg.burst > 0
    requires cfg.idle * cfg.rps < cfg.burst as real + Min(1.0, skew * cfg.rps)
    ensures ForgottenTooEarly(cfg, DrainedEntry(cfg, skew), gap)
  {
    TokenEarnsOne(cfg, skew);
    var late := Min(skew, Token(cfg));
    ScaleSum(cfg.idle - late, late, cfg.rps);
    gap := SlightlyLater(Max(cfg.idle - late, 0.0), cfg.rps, cfg.burst as real);
  }

  lemma DrainFirstDecisions(cfg: Config, sweeps: bool, skew: real, gap: real)
    requires cfg.Valid() && skew >= 0.0 && cfg.rps > 0.0 && cfg.burst > 0
    ensures var entry := DrainedEntry(cfg, skew);
      Decisions(cfg, sweeps, map[], DrainFirst(cfg, skew, gap)) ==
      Answers(cfg, NewBucket(cfg, 0.0), seq(cfg.burst, _ => 0.0))
        + ([true] + Decisions(cfg, sweeps, map["a" := entry], SweepAndBurst(cfg, entry, gap)))
  {
    TokenEarnsOne(cfg, skew);
    var entry := DrainedEntry(cfg, skew);
    var e, tail := Request("a", entry.lastSeen, entry.bucket.last), SweepAndBurst(cfg, entry, gap);
    DecisionsOnRepeat(cfg, sweeps, map[], "a", 0.0, cfg.burst, [e] + tail);
    DrainedBucket(cfg, NewBucket(cfg, 0.0), 0.0, cfg.burst);
    var m := MapAfter(cfg, map[], "a", 0.0, cfg.burst);
    assert m == map["a" := Entry(Bucket(0.0, 0.0), 0.0)];
    assert TokensAt(cfg, m["a"].bucket, e.at) == 1.0;
    assert Next(cfg, sweeps, m, e) == map["a" := entry];
    assert ([e] + tail)[1..] == tail;
  }

  lemma DrainFirstPlausible(cfg: Config, skew: real, gap: real)
    requires cfg.Valid() && skew >= 0.0 && cfg.rps > 0.0 && ForgottenTooEarly(cfg, DrainedEntry(cfg, skew), gap)
    ensures Plausible(DrainFirst(cfg, skew, gap), 0.0, skew)
  {
    TokenEarnsOne(cfg, skew);
    var entry := DrainedEntry(cfg, skew);
    var e, tail := Request("a", entry.lastSeen, entry.bucket.last), SweepAndBurst(cfg, entry, gap);
    SweepAndBurstPlausible(cfg, entry, gap, skew);
    assert ([e] + tail)[1..] == tail;
    PlausibleRepeat("a", 0.0, 0.0, cfg.burst, [e] + tail, skew);
  }

  lemma LateFirstShows(cfg: Config, skew: real, gap: real)
    requires cfg.Valid() && skew >= 0.0 && ForgottenTooEarly(cfg, LateEntry(cfg, skew), gap)
    ensures Plausible(LateFirst(cfg, skew, gap), 0.0, skew)
    ensures var events := LateFirst(cfg, skew, gap);
      Decisions(cfg, true, map[], events) != Decisions(cfg, false, map[], events)
  {
    var entry := LateEntry(cfg, skew);
    var tail, m: Limiters := SweepAndBurst(cfg, entry, gap), map["a" := entry];
    SweepAndBurstPlausible(cfg, entry, gap, skew);
    assert LateFirst(cfg, skew, gap)[1..] == tail;
    LateFirstDecisions(cfg, true, skew, gap);
    LateFirstDecisions(cfg, false, skew, gap);
    SweepShows(cfg, entry, gap);
    var with, without := Decisions(cfg, true, m, tail), Decisions(cfg, false, m, tail);
    SameFront([], with, without);
    assert [] + ([true] + with) == [true] + with && [] + ([true] + without) == [true] + without;
  }

  lemma DrainFirstShows(cfg: Config, skew: real, gap: real)
    requires cfg.Valid() && skew >= 0.0 && cfg.rps > 0.0 && ForgottenTooEarly(cfg, DrainedEntry(cfg, skew), gap)
    ensures var events := DrainFirst(cfg, skew, gap);
      Decisions(cfg, true, map[], events) != Decisions(cfg, false, map[], events)
  {
    var entry := DrainedEntry(cfg, skew);
    var tail, m: Limiters := SweepAndBurst(cfg, entry, gap), map["a" := entry];
    DrainFirstDecisions(cfg, true, skew, gap);
    DrainFirstDecisions(cfg, false, skew, gap);
    SweepShows(cfg, entry, gap);
    SameFront(Answers(cfg, NewBucket(cfg, 0.0), seq(cfg.burst, _ => 0.0)),
              Decisions(cfg, true, m, tail), Decisions(cfg, false, m, tail));
  }

  lemma ScaleByZero(x: real, rps: real)
    ensures rps == 0.0 ==> x * rps == 0.0
  {
  }

  lemma NotCovered(burst: real, idle: real, most: real, left: real)
    requires !Covers(burst, idle, most, left)
    ensures left < 1.0 || idle < burst + Min(1.0, most)
  {
  }

  lemma ShortfallCases(cfg: Config, skew: real)
    requires cfg.Valid() && !IdleCoversSkew(cfg, skew)
    ensures cfg.burst > 0
    ensures (cfg.idle - skew) * cfg.rps < 1.0 ||
            (cfg.rps > 0.0 && cfg.idle * cfg.rps < cfg.burst as real + Min(1.0, skew * cfg.rps))
  {
    ScaleByZero(cfg.idle - skew, cfg.rps);
    CoversInReals(cfg, skew);
    NotCovered(cfg.burst as real, cfg.idle * cfg.rps, skew * cfg.rps, (cfg.idle - skew) * cfg.rps);
  }

  /** Where the settings fall short, some run tells the two limiters apart. */
  lemma ShortfallShows(cfg: Config, skew: real) returns (events: seq<Event>)
    requires cfg.Valid() && skew >= 0.0 && !IdleCoversSkew(cfg, skew)
    ensures Plausible(events, 0.0, skew) && Decisions(cfg, true, map[], events) != Decisions(cfg, false, map[], events)
  {
    ShortfallCases(cfg, skew);
    if (cfg.idle - skew) * cfg.rps < 1.0 {
      var gap := LateEntryForgotten(cfg, skew);
      LateFirstShows(cfg, skew, gap);
      events := LateFirst(cfg, skew, gap);
    } else {
      var gap := DrainedEntryForgotten(cfg, skew);
      DrainFirstPlausible(cfg, skew, gap);
      DrainFirstShows(cfg, skew, gap);
      events := DrainFirst(cfg, skew, gap);
    }
  }

  lemma SameFront(front: seq<bool>, a: seq<bool>, b: seq<bool>)
    requires a != b
    ensures front + ([true] + a) != front + ([true] + b)
  {
    assert (front + ([true] + a))[|front| + 1..] == a && (front + ([true] + b))[|front| + 1..] == b;
  }

  /** Sweeping is unobservable on every run, for clock readings up to `skew` apart, if and only if an idle period
      makes up for the gap. */
  lemma EvictionIsUnobservableIff(cfg: Config, skew: real)
    requires cfg.Valid() && skew >= 0.0
    ensures (forall events :: Plausible(events, 0.0, skew) ==>
               Decisions(cfg, true, map[], events) == Decisions(cfg, false, map[], events))
            <==> IdleCoversSkew(cfg, skew)
  {
    if IdleCoversSkew(cfg, skew) {
      forall events | Plausible(events, 0.0, skew)
        ensures Decisions(cfg, true, map[], events) == Decisions(cfg, false, map[], events)
      {
        EvictionIsUnobservable(cfg, 0.0, skew, events);
      }
    } else {
      var events := ShortfallShows(cfg, skew);
    }
  }

  /** With one clock reading per call, that is: if and only if an idle period refills a whole bucket. */
  lemma IdleRuleIsExact(cfg: Config)
    requires cfg.Valid()
    ensures (forall events :: Plausible(events, 0.0, 0.0) ==>
               Decisions(cfg, true, map[], events) == Decisions(cfg, false, map[], events))
            <==> cfg.idle * cfg.rps >= cfg.burst as real
  {
    EvictionIsUnobservableIff(cfg, 0.0);
    CoversNoSkew(cfg);
  }

  lemma CoversNoSkew(cfg: Config)
    requires cfg.Valid()
    ensures IdleCoversSkew(cfg, 0.0) <==> cfg.idle * cfg.rps >= cfg.burst as real
  {
    ScaleNonNegative(cfg.idle, cfg.rps);
    assert 0.0 * cfg.rps == 0.0 && cfg.idle - 0.0 == cfg.idle;
  }

  /** cmd/redirect/main.go: 20 requests a second, bursts of 40, swept after ten minutes. */
  const PRODUCTION := Config(20.0, 40, 600.0)

  /** The production settings bear any gap but the last twentieth of a second of the ten minutes. */
  lemma ProductionEvictionIsUnobservableIff(skew: real)
    requires skew >= 0.0
    ensures (forall events :: Plausible(events, 0.0, skew) ==>
               Decisions(PRODUCTION, true, map[], events) == Decisions(PRODUCTION, false, map[], events))
            <==> skew <= 599.95
  {
    EvictionIsUnobservableIff(PRODUCTION, skew);
  }

  // ----- The rate bound -----

  /** Requests of `ip` admitted at a moment in [lo, hi]. */
  function AdmittedWithin(events: seq<Event>, ds: seq<bool>, ip: Ip, lo: real, hi: real): nat
    requires |events| == |ds|
  {
    if events == [] then 0
    else
      (if events[0].Request? && events[0].ip == ip && ds[0] && lo <= events[0].at <= hi then 1 else 0)
      + AdmittedWithin(events[1..], ds[1..], ip, lo, hi)
  }

  function Available(cfg: Config, m: Limiters, ip: Ip, at: real): real {
    if ip in m then TokensAt(cfg, m[ip].bucket, at) else cfg.burst as real
  }

  /** Tokens `ip` can still spend up to `hi`, counting from `lo` or now, whichever is later. */
  function Budget(cfg: Config, m: Limiters, ip: Ip, now: real, lo: real, hi: real): real {
    var start := Max(now, lo);
    if start > hi then 0.0 else Available(cfg, m, ip, start) + (hi - start) * cfg.rps
  }

  ghost predicate SoundMap(cfg: Config, m: Limiters, now: real) {
    forall ip :: ip in m ==> SoundBucket(cfg, m[ip].bucket, now)
  }

  lemma AvailableGrowsAtRate(cfg: Config, m: Limiters, ip: Ip, now: real, t: real, u: real)
    requires cfg.Valid() && SoundMap(cfg, m, now) && now <= t <= u
    ensures 0.0 <= Available(cfg, m, ip, t)
    ensures Available(cfg, m, ip, u) <= Available(cfg, m, ip, t) + (u - t) * cfg.rps
  {
    ScaleNonNegative(u - t, cfg.rps);
    if ip in m {
      var b := m[ip].bucket;
      ScaleNonNegative(t - b.last, cfg.rps);
      assert (u - b.last) * cfg.rps == (t - b.last) * cfg.rps + (u - t) * cfg.rps;
    }
  }

  lemma BudgetNotNegative(cfg: Config, m: Limiters, ip: Ip, now: real, later: real, lo: real, hi: real)
    requires cfg.Valid() && SoundMap(cfg, m, now) && now <= later
    ensures 0.0 <= Budget(cfg, m, ip, later, lo, hi)
  {
    var start := Max(later, lo);
    if start <= hi {
      AvailableGrowsAtRate(cfg, m, ip, now, start, start);
      ScaleNonNegative(hi - start, cfg.rps);
      var have, refill := Available(cfg, m, ip, start), (hi - start) * cfg.rps;
      assert have >= 0.0 && refill >= 0.0;
      assert Budget(cfg, m, ip, later, lo, hi) == have + refill;
    }
  }

  lemma BudgetOverTime(cfg: Config, m: Limiters, ip: Ip, now: real, later: real, lo: real, hi: real)
    requires cfg.Valid() && SoundMap(cfg, m, now) && now <= later
    ensures 0.0 <= Budget(cfg, m, ip, later, lo, hi) <= Budget(cfg, m, ip, now, lo, hi)
  {
    BudgetNotNegative(cfg, m, ip, now, now, lo, hi);
    BudgetNotNegative(cfg, m, ip, now, later, lo, hi);
    var start, start' := Max(now, lo), Max(later, lo);
    if start' <= hi {
      var have, have' := Available(cfg, m, ip, start), Available(cfg, m, ip, start');
      AvailableGrowsAtRate(cfg, m, ip, now, start, start');
      calc {
        Budget(cfg, m, ip, later, lo, hi);
        have' + (hi - start') * cfg.rps;
      <=
        have + (start' - start) * cfg.rps + (hi - start') * cfg.rps;
        have + (hi - start) * cfg.rps;
        Budget(cfg, m, ip, now, lo, hi);
      }
    }
  }

  /** Taking a token leaves one less now, and never more later. */
  lemma TokensAfterTake(cfg: Config, b: Bucket, at: real, later: real)
    requires cfg.Valid() && SoundBucket(cfg, b, at) && at <= later && Admits(cfg, b, at)
    ensures TokensAt(cfg, Take(cfg, b, at), later) <= TokensAt(cfg, b, later)
    ensures TokensAt(cfg, Take(cfg, b, at), at) == TokensAt(cfg, b, at) - 1.0
  {
    assert (later - b.last) * cfg.rps == (at - b.last) * cfg.rps + (later - at) * cfg.rps;
    ScaleNonNegative(later - at, cfg.rps);
  }

  /** A request never raises the budget, and an admitted one inside the window pays for itself. */
  lemma BudgetAfterRequest(cfg: Config, m: Limiters, ip: Ip, lo: real, hi: real, e: Event)
    requires cfg.Valid() && e.Request? && SoundMap(cfg, m, e.at)
    ensures SoundMap(cfg, Next(cfg, false, m, e), e.at)
    ensures var spent := if e.ip == ip && Decision(cfg, m, e) && lo <= e.at <= hi then 1.0 else 0.0;
      Budget(cfg, Next(cfg, false, m, e), ip, e.at, lo, hi) + spent <= Budget(cfg, m, ip, e.at, lo, hi)
  {
    var b := BucketOf(cfg, m, e.ip, e.at);
    TakeSound(cfg, b, e.at, e.at);
    var start := Max(e.at, lo);
    if e.ip == ip && start <= hi {
      FullStaysFull(cfg, NewBucket(cfg, e.at), e.at, start);
      if Admits(cfg, b, e.at) {
        TokensAfterTake(cfg, b, e.at, start);
      }
    }
  }

  lemma {:induction false} AdmittedWithinBudget(cfg: Config, m: Limiters, ip: Ip, from: real, skew: real,
                                                events: seq<Event>, lo: real, hi: real)
    requires cfg.Valid() && SoundMap(cfg, m, from) && Plausible(events, from, skew)
    ensures AdmittedWithin(events, Decisions(cfg, false, m, events), ip, lo, hi) as real
            <= Budget(cfg, m, ip, from, lo, hi)
    decreases |events|
  {
    if events == [] {
      BudgetOverTime(cfg, m, ip, from, from, lo, hi);
    } else {
      var e := events[0];
      var m' := Next(cfg, false, m, e);
      assert Decisions(cfg, false, m, events)[1..] == Decisions(cfg, false, m', events[1..]);
      BudgetAfterEvent(cfg, m, ip, from, skew, events, lo, hi);
      AdmittedWithinBudget(cfg, m', ip, TimeAfter(e), skew, events[1..], lo, hi);
    }
  }

  lemma BudgetAfterEvent(cfg: Config, m: Limiters, ip: Ip, from: real, skew: real, events: seq<Event>, lo: real,
                         hi: real)
    requires cfg.Valid() && SoundMap(cfg, m, from) && events != [] && Plausible(events, from, skew)
    ensures var e := events[0]; var m' := Next(cfg, false, m, e);
      var spent := if e.Request? && e.ip == ip && Decision(cfg, m, e) && lo <= e.at <= hi then 1.0 else 0.0;
      && SoundMap(cfg, m', TimeAfter(e)) && Plausible(events[1..], TimeAfter(e), skew)
      && Budget(cfg, m', ip, TimeAfter(e), lo, hi) + spent <= Budget(cfg, m, ip, from, lo, hi)
  {
    var e := events[0];
    BudgetOverTime(cfg, m, ip, from, TimeAfter(e), lo, hi);
    if e.Request? {
      BudgetAfterRequest(cfg, m, ip, lo, hi, e);
    }
  }

  lemma FreshBudget(cfg: Config, ip: Ip, now: real, lo: real, hi: real)
    requires cfg.Valid() && lo <= hi
    ensures Budget(cfg, map[], ip, now, lo, hi) <= cfg.burst as real + (hi - lo) * cfg.rps
  {
    var start := Max(now, lo);
    if start <= hi {
      ScaleMonotone(hi - start, hi - lo, cfg.rps);
      assert Budget(cfg, map[], ip, now, lo, hi) == cfg.burst as real + (hi - start) * cfg.rps;
    } else {
      var refill, burst := (hi - lo) * cfg.rps, cfg.burst as real;
      ScaleNonNegative(hi - lo, cfg.rps);
      assert refill >= 0.0 && burst >= 0.0;
      assert Budget(cfg, map[], ip, now, lo, hi) == 0.0 <= burst + refill;
    }
  }

  /** Over any window of any run, sweeps and recreated entries included, one address gets at most
      burst + rps * length requests through. */
  lemma RateBound(cfg: Config, from: real, skew: real, events: seq<Event>, ip: Ip, lo: real, hi: real)
    requires cfg.Valid() && Plausible(events, from, skew) && lo <= hi && IdleCoversSkew(cfg, skew)
    ensures AdmittedWithin(events, Decisions(cfg, true, map[], events), ip, lo, hi) as real
            <= cfg.burst as real + (hi - lo) * cfg.rps
  {
    EvictionIsUnobservable(cfg, from, skew, events);
    AdmittedWithinBudget(cfg, map[], ip, from, skew, events, lo, hi);
    FreshBudget(cfg, ip, from, lo, hi);
  }

  lemma {:induction false} AdmittedConcat(events: seq<Event>, ds: seq<bool>, more: seq<Event>, dsMore: seq<bool>,
                                          ip: Ip, lo: real, hi: real)
    requires |events| == |ds| && |more| == |dsMore|
    ensures AdmittedWithin(events + more, ds + dsMore, ip, lo, hi) ==
            AdmittedWithin(events, ds, ip, lo, hi) + AdmittedWithin(more, dsMore, ip, lo, hi)
    decreases |events|
  {
    if events == [] {
      assert events + more == more && ds + dsMore == dsMore;
    } else {
      assert (events + more)[1..] == events[1..] + more && (ds + dsMore)[1..] == ds[1..] + dsMore;
      AdmittedConcat(events[1..], ds[1..], more, dsMore, ip, lo, hi);
    }
  }

  lemma {:induction false} AdmittedBurst(ip: Ip, at: real, n: nat, ds: seq<bool>, lo: real, hi: real)
    requires |ds| == n && AllAdmitted(ds) && lo <= at <= hi
    ensures AdmittedWithin(Repeat(ip, at, n), ds, ip, lo, hi) == n
    decreases n
  {
    if n > 0 {
      assert Repeat(ip, at, n)[1..] == Repeat(ip, at, n - 1);
      assert forall i :: 0 <= i < n - 1 ==> ds[1..][i] == ds[i + 1];
      AdmittedBurst(ip, at, n - 1, ds[1..], lo, hi);
    }
  }

  /** A new bucket admits a whole burst. */
  lemma NewBucketAdmitsBurst(cfg: Config, at: real)
    requires cfg.Valid()
    ensures AllAdmitted(Answers(cfg, NewBucket(cfg, at), seq(cfg.burst, _ => at)))
  {
    NewBucketIsFull(cfg, at);
    BurstOfRequests(cfg, NewBucket(cfg, at), at, cfg.burst);
  }

  lemma SweepAndBurstAdmits(cfg: Config, entry: Entry, gap: real, lo: real)
    requires cfg.Valid() && ForgottenTooEarly(cfg, entry, gap) && lo <= entry.bucket.last
    ensures var tail := SweepAndBurst(cfg, entry, gap);
      AdmittedWithin(tail, Decisions(cfg, true, map["a" := entry], tail), "a", lo, entry.bucket.last + gap) == cfg.burst
  {
    var c := entry.bucket.last + gap;
    var forgot := Answers(cfg, NewBucket(cfg, c), seq(cfg.burst, _ => c));
    SweepShows(cfg, entry, gap);
    AdmittedBurst("a", c, cfg.burst, forgot, lo, c);
    AdmittedConcat([Sweep(c, c)], [false], Repeat("a", c, cfg.burst), forgot, "a", lo, c);
  }

  ghost predicate RateBounded(cfg: Config, events: seq<Event>) {
    forall ip, lo, hi :: lo <= hi ==>
      AdmittedWithin(events, Decisions(cfg, true, map[], events), ip, lo, hi) as real
      <= cfg.burst as real + (hi - lo) * cfg.rps
  }

  /** One request and a whole burst, in less time than a token takes to come back. */
  lemma LateFirstExceeds(cfg: Config, skew: real, gap: real)
    requires cfg.Valid() && skew >= 0.0 && ForgottenTooEarly(cfg, LateEntry(cfg, skew), gap) && gap * cfg.rps < 1.0
    ensures !RateBounded(cfg, LateFirst(cfg, skew, gap))
  {
    var entry, events := LateEntry(cfg, skew), LateFirst(cfg, skew, gap);
    var lo, hi, tail := skew, skew + gap, SweepAndBurst(cfg, entry, gap);
    LateFirstDecisions(cfg, true, skew, gap);
    SweepAndBurstAdmits(cfg, entry, gap, lo);
    AdmittedConcat([events[0]], [true], tail, Decisions(cfg, true, map["a" := entry], tail), "a", lo, hi);
    var admitted := AdmittedWithin(events, Decisions(cfg, true, map[], events), "a", lo, hi);
    assert admitted == 1 + cfg.burst;
    assert hi - lo == gap;
  }

  lemma DrainFirstAdmits(cfg: Config, skew: real, gap: real)
    requires cfg.Valid() && skew >= 0.0 && cfg.rps > 0.0 && ForgottenTooEarly(cfg, DrainedEntry(cfg, skew), gap)
    ensures var events := DrainFirst(cfg, skew, gap);
      AdmittedWithin(events, Decisions(cfg, true, map[], events), "a", 0.0, Token(cfg) + gap) == 2 * cfg.burst + 1
  {
    TokenEarnsOne(cfg, skew);
    var entry := DrainedEntry(cfg, skew);
    var lo, hi, tail := 0.0, Token(cfg) + gap, SweepAndBurst(cfg, entry, gap);
    var e := Request("a", entry.lastSeen, entry.bucket.last);
    var first := Answers(cfg, NewBucket(cfg, 0.0), seq(cfg.burst, _ => 0.0));
    var rest := Decisions(cfg, true, map["a" := entry], tail);
    DrainFirstDecisions(cfg, true, skew, gap);
    SweepAndBurstAdmits(cfg, entry, gap, lo);
    NewBucketAdmitsBurst(cfg, 0.0);
    AdmittedBurst("a", 0.0, cfg.burst, first, lo, hi);
    AdmittedConcat([e], [true], tail, rest, "a", lo, hi);
    AdmittedConcat(Repeat("a", 0.0, cfg.burst), first, [e] + tail, [true] + rest, "a", lo, hi);
  }

  /** Two bursts and one request more, in less time than a burst takes to come back after that request. */
  lemma DrainFirstExceeds(cfg: Config, skew: real, gap: real)
    requires cfg.Valid() && skew >= 0.0 && cfg.rps > 0.0 && ForgottenTooEarly(cfg, DrainedEntry(cfg, skew), gap)
    ensures !RateBounded(cfg, DrainFirst(cfg, skew, gap))
  {
    TokenEarnsOne(cfg, skew);
    DrainFirstAdmits(cfg, skew, gap);
    var events, lo, hi := DrainFirst(cfg, skew, gap), 0.0, Token(cfg) + gap;
    ScaleSum(Token(cfg), gap, cfg.rps);
    assert hi - lo == hi;
    assert !(AdmittedWithin(events, Decisions(cfg, true, map[], events), "a", lo, hi) as real
             <= cfg.burst as real + (hi - lo) * cfg.rps);
  }

  /** The rate bound and unobservable eviction need the very same settings: all runs keep within
      burst + rps * length if and only if an idle period makes up for the clock gap. */
  lemma RateBoundIff(cfg: Config, skew: real)
    requires cfg.Valid() && skew >= 0.0
    ensures (forall events :: Plausible(events, 0.0, skew) ==> RateBounded(cfg, events)) <==> IdleCoversSkew(cfg, skew)
  {
    if IdleCoversSkew(cfg, skew) {
      forall events | Plausible(events, 0.0, skew) ensures RateBounded(cfg, events) {
        forall ip, lo, hi | lo <= hi
          ensures AdmittedWithin(events, Decisions(cfg, true, map[], events), ip, lo, hi) as real
                  <= cfg.burst as real + (hi - lo) * cfg.rps
        {
          RateBound(cfg, 0.0, skew, events, ip, lo, hi);
        }
      }
    } else {
      var events := ShortfallExceeds(cfg, skew);
    }
  }

  lemma ShortfallExceeds(cfg: Config, skew: real) returns (events: seq<Event>)
    requires cfg.Valid() && skew >= 0.0 && !IdleCoversSkew(cfg, skew)
    ensures Plausible(events, 0.0, skew) && !RateBounded(cfg, events)
  {
    ShortfallCases(cfg, skew);
    if (cfg.idle - skew) * cfg.rps < 1.0 {
      var gap := LateEntryForgotten(cfg, skew);
      events := LateFirst(cfg, skew, gap);
      LateFirstShows(cfg, skew, gap);
      LateFirstExceeds(cfg, skew, gap);
    } else {
      var gap := DrainedEntryForgotten(cfg, skew);
      events := DrainFirst(cfg, skew, gap);
      DrainFirstPlausible(cfg, skew, gap);
      DrainFirstExceeds(cfg, skew, gap);
    }
  }

  /** With one clock reading per call: if and only if an idle period refills a whole bucket. */
  lemma RateBoundIsExact(cfg: Config)
    requires cfg.Valid()
    ensures (forall events :: Plausible(events, 0.0, 0.0) ==> RateBounded(cfg, events))
            <==> cfg.idle * cfg.rps >= cfg.burst as real
  {
    RateBoundIff(cfg, 0.0);
    CoversNoSkew(cfg);
  }

  // ----- Addresses do not interfere -----

  /** The events one address can be affected by. */
  function OnlyAbout(events: seq<Event>, ip: Ip): seq<Event> {
    if events == [] then []
    else if events[0].Request? && events[0].ip != ip then OnlyAbout(events[1..], ip)
    else [events[0]] + OnlyAbout(events[1..], ip)
  }

  lemma {:induction false} OnlyAboutIff(events: seq<Event>, ip: Ip, e: Event)
    ensures e in OnlyAbout(events, ip) <==> e in events && (e.Request? ==> e.ip == ip)
    decreases |events|
  {
    if events != [] {
      OnlyAboutIff(events[1..], ip, e);
      assert events == [events[0]] + events[1..];
    }
  }

  /** The decisions taken at the events OnlyAbout keeps. */
  function DecisionsAbout(events: seq<Event>, ds: seq<bool>, ip: Ip): seq<bool>
    requires |events| == |ds|
  {
    if events == [] then []
    else if events[0].Request? && events[0].ip != ip then DecisionsAbout(events[1..], ds[1..], ip)
    else [ds[0]] + DecisionsAbout(events[1..], ds[1..], ip)
  }

  /** Dropping all other addresses' traffic changes no answer an address gets, whatever the settings. */
  lemma {:induction false} OtherTrafficIsIrrelevant(cfg: Config, sweeps: bool, m: Limiters, n: Limiters,
                                                    events: seq<Event>, ip: Ip)
    requires ip in m <==> ip in n
    requires ip in m ==> m[ip] == n[ip]
    ensures DecisionsAbout(events, Decisions(cfg, sweeps, m, events), ip) ==
            Decisions(cfg, sweeps, n, OnlyAbout(events, ip))
    decreases |events|
  {
    if events != [] {
      var e := events[0];
      var m' := Next(cfg, sweeps, m, e);
      var ds := Decisions(cfg, sweeps, m, events);
      assert ds[1..] == Decisions(cfg, sweeps, m', events[1..]);
      if e.Request? && e.ip != ip {
        OtherTrafficIsIrrelevant(cfg, sweeps, m', n, events[1..], ip);
      } else {
        OtherTrafficIsIrrelevant(cfg, sweeps, m', Next(cfg, sweeps, n, e), events[1..], ip);
        assert OnlyAbout(events, ip)[1..] == OnlyAbout(events[1..], ip);
      }
    }
  }
}
